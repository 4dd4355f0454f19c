/** The key/value model of src/models/kv.go: one key's value as the state, a Partition by key, and
    the law porcupine.Model asks of Partition: a history is linearizable exactly when its parts are. */
module KvModel {
  import opened Collections
  import opened Linearizability
  import opened Operations
  import opened Strings

  datatype KvInput = KvInput(op: nat, key: string, value: string)  // op: 0 get, 1 put, otherwise append
  datatype KvOutput = KvOutput(value: string)
  type KvOperation = Operation<KvInput, KvOutput>

  /** One key. */
  function KvStep(st: string, inp: KvInput, out: KvOutput): (bool, string) {
    if inp.op == 0 then (out.value == st, st)
    else if inp.op == 1 then (true, inp.value)
    else (true, st + inp.value)
  }

  function OneKey(): Model<string, KvInput, KvOutput> {
    Model("", (st, inp, out) => KvStep(st, inp, out), (a, b) => a == b)
  }

  type Store = map<string, string>

  function Lookup(st: Store, k: string): string {
    if k in st then st[k] else ""
  }

  function StoreStep(st: Store, inp: KvInput, out: KvOutput): (bool, Store) {
    var (ok, v) := KvStep(Lookup(st, inp.key), inp, out);
    (ok, st[inp.key := v])
  }

  /** The whole database, every key starting out as the empty string. */
  function WholeStore(): Model<Store, KvInput, KvOutput> {
    Model(map[], (st, inp, out) => StoreStep(st, inp, out), (a, b) => a == b)
  }

  lemma OneKeyLawful()
    ensures Lawful(OneKey())
  {
  }

  // ----- Partition -----

  function Key(h: seq<KvOperation>, i: nat): string
    requires i < |h|
  {
    h[i].input.key
  }

  /** The positions of the operations on key k, in order. */
  ghost function Positions(h: seq<KvOperation>, k: string): (ps: seq<nat>)
    ensures forall i :: 0 <= i < |ps| ==> ps[i] < |h| && Key(h, ps[i]) == k
    ensures forall p: nat :: p < |h| && Key(h, p) == k ==> p in ps
    ensures Distinct(ps)
  {
    if h == [] then [] else
      var last := |h| - 1;
      var before := Positions(h[..last], k);
      assert forall p: nat :: p < last ==> Key(h, p) == Key(h[..last], p);
      if Key(h, last) == k then before + [last] else before
  }

  /** The sub-history of key k, in its original order. */
  function ByKey(h: seq<KvOperation>, k: string): seq<KvOperation> {
    if h == [] then [] else
      var last := |h| - 1;
      ByKey(h[..last], k) + if Key(h, last) == k then [h[last]] else []
  }

  lemma {:induction false} ByKeyPositions(h: seq<KvOperation>, k: string)
    ensures |ByKey(h, k)| == |Positions(h, k)|
    ensures forall i :: 0 <= i < |ByKey(h, k)| ==> ByKey(h, k)[i] == h[Positions(h, k)[i]]
  {
    if h != [] {
      ByKeyPositions(h[..|h| - 1], k);
    }
  }

  /** So a part keeps the order of the history. */
  lemma {:induction false} PositionsIncrease(h: seq<KvOperation>, k: string)
    ensures forall i, j :: 0 <= i < j < |Positions(h, k)| ==> Positions(h, k)[i] < Positions(h, k)[j]
  {
    if h != [] {
      PositionsIncrease(h[..|h| - 1], k);
    }
  }

  ghost predicate KeyUsed(h: seq<KvOperation>, k: string) {
    exists i: nat :: i < |h| && Key(h, i) == k
  }

  lemma KeyUsedSnoc(h: seq<KvOperation>, i: nat, k: string)
    requires i < |h|
    ensures KeyUsed(h[..i + 1], k) <==> KeyUsed(h[..i], k) || k == Key(h, i)
  {
    var longer := h[..i + 1];
    assert Key(longer, i) == Key(h, i);
    if j: nat :| j < i && Key(h[..i], j) == k {
      assert Key(longer, j) == k;
    }
    if j: nat :| j < i + 1 && Key(longer, j) == k {
      assert j < i ==> Key(h[..i], j) == k;
    }
  }

  lemma NoKeyUsed(k: string)
    ensures !KeyUsed([], k)
  {
  }

  /** Appends every operation to its key's list. */
  method GroupByKey(h: seq<KvOperation>) returns (m: map<string, seq<KvOperation>>)
    ensures forall k :: k in m <==> KeyUsed(h, k)
    ensures forall k :: k in m ==> m[k] == ByKey(h, k)
  {
    hide KeyUsed;
    m := map[];
    forall k {
      NoKeyUsed(k);
    }
    assert h[..0] == [];
    for i := 0 to |h|
      invariant forall k :: k in m <==> KeyUsed(h[..i], k)
      invariant forall k :: ByKey(h[..i], k) == if k in m then m[k] else []
    {
      var key := h[i].input.key;
      ghost var longer := h[..i + 1];
      forall k
        ensures KeyUsed(longer, k) <==> KeyUsed(h[..i], k) || k == key
        ensures ByKey(longer, k) == ByKey(h[..i], k) + if k == key then [h[i]] else []
      {
        KeyUsedSnoc(h, i, k);
        assert longer[..i] == h[..i];
      }
      m := m[key := (if key in m then m[key] else []) + [h[i]]];
    }
    assert h[..|h|] == h;
  }

  /** `keys` are the keys the history uses, in sorted order, and the parts are their operations. */
  ghost predicate PartitionedBy(h: seq<KvOperation>, parts: seq<seq<KvOperation>>, keys: seq<string>) {
    && StrictlySorted(keys) && |parts| == |keys|
    && (forall k :: k in keys <==> KeyUsed(h, k))
    && (forall i :: 0 <= i < |keys| ==> parts[i] == ByKey(h, keys[i]))
  }

  method Partition(h: seq<KvOperation>) returns (parts: seq<seq<KvOperation>>)
    ensures exists keys :: PartitionedBy(h, parts, keys)
  {
    hide KeyUsed, StrictlySorted, ByKey;
    var m := GroupByKey(h);
    var sorted := SortKeys(m.Keys);
    parts := [];
    for i := 0 to |sorted|
      invariant |parts| == i
      invariant forall j :: 0 <= j < i ==> parts[j] == ByKey(h, sorted[j])
    {
      assert sorted[i] in m.Keys;
      parts := parts + [m[sorted[i]]];
    }
    assert PartitionedBy(h, parts, sorted);
  }

  // ----- orders of one key, by positions in the whole history -----

  ghost predicate KeyOrder(h: seq<KvOperation>, k: string, order: seq<nat>) {
    && Indexes(h, order)
    && Distinct(order)
    && (forall i: nat :: i in order <==> i < |h| && Key(h, i) == k)
    && Exec(OneKey(), h, "", order).Some?
    && RespectsTimes(h, order)
  }

  ghost function Map(ps: seq<nat>, order: seq<nat>): (mapped: seq<nat>)
    requires forall i :: 0 <= i < |order| ==> order[i] < |ps|
    ensures |mapped| == |order| && forall i :: 0 <= i < |order| ==> mapped[i] == ps[order[i]]
  {
    seq(|order|, i requires 0 <= i < |order| => ps[order[i]])
  }

  lemma {:induction false} ExecPart(h: seq<KvOperation>, k: string, s: string, order: seq<nat>)
    requires Indexes(ByKey(h, k), order) && |ByKey(h, k)| == |Positions(h, k)|
    ensures Indexes(h, Map(Positions(h, k), order))
    ensures Exec(OneKey(), ByKey(h, k), s, order) == Exec(OneKey(), h, s, Map(Positions(h, k), order))
    decreases |order|
  {
    ByKeyPositions(h, k);
    if order != [] {
      var (ok, t) := OneKey().step(s, ByKey(h, k)[order[0]].input, ByKey(h, k)[order[0]].output);
      assert Map(Positions(h, k), order)[1..] == Map(Positions(h, k), order[1..]);
      ExecPart(h, k, t, order[1..]);
    }
  }

  /** A linearization of the part is an order of the key's operations in the whole history. */
  lemma PartToKeyOrder(h: seq<KvOperation>, k: string, order: seq<nat>) returns (whole: seq<nat>)
    requires TimedLinearization(OneKey(), ByKey(h, k), order)
    ensures KeyOrder(h, k, whole)
  {
    var ps := Positions(h, k);
    ByKeyPositions(h, k);
    ExecPart(h, k, "", order);
    whole := Map(ps, order);
    forall i: nat | i < |h| && Key(h, i) == k
      ensures i in whole
    {
      var j :| 0 <= j < |ps| && ps[j] == i;
      assert j in order;
      var q :| 0 <= q < |order| && order[q] == j;
      assert whole[q] == i;
    }
  }

  ghost function Rank(ps: seq<nat>, p: nat): (r: nat)
    requires p in ps
    ensures r < |ps| && ps[r] == p
  {
    var r: nat :| r < |ps| && ps[r] == p;
    r
  }

  lemma KeyOrderToPart(h: seq<KvOperation>, k: string, whole: seq<nat>) returns (order: seq<nat>)
    requires KeyOrder(h, k, whole)
    ensures TimedLinearization(OneKey(), ByKey(h, k), order)
  {
    var ps := Positions(h, k);
    ByKeyPositions(h, k);
    assert forall i :: 0 <= i < |whole| ==> whole[i] in whole && whole[i] in ps;
    order := seq(|whole|, i requires 0 <= i < |whole| => Rank(ps, whole[i]));
    assert Map(ps, order) == whole;
    ExecPart(h, k, "", order);
    forall j: nat | j < |ps|
      ensures j in order
    {
      assert ps[j] in whole;
      var q :| 0 <= q < |whole| && whole[q] == ps[j];
      assert order[q] == j;
    }
  }

  // ----- projecting a whole order onto a key -----

  ghost function Only(h: seq<KvOperation>, order: seq<nat>, k: string): (only: seq<nat>)
    requires Indexes(h, order)
    ensures Indexes(h, only)
    ensures forall x :: x in only <==> x in order && Key(h, x) == k
  {
    if order == [] then [] else
      assert forall x :: x in order <==> x == order[0] || x in order[1..];
      var rest := Only(h, order[1..], k);
      if Key(h, order[0]) == k then [order[0]] + rest else rest
  }

  /** The whole store accepts an order exactly when every key accepts its own operations. */
  lemma {:induction false} ExecProjects(h: seq<KvOperation>, st: Store, order: seq<nat>)
    requires Indexes(h, order)
    ensures Exec(WholeStore(), h, st, order).Some?
       <==> forall k :: Exec(OneKey(), h, Lookup(st, k), Only(h, order, k)).Some?
    decreases |order|
  {
    if order != [] {
      var x := order[0];
      var kx := Key(h, x);
      var (ok, st') := StoreStep(st, h[x].input, h[x].output);
      ExecProjects(h, st', order[1..]);
      forall k
        ensures ok ==> Exec(OneKey(), h, Lookup(st, k), Only(h, order, k)) == Exec(OneKey(), h, Lookup(st', k), Only(h, order[1..], k))
        ensures !ok && k == kx ==> Exec(OneKey(), h, Lookup(st, k), Only(h, order, k)).None?
      {
        if k == kx {
          assert Only(h, order, k)[1..] == Only(h, order[1..], k);
        }
      }
      assert Exec(WholeStore(), h, st, order) == if ok then Exec(WholeStore(), h, st', order[1..]) else None;
      if ok {
        assert forall k :: Exec(OneKey(), h, Lookup(st, k), Only(h, order, k)).Some?
                      <==> Exec(OneKey(), h, Lookup(st', k), Only(h, order[1..], k)).Some?;
      } else {
        assert Exec(OneKey(), h, Lookup(st, kx), Only(h, order, kx)).None?;
      }
    }
  }

  ghost predicate InOrder(h: seq<KvOperation>, order: seq<nat>)
    requires Indexes(h, order)
  {
    order == [] ||
    ((forall y :: y in order[1..] ==> y < |h| && y != order[0] && h[y].ret >= h[order[0]].call) && InOrder(h, order[1..]))
  }

  lemma {:induction false} InOrderMeans(h: seq<KvOperation>, order: seq<nat>)
    requires Indexes(h, order)
    ensures InOrder(h, order) <==> Distinct(order) && RespectsTimes(h, order)
  {
    if order != [] {
      InOrderMeans(h, order[1..]);
      if Distinct(order) && RespectsTimes(h, order) {
        forall y | y in order[1..]
          ensures y < |h| && y != order[0] && h[y].ret >= h[order[0]].call
        {
          var j :| 0 <= j < |order[1..]| && order[1..][j] == y;
          assert order[j + 1] == y;
        }
      }
      if InOrder(h, order) {
        forall i, j | 0 <= i < j < |order|
          ensures order[i] != order[j] && !(h[order[j]].ret < h[order[i]].call)
        {
          assert order[j] == order[1..][j - 1];
          assert i > 0 ==> order[i] == order[1..][i - 1];
        }
      }
    }
  }

  lemma {:induction false} OnlyInOrder(h: seq<KvOperation>, order: seq<nat>, k: string)
    requires Indexes(h, order) && InOrder(h, order)
    ensures InOrder(h, Only(h, order, k))
  {
    if order != [] {
      OnlyInOrder(h, order[1..], k);
      if Key(h, order[0]) == k {
        assert Only(h, order, k)[1..] == Only(h, order[1..], k);
      }
    }
  }

  lemma WholeToKey(h: seq<KvOperation>, order: seq<nat>, k: string)
    requires TimedLinearization(WholeStore(), h, order)
    ensures KeyOrder(h, k, Only(h, order, k))
  {
    InOrderMeans(h, order);
    OnlyInOrder(h, order, k);
    InOrderMeans(h, Only(h, order, k));
    ExecProjects(h, map[], order);
    assert Lookup(map[], k) == "";
  }

  // ----- merging orders of the keys -----

  /** An operation with the instant at which it takes effect. */
  datatype Point = Point(op: nat, at: int)

  ghost function Ops(points: seq<Point>): (ops: seq<nat>)
    ensures |ops| == |points| && forall i :: 0 <= i < |points| ==> ops[i] == points[i].op
  {
    if points == [] then [] else [points[0].op] + Ops(points[1..])
  }

  /** Instants do not decrease, start no earlier than `floor`, and fall inside their operations. */
  ghost predicate Timeline(h: seq<KvOperation>, points: seq<Point>, floor: int) {
    points == [] ||
    (&& points[0].op < |h| && floor <= points[0].at
     && h[points[0].op].call <= points[0].at <= h[points[0].op].ret
     && Timeline(h, points[1..], points[0].at))
  }

  lemma {:induction false} TimelineMembers(h: seq<KvOperation>, points: seq<Point>, floor: int)
    requires Timeline(h, points, floor)
    ensures Indexes(h, Ops(points))
    ensures forall p :: p in points ==> p.op < |h| && floor <= p.at && h[p.op].call <= p.at <= h[p.op].ret
  {
    if points != [] {
      TimelineMembers(h, points[1..], points[0].at);
      assert forall i :: 0 < i < |points| ==> Ops(points)[i] == Ops(points[1..])[i - 1];
      assert forall p :: p in points <==> p == points[0] || p in points[1..];
    }
  }

  ghost predicate NoRepeats(points: seq<Point>) {
    points == [] || ((forall p :: p in points[1..] ==> p.op != points[0].op) && NoRepeats(points[1..]))
  }

  lemma {:induction false} TimelineRespects(h: seq<KvOperation>, points: seq<Point>, floor: int)
    requires Timeline(h, points, floor) && NoRepeats(points)
    ensures Indexes(h, Ops(points)) && InOrder(h, Ops(points))
  {
    TimelineMembers(h, points, floor);
    if points != [] {
      var ops := Ops(points);
      assert ops[1..] == Ops(points[1..]);
      TimelineMembers(h, points[1..], points[0].at);
      TimelineRespects(h, points[1..], points[0].at);
      forall y | y in ops[1..]
        ensures y < |h| && y != ops[0] && h[y].ret >= h[ops[0]].call
      {
        var j :| 0 <= j < |ops[1..]| && ops[1..][j] == y;
        assert points[1..][j] in points[1..] && points[1..][j].op == y;
      }
    }
  }

  /** Each operation takes effect at the latest call so far. */
  ghost function Spread(h: seq<KvOperation>, order: seq<nat>, floor: int): (points: seq<Point>)
    requires Indexes(h, order)
    ensures Ops(points) == order
  {
    if order == [] then [] else
      var at := Max(floor, h[order[0]].call);
      [Point(order[0], at)] + Spread(h, order[1..], at)
  }

  ghost predicate Sane(h: seq<KvOperation>) {
    forall i :: 0 <= i < |h| ==> h[i].call <= h[i].ret
  }

  lemma {:induction false} SpreadTimeline(h: seq<KvOperation>, order: seq<nat>, floor: int)
    requires Sane(h) && Indexes(h, order) && InOrder(h, order)
    requires forall x :: x in order ==> floor <= h[x].ret
    ensures Timeline(h, Spread(h, order, floor), floor)
  {
    if order != [] {
      var at := Max(floor, h[order[0]].call);
      assert order[0] in order;
      SpreadTimeline(h, order[1..], at);
      assert Spread(h, order, floor)[1..] == Spread(h, order[1..], at);
    }
  }

  ghost function Merge(a: seq<Point>, b: seq<Point>): (merged: seq<Point>)
    ensures forall p :: p in merged <==> p in a || p in b
  {
    if a == [] then b
    else if b == [] then a
    else if a[0].at <= b[0].at then
      assert forall p :: p in a <==> p == a[0] || p in a[1..];
      [a[0]] + Merge(a[1..], b)
    else
      assert forall p :: p in b <==> p == b[0] || p in b[1..];
      [b[0]] + Merge(a, b[1..])
  }

  lemma {:induction false} MergeTimeline(h: seq<KvOperation>, a: seq<Point>, b: seq<Point>, floor: int)
    requires Timeline(h, a, floor) && Timeline(h, b, floor)
    ensures Timeline(h, Merge(a, b), floor)
    decreases |a| + |b|
  {
    if a != [] && b != [] {
      if a[0].at <= b[0].at {
        MergeTimeline(h, a[1..], b, a[0].at);
        assert Merge(a, b)[1..] == Merge(a[1..], b);
      } else {
        MergeTimeline(h, a, b[1..], b[0].at);
        assert Merge(a, b)[1..] == Merge(a, b[1..]);
      }
    }
  }

  ghost predicate OnKey(h: seq<KvOperation>, points: seq<Point>, k: string) {
    forall p :: p in points ==> p.op < |h| && Key(h, p.op) == k
  }

  ghost predicate OffKey(h: seq<KvOperation>, points: seq<Point>, k: string) {
    forall p :: p in points ==> p.op < |h| && Key(h, p.op) != k
  }

  ghost function OnlyPoints(h: seq<KvOperation>, points: seq<Point>, k: string): seq<Point>
    requires forall p :: p in points ==> p.op < |h|
  {
    if points == [] then [] else
      (if Key(h, points[0].op) == k then [points[0]] else []) + OnlyPoints(h, points[1..], k)
  }

  lemma {:induction false} OnlyPointsOff(h: seq<KvOperation>, points: seq<Point>, k: string)
    ensures OffKey(h, points, k) ==> OnlyPoints(h, points, k) == []
    ensures OnKey(h, points, k) ==> OnlyPoints(h, points, k) == points
  {
    if points != [] {
      OnlyPointsOff(h, points[1..], k);
      assert points[0] in points;
      assert points == [points[0]] + points[1..];
    }
  }

  /** Merging two orders keeps the relative order of each key that occurs in only one of them. */
  lemma {:induction false} MergeProjects(h: seq<KvOperation>, a: seq<Point>, b: seq<Point>, k: string)
    requires (forall p :: p in a ==> p.op < |h|) && (forall p :: p in b ==> p.op < |h|)
    ensures OffKey(h, a, k) ==> OnlyPoints(h, Merge(a, b), k) == OnlyPoints(h, b, k)
    ensures OffKey(h, b, k) ==> OnlyPoints(h, Merge(a, b), k) == OnlyPoints(h, a, k)
    decreases |a| + |b|
  {
    OnlyPointsOff(h, a, k);
    OnlyPointsOff(h, b, k);
    if a != [] && b != [] {
      assert a[0] in a && b[0] in b;
      if a[0].at <= b[0].at {
        MergeProjects(h, a[1..], b, k);
        assert Merge(a, b)[1..] == Merge(a[1..], b);
      } else {
        MergeProjects(h, a, b[1..], k);
        assert Merge(a, b)[1..] == Merge(a, b[1..]);
      }
    }
  }

  lemma {:induction false} OnlyOfOps(h: seq<KvOperation>, points: seq<Point>, k: string)
    requires (forall p :: p in points ==> p.op < |h|) && Indexes(h, Ops(points))
    ensures Only(h, Ops(points), k) == Ops(OnlyPoints(h, points, k))
  {
    if points != [] {
      assert Ops(points)[1..] == Ops(points[1..]);
      OnlyOfOps(h, points[1..], k);
      assert points[0] in points;
    }
  }

  lemma {:induction false} MergeNoRepeats(a: seq<Point>, b: seq<Point>)
    requires NoRepeats(a) && NoRepeats(b)
    requires forall p, q :: p in a && q in b ==> p.op != q.op
    ensures NoRepeats(Merge(a, b))
    decreases |a| + |b|
  {
    if a != [] && b != [] {
      assert a[0] in a && b[0] in b;
      if a[0].at <= b[0].at {
        MergeNoRepeats(a[1..], b);
        assert Merge(a, b)[1..] == Merge(a[1..], b);
      } else {
        MergeNoRepeats(a, b[1..]);
        assert Merge(a, b)[1..] == Merge(a, b[1..]);
      }
    }
  }

  lemma {:induction false} SpreadNoRepeats(h: seq<KvOperation>, order: seq<nat>, floor: int)
    requires Indexes(h, order) && InOrder(h, order)
    ensures NoRepeats(Spread(h, order, floor))
  {
    if order != [] {
      var at := Max(floor, h[order[0]].call);
      SpreadNoRepeats(h, order[1..], at);
      var rest := Spread(h, order[1..], at);
      assert Spread(h, order, floor)[1..] == rest;
      forall p | p in rest
        ensures p.op != order[0]
      {
        var i :| 0 <= i < |rest| && rest[i] == p;
        assert Ops(rest)[i] == p.op;
      }
    }
  }

  // ----- locality -----

  /** The earliest call. */
  ghost function Earliest(h: seq<KvOperation>): (t: int)
    ensures forall i :: 0 <= i < |h| ==> t <= h[i].call
  {
    if h == [] then 0 else
      var t := Earliest(h[1..]);
      assert forall i :: 0 < i < |h| ==> h[i] == h[1..][i - 1];
      if t < h[0].call then t else h[0].call
  }

  /** A merged timeline of the operations on `keys`, in which every key keeps its own order. */
  ghost predicate Merged(h: seq<KvOperation>, keys: seq<string>, points: seq<Point>) {
    && Timeline(h, points, Earliest(h))
    && NoRepeats(points)
    && (forall p :: p in points ==> p.op < |h|)
    && (forall i: nat :: i < |h| ==> (i in Ops(points) <==> Key(h, i) in keys))
    && (forall k :: k in keys ==> KeyOrder(h, k, Ops(OnlyPoints(h, points, k))))
  }

  lemma OpsMembers(points: seq<Point>, i: nat)
    ensures i in Ops(points) <==> exists p :: p in points && p.op == i
  {
    if i in Ops(points) {
      var j :| 0 <= j < |points| && Ops(points)[j] == i;
      assert points[j] in points;
    }
    if p :| p in points && p.op == i {
      var j :| 0 <= j < |points| && points[j] == p;
      assert Ops(points)[j] == i;
    }
  }

  lemma KeyTimeline(h: seq<KvOperation>, k: string, order: seq<nat>) returns (points: seq<Point>)
    requires Sane(h) && KeyOrder(h, k, order)
    ensures Timeline(h, points, Earliest(h)) && NoRepeats(points) && OnKey(h, points, k) && Ops(points) == order
  {
    InOrderMeans(h, order);
    points := Spread(h, order, Earliest(h));
    SpreadTimeline(h, order, Earliest(h));
    SpreadNoRepeats(h, order, Earliest(h));
    forall p | p in points
      ensures p.op < |h| && Key(h, p.op) == k
    {
      var j :| 0 <= j < |points| && points[j] == p;
      assert Ops(points)[j] in order;
    }
  }

  lemma MergedMembers(h: seq<KvOperation>, keys: seq<string>, points: seq<Point>, k: string, mine: seq<Point>, i: nat)
    requires i < |h| && (i in Ops(points) <==> Key(h, i) in keys) && (i in Ops(mine) <==> Key(h, i) == k)
    ensures i in Ops(Merge(points, mine)) <==> Key(h, i) in keys + [k]
  {
    OpsMembers(points, i);
    OpsMembers(mine, i);
    OpsMembers(Merge(points, mine), i);
  }

  lemma MergedProjection(h: seq<KvOperation>, keys: seq<string>, points: seq<Point>, k: string, mine: seq<Point>, x: string)
    requires (forall p :: p in points ==> p.op < |h| && Key(h, p.op) in keys) && OnKey(h, mine, k) && k !in keys
    ensures x == k ==> OnlyPoints(h, Merge(points, mine), x) == mine
    ensures x in keys ==> OnlyPoints(h, Merge(points, mine), x) == OnlyPoints(h, points, x)
  {
    MergeProjects(h, points, mine, x);
    OnlyPointsOff(h, mine, x);
    assert x == k ==> OffKey(h, points, x);
    assert x in keys ==> OffKey(h, mine, x);
  }

  lemma MergeOneKey(h: seq<KvOperation>, keys: seq<string>, points: seq<Point>, k: string, order: seq<nat>) returns (merged: seq<Point>)
    requires Sane(h) && Merged(h, keys, points) && k !in keys && KeyOrder(h, k, order)
    ensures Merged(h, keys + [k], merged)
  {
    hide KeyOrder, Timeline, NoRepeats, OnlyPoints, Ops, Merge, Earliest;
    var mine := KeyTimeline(h, k, order);
    merged := Merge(points, mine);
    forall p | p in points
      ensures Key(h, p.op) in keys
    {
      OpsMembers(points, p.op);
    }
    assert Timeline(h, merged, Earliest(h)) by { MergeTimeline(h, points, mine, Earliest(h)); }
    assert NoRepeats(merged) by { MergeNoRepeats(points, mine); }
    forall i: nat | i < |h|
      ensures i in Ops(merged) <==> Key(h, i) in keys + [k]
    {
      KeyOrderMembers(h, k, order);
      MergedMembers(h, keys, points, k, mine, i);
    }
    forall x | x in keys + [k]
      ensures KeyOrder(h, x, Ops(OnlyPoints(h, merged, x)))
    {
      MergedProjection(h, keys, points, k, mine, x);
    }
  }

  lemma KeyOrderMembers(h: seq<KvOperation>, k: string, order: seq<nat>)
    requires KeyOrder(h, k, order)
    ensures forall i: nat :: i < |h| ==> (i in order <==> Key(h, i) == k)
  {
  }

  /** Orders of all the keys merge into an order of the whole history. */
  lemma {:induction false} MergeAllKeys(h: seq<KvOperation>, keys: seq<string>) returns (points: seq<Point>)
    requires Sane(h)
    requires forall i, j :: 0 <= i < j < |keys| ==> keys[i] != keys[j]
    requires forall k :: k in keys ==> exists order :: KeyOrder(h, k, order)
    ensures Merged(h, keys, points)
  {
    if keys == [] {
      points := [];
    } else {
      var before, k := keys[..|keys| - 1], keys[|keys| - 1];
      assert before + [k] == keys;
      assert forall x :: x in before ==> x in keys;
      var rest := MergeAllKeys(h, before);
      assert k in keys;
      var order :| KeyOrder(h, k, order);
      points := MergeOneKey(h, before, rest, k, order);
    }
  }

  lemma MergedIsWhole(h: seq<KvOperation>, keys: seq<string>, points: seq<Point>)
    requires Merged(h, keys, points) && forall k :: KeyUsed(h, k) <==> k in keys
    ensures TimedLinearization(WholeStore(), h, Ops(points))
  {
    var order := Ops(points);
    TimelineRespects(h, points, Earliest(h));
    InOrderMeans(h, order);
    forall i: nat | i < |h|
      ensures i in order
    {
      assert KeyUsed(h, Key(h, i));
    }
    hide Merged, Exec, Only, InOrder;
    forall k
      ensures Exec(OneKey(), h, "", Only(h, order, k)).Some?
    {
      MergedKeyRuns(h, keys, points, k);
    }
    assert forall k :: Lookup(map[], k) == "";
    ExecProjects(h, map[], order);
  }

  lemma MergedKeyRuns(h: seq<KvOperation>, keys: seq<string>, points: seq<Point>, k: string)
    requires Merged(h, keys, points) && forall k :: KeyUsed(h, k) <==> k in keys
    ensures Exec(OneKey(), h, "", Only(h, Ops(points), k)).Some?
  {
    hide Timeline, NoRepeats, OnlyPoints, RespectsTimes, KeyUsed;
    OnlyOfOps(h, points, k);
    if k in keys {
      assert KeyOrder(h, k, Ops(OnlyPoints(h, points, k)));
    } else {
      OnlyUnused(h, Ops(points), k);
    }
  }

  lemma OnlyUnused(h: seq<KvOperation>, order: seq<nat>, k: string)
    requires Indexes(h, order) && !KeyUsed(h, k)
    ensures Only(h, order, k) == [] && Exec(OneKey(), h, "", []).Some?
  {
    assert forall x :: x !in Only(h, order, k);
  }

  /** Partition locality: the whole history is linearizable from the empty store exactly when every
      part produced by Partition is linearizable from the empty string. */
  lemma PartitionLocality(h: seq<KvOperation>, keys: seq<string>)
    requires Sane(h) && StrictlySorted(keys) && forall k :: k in keys <==> KeyUsed(h, k)
    ensures TimedLinearizable(WholeStore(), h)
       <==> forall i :: 0 <= i < |keys| ==> TimedLinearizable(OneKey(), ByKey(h, keys[i]))
  {
    if order :| TimedLinearization(WholeStore(), h, order) {
      forall i | 0 <= i < |keys|
        ensures TimedLinearizable(OneKey(), ByKey(h, keys[i]))
      {
        WholeToKey(h, order, keys[i]);
        var part := KeyOrderToPart(h, keys[i], Only(h, order, keys[i]));
      }
    }
    if forall i :: 0 <= i < |keys| ==> TimedLinearizable(OneKey(), ByKey(h, keys[i])) {
      forall k | k in keys
        ensures exists order :: KeyOrder(h, k, order)
      {
        var i :| 0 <= i < |keys| && keys[i] == k;
        var part :| TimedLinearization(OneKey(), ByKey(h, keys[i]), part);
        var order := PartToKeyOrder(h, k, part);
      }
      forall i, j | 0 <= i < j < |keys|
        ensures keys[i] != keys[j]
      {
        LessTotal(keys[i], keys[j]);
      }
      var points := MergeAllKeys(h, keys);
      MergedIsWhole(h, keys, points);
    }
  }
}
