/** Map output, buckets, sorting and grouping (src/mr/worker.go), against the sequential program
    (src/main/mrsequential.go): the distributed computation means the same. */
module MapReduce {
  import opened Collections
  import opened Strings

  datatype KeyValue = KeyValue(key: string, value: string)

  /** One line of output. */
  datatype Line = Line(key: string, value: string)

  type Reduce = (string, seq<string>) -> string

  /** The values that go with a key, in order. */
  function Values(s: seq<KeyValue>, key: string): seq<string> {
    if s == [] then [] else
      var rest, last := Values(s[..|s| - 1], key), s[|s| - 1];
      if last.key == key then rest + [last.value] else rest
  }

  ghost predicate HasKey(s: seq<KeyValue>, key: string) {
    exists i :: 0 <= i < |s| && s[i].key == key
  }

  function Concat<T>(parts: seq<seq<T>>): seq<T> {
    if parts == [] then [] else Concat(parts[..|parts| - 1]) + parts[|parts| - 1]
  }

  /** The parts stand in the whole one after another, in order. */
  lemma {:induction false} ConcatInOrder<T>(parts: seq<seq<T>>, k: nat)
    requires k < |parts|
    ensures Concat(parts) == Concat(parts[..k]) + parts[k] + Concat(parts[k + 1..])
  {
    var last := |parts| - 1;
    if k < last {
      ConcatInOrder(parts[..last], k);
      assert parts[..last][..k] == parts[..k] && parts[..last][k + 1..] == parts[k + 1..][..last - k - 1];
      assert parts[k + 1..][last - k - 1] == parts[last];
    } else {
      assert parts[k + 1..] == [];
    }
  }

  /** The values of a key are those of its pairs, in the order of their positions. */
  lemma {:induction false} ValuesInOrder(s: seq<KeyValue>, key: string) returns (ps: seq<nat>)
    ensures |ps| == |Values(s, key)| && forall i, j :: 0 <= i < j < |ps| ==> ps[i] < ps[j]
    ensures forall i :: 0 <= i < |ps| ==> ps[i] < |s| && s[ps[i]] == KeyValue(key, Values(s, key)[i])
    ensures forall p: nat :: p < |s| && s[p].key == key ==> p in ps
  {
    ps := [];
    if s != [] {
      var last := |s| - 1;
      ps := ValuesInOrder(s[..last], key);
      if s[last].key == key {
        ps := ps + [last];
      }
      forall p: nat | p < |s| && s[p].key == key
        ensures p in ps
      {
        assert p < last ==> s[..last][p] == s[p];
        assert p == last ==> ps[|ps| - 1] == p;
      }
    }
  }

  // ----- map: into buckets -----

  /** The pairs whose key belongs to bucket i of n. */
  function Bucket(s: seq<KeyValue>, hash: string -> nat, n: nat, i: nat): seq<KeyValue>
    requires n > 0
  {
    if s == [] then [] else
      var rest, last := Bucket(s[..|s| - 1], hash, n, i), s[|s| - 1];
      if hash(last.key) % n == i then rest + [last] else rest
  }

  /** The positions of the pairs of one bucket. */
  ghost function Positions(s: seq<KeyValue>, hash: string -> nat, n: nat, i: nat): (ps: seq<nat>)
    requires n > 0
    ensures forall k :: 0 <= k < |ps| ==> ps[k] < |s|
  {
    if s == [] then [] else
      var rest := Positions(s[..|s| - 1], hash, n, i);
      if hash(s[|s| - 1].key) % n == i then rest + [|s| - 1] else rest
  }

  lemma {:induction false} PositionsBucket(s: seq<KeyValue>, hash: string -> nat, n: nat, i: nat, k: nat)
    requires n > 0 && k < |Positions(s, hash, n, i)|
    ensures |Bucket(s, hash, n, i)| == |Positions(s, hash, n, i)| && Bucket(s, hash, n, i)[k] == s[Positions(s, hash, n, i)[k]]
  {
    var rest := s[..|s| - 1];
    if k < |Positions(rest, hash, n, i)| {
      PositionsBucket(rest, hash, n, i, k);
    } else if k > 0 {
      PositionsBucket(rest, hash, n, i, k - 1);
    } else {
      EmptyBucket(rest, hash, n, i);
    }
  }

  lemma {:induction false} EmptyBucket(s: seq<KeyValue>, hash: string -> nat, n: nat, i: nat)
    requires n > 0
    ensures Positions(s, hash, n, i) == [] <==> Bucket(s, hash, n, i) == []
  {
    if s != [] {
      EmptyBucket(s[..|s| - 1], hash, n, i);
    }
  }

  /** Splits map output into one intermediate file per bucket. */
  method MapTask(kva: seq<KeyValue>, hash: string -> nat, nreduce: nat) returns (files: seq<seq<KeyValue>>)
    requires nreduce > 0
    ensures |files| == nreduce && forall i :: 0 <= i < nreduce ==> files[i] == Bucket(kva, hash, nreduce, i)
  {
    var positions: seq<seq<nat>> := seq(nreduce, _ => []);
    var i := 0;
    while i < |kva|
      invariant 0 <= i <= |kva| && |positions| == nreduce
      invariant forall b :: 0 <= b < nreduce ==> positions[b] == Positions(kva[..i], hash, nreduce, b)
    {
      var h := hash(kva[i].key) % nreduce;
      positions := positions[h := positions[h] + [i]];
      assert kva[..i + 1][..i] == kva[..i];
      i := i + 1;
    }
    assert kva[..|kva|] == kva;
    files := [];
    var b := 0;
    while b < nreduce
      invariant 0 <= b <= nreduce && |files| == b
      invariant forall c :: 0 <= c < b ==> files[c] == Bucket(kva, hash, nreduce, c)
    {
      var file := WriteFile(kva, positions[b], hash, nreduce, b);
      files := files + [file];
      b := b + 1;
    }
  }

  method WriteFile(kva: seq<KeyValue>, positions: seq<nat>, ghost hash: string -> nat, ghost n: nat, ghost b: nat)
    returns (file: seq<KeyValue>)
    requires n > 0 && positions == Positions(kva, hash, n, b)
    ensures file == Bucket(kva, hash, n, b)
  {
    file := [];
    var k := 0;
    EmptyBucket(kva, hash, n, b);
    while k < |positions|
      invariant 0 <= k <= |positions| && |file| == k
      invariant forall j :: 0 <= j < k ==> file[j] == kva[positions[j]]
    {
      file := file + [kva[positions[k]]];
      k := k + 1;
    }
    if positions != [] {
      PositionsBucket(kva, hash, n, b, 0);
    }
    forall j | 0 <= j < |positions|
      ensures |Bucket(kva, hash, n, b)| == |positions| && Bucket(kva, hash, n, b)[j] == file[j]
    {
      PositionsBucket(kva, hash, n, b, j);
    }
  }

  // ----- reduce: reading, sorting, grouping -----

  /** Reads the intermediate files of one bucket, one per map task, pair by pair. */
  method ReadInterFiles(files: seq<seq<KeyValue>>) returns (pairs: seq<KeyValue>)
    ensures pairs == Concat(files)
  {
    pairs := [];
    var f := 0;
    while f < |files|
      invariant 0 <= f <= |files| && pairs == Concat(files[..f])
    {
      var file, before, i, eof := files[f], pairs, 0, false;
      while !eof
        invariant 0 <= i <= |file|
        invariant pairs == before + file[..i] + if eof then [KeyValue("", "")] else []
        invariant eof ==> i == |file|
        decreases |file| - i, !eof
      {
        if i < |file| {
          pairs := pairs + [file[i]];
          i := i + 1;
        } else {
          pairs, eof := pairs + [KeyValue("", "")], true;
        }
      }
      pairs := pairs[..|pairs| - 1];
      assert pairs == before + file;
      assert files[..f + 1][..f] == files[..f];
      f := f + 1;
    }
    assert files[..|files|] == files;
  }

  ghost predicate SortedByKey(s: seq<KeyValue>) {
    forall i, j :: 0 <= i < j < |s| ==> !Less(s[j].key, s[i].key)
  }

  /** What a sort by key promises; pairs of equal keys may come in any order. */
  ghost predicate Sorts(s: seq<KeyValue>, t: seq<KeyValue>) {
    SortedByKey(t) && multiset(t) == multiset(s)
  }

  method SortByKey(s: seq<KeyValue>) returns (t: seq<KeyValue>)
    ensures Sorts(s, t)
  {
    t := [];
    var n := 0;
    while n < |s|
      invariant 0 <= n <= |s| && Sorts(s[..n], t)
    {
      hide SortedByKey;
      var k := |t|;
      while k > 0 && Less(s[n].key, t[k - 1].key)
        invariant 0 <= k <= |t|
        invariant k < |t| ==> Less(s[n].key, t[k].key)
        decreases k
      {
        k := k - 1;
      }
      InsertSorted(t, s[n], k);
      t := t[..k] + [s[n]] + t[k..];
      assert s[..n + 1] == s[..n] + [s[n]];
      n := n + 1;
    }
    assert s[..|s|] == s;
  }

  lemma InsertSorted(t: seq<KeyValue>, x: KeyValue, k: nat)
    requires SortedByKey(t) && k <= |t|
    requires k < |t| ==> Less(x.key, t[k].key)
    requires k > 0 ==> !Less(x.key, t[k - 1].key)
    ensures SortedByKey(t[..k] + [x] + t[k..]) && multiset(t[..k] + [x] + t[k..]) == multiset(t) + multiset{x}
  {
    hide Less;
    InsertOrdered(t, x, k);
    InsertMultiset(t, x, k);
  }

  lemma InsertMultiset(t: seq<KeyValue>, x: KeyValue, k: nat)
    requires k <= |t|
    ensures multiset(t[..k] + [x] + t[k..]) == multiset(t) + multiset{x}
  {
    assert t == t[..k] + t[k..];
  }

  lemma InsertOrdered(t: seq<KeyValue>, x: KeyValue, k: nat)
    requires SortedByKey(t) && k <= |t|
    requires k < |t| ==> Less(x.key, t[k].key)
    requires k > 0 ==> !Less(x.key, t[k - 1].key)
    ensures SortedByKey(t[..k] + [x] + t[k..])
  {
    hide Less;
    var u := t[..k] + [x] + t[k..];
    forall i, j | 0 <= i < j < |u|
      ensures !Less(u[j].key, u[i].key)
    {
      Inserted(t, x, k, i);
      Inserted(t, x, k, j);
      if i == k {
        AboveInserted(t, x, k, j - 1);
      } else if j == k {
        BelowInserted(t, x, k, i);
      }
    }
  }

  lemma AboveInserted(t: seq<KeyValue>, x: KeyValue, k: nat, j: nat)
    requires SortedByKey(t) && k <= j < |t| && Less(x.key, t[k].key)
    ensures !Less(t[j].key, x.key)
  {
    LessTotal(x.key, t[k].key);
    LessTotal(t[k].key, t[k].key);
    NotLessTransitive(x.key, t[k].key, t[j].key);
  }

  lemma BelowInserted(t: seq<KeyValue>, x: KeyValue, k: nat, i: nat)
    requires SortedByKey(t) && i < k <= |t| && !Less(x.key, t[k - 1].key)
    ensures !Less(x.key, t[i].key)
  {
    LessTotal(t[i].key, t[i].key);
    NotLessTransitive(t[i].key, t[k - 1].key, x.key);
  }

  /** One line per key of s, in key order, each with what reducef makes of all the key's values. */
  ghost predicate IsReduction(reducef: Reduce, s: seq<KeyValue>, lines: seq<Line>) {
    && (forall i, j :: 0 <= i < j < |lines| ==> Less(lines[i].key, lines[j].key))
    && (forall i :: 0 <= i < |lines| ==> HasKey(s, lines[i].key) && lines[i].value == reducef(lines[i].key, Values(s, lines[i].key)))
    && (forall p :: 0 <= p < |s| ==> Printed(lines, s[p].key))
  }

  ghost predicate Printed(lines: seq<Line>, key: string) {
    exists i :: 0 <= i < |lines| && lines[i].key == key
  }

  lemma {:induction false} ValuesConcat(a: seq<KeyValue>, b: seq<KeyValue>, key: string)
    ensures Values(a + b, key) == Values(a, key) + Values(b, key)
  {
    if b == [] {
      assert a + b == a;
    } else {
      assert (a + b)[..|a + b| - 1] == a + b[..|b| - 1];
      ValuesConcat(a, b[..|b| - 1], key);
    }
  }

  lemma {:induction false} ValuesNone(s: seq<KeyValue>, key: string)
    ensures Values(s, key) == [] <==> !HasKey(s, key)
  {
    if s != [] {
      var rest := s[..|s| - 1];
      ValuesNone(rest, key);
      if HasKey(rest, key) {
        var i :| 0 <= i < |rest| && rest[i].key == key;
        assert s[i].key == key;
      }
      if HasKey(s, key) {
        var i :| 0 <= i < |s| && s[i].key == key;
        assert i < |rest| ==> rest[i].key == key;
      }
    }
  }

  /** Position i starts a group: no key before it occurs from it on. */
  ghost predicate Boundary(s: seq<KeyValue>, i: nat)
    requires i <= |s|
  {
    forall p, q :: 0 <= p < i <= q < |s| ==> Less(s[p].key, s[q].key)
  }

  lemma NextBoundary(s: seq<KeyValue>, i: nat, j: nat)
    requires SortedByKey(s) && i < j <= |s| && Boundary(s, i) && (forall q :: i <= q < j ==> s[q].key == s[i].key)
    requires j < |s| ==> s[j].key != s[i].key
    ensures Boundary(s, j)
  {
    forall p, q | 0 <= p < j <= q < |s|
      ensures Less(s[p].key, s[q].key)
    {
      if p >= i {
        LessTotal(s[i].key, s[j].key);
        if q > j {
          LessTotal(s[j].key, s[q].key);
          if s[j].key != s[q].key {
            LessTransitive(s[i].key, s[j].key, s[q].key);
          }
        }
      }
    }
  }

  /** Adding the group s[i..j] to the reduction of s[..i]. */
  lemma GroupReduced(reducef: Reduce, s: seq<KeyValue>, i: nat, j: nat, lines: seq<Line>)
    requires i < j <= |s| && Boundary(s, i) && (forall q :: i <= q < j ==> s[q].key == s[i].key) && IsReduction(reducef, s[..i], lines)
    ensures IsReduction(reducef, s[..j], lines + [Line(s[i].key, reducef(s[i].key, Values(s[i..j], s[i].key)))])
  {
    var key := s[i].key;
    var more := lines + [Line(key, reducef(key, Values(s[i..j], key)))];
    forall k | 0 <= k < |more|
      ensures HasKey(s[..j], more[k].key) && more[k].value == reducef(more[k].key, Values(s[..j], more[k].key))
    {
      hide Values, HasKey, Boundary;
      if k < |lines| {
        OldKey(reducef, s, i, j, lines, k);
        assert more[k] == lines[k];
      } else {
        NewKey(s, i, j);
      }
    }
    forall a, b | 0 <= a < b < |more|
      ensures Less(more[a].key, more[b].key)
    {
      assert HasKey(s[..i], lines[a].key);
    }
    forall p | 0 <= p < |s[..j]|
      ensures Printed(more, s[..j][p].key)
    {
      if p < i {
        assert s[..i][p] == s[p];
        var k :| 0 <= k < |lines| && lines[k].key == s[..i][p].key;
        assert more[k].key == s[p].key;
      } else {
        assert more[|lines|].key == s[p].key;
      }
    }
  }

  lemma NewKey(s: seq<KeyValue>, i: nat, j: nat)
    requires i < j <= |s| && Boundary(s, i)
    ensures HasKey(s[..j], s[i].key) && Values(s[..j], s[i].key) == Values(s[i..j], s[i].key)
  {
    assert s[..j][i].key == s[i].key;
    LessTotal(s[i].key, s[i].key);
    ValuesNone(s[..i], s[i].key);
    assert s[..j] == s[..i] + s[i..j];
    ValuesConcat(s[..i], s[i..j], s[i].key);
  }

  /** A key of an earlier group does not occur in this one. */
  lemma OldKey(reducef: Reduce, s: seq<KeyValue>, i: nat, j: nat, lines: seq<Line>, k: nat)
    requires i < j <= |s| && Boundary(s, i) && (forall q :: i <= q < j ==> s[q].key == s[i].key) && IsReduction(reducef, s[..i], lines)
    requires k < |lines|
    ensures HasKey(s[..j], lines[k].key) && Values(s[..j], lines[k].key) == Values(s[..i], lines[k].key)
  {
    var p :| 0 <= p < |s[..i]| && s[..i][p].key == lines[k].key;
    assert s[..j][p].key == lines[k].key;
    LessTotal(s[p].key, s[i].key);
    ValuesNone(s[i..j], lines[k].key);
    assert s[..j] == s[..i] + s[i..j];
    ValuesConcat(s[..i], s[i..j], lines[k].key);
  }

  lemma {:induction false} ValuesOfGroup(s: seq<KeyValue>, i: nat, k: nat)
    requires i <= k < |s| && s[k].key == s[i].key
    ensures Values(s[i..k + 1], s[i].key) == Values(s[i..k], s[i].key) + [s[k].value]
  {
    assert s[i..k + 1][..k - i] == s[i..k];
  }

  /** The run of equal keys that starts at i: where it ends, and its values. */
  method CollectGroup(s: seq<KeyValue>, i: nat) returns (j: nat, values: seq<string>)
    requires i < |s|
    ensures i < j <= |s| && (forall q :: i <= q < j ==> s[q].key == s[i].key) && (j < |s| ==> s[j].key != s[i].key)
    ensures values == Values(s[i..j], s[i].key)
  {
    j := i + 1;
    while j < |s| && s[j].key == s[i].key
      invariant i < j <= |s| && forall q :: i <= q < j ==> s[q].key == s[i].key
    {
      j := j + 1;
    }
    values := [];
    var k := i;
    while k < j
      invariant i <= k <= j && values == Values(s[i..k], s[i].key)
    {
      ValuesOfGroup(s, i, k);
      values := values + [s[k].value];
      k := k + 1;
    }
  }

  /** The loop both programs share: one line for every run of equal keys. */
  method GroupAndReduce(s: seq<KeyValue>, reducef: Reduce) returns (lines: seq<Line>)
    requires SortedByKey(s)
    ensures IsReduction(reducef, s, lines)
  {
    lines := [];
    var i := 0;
    NothingReduced(s, reducef);
    hide IsReduction, Boundary, SortedByKey, Values;
    while i < |s|
      invariant 0 <= i <= |s| && Boundary(s, i) && IsReduction(reducef, s[..i], lines)
    {
      var j, values := CollectGroup(s, i);
      NextBoundary(s, i, j);
      GroupReduced(reducef, s, i, j, lines);
      lines := lines + [Line(s[i].key, reducef(s[i].key, values))];
      i := j;
    }
    assert s[..|s|] == s;
  }

  lemma NothingReduced(s: seq<KeyValue>, reducef: Reduce)
    ensures Boundary(s, 0) && IsReduction(reducef, s[..0], [])
  {
  }

  // ----- the two programs mean the same -----

  /** The order in which a key's values arrive does not matter to the reduce function. */
  ghost predicate OrderBlind(reducef: Reduce) {
    forall key, a, b :: multiset(a) == multiset(b) ==> reducef(key, a) == reducef(key, b)
  }

  lemma {:induction false} ValuesCount(s: seq<KeyValue>, key: string, v: string)
    ensures multiset(Values(s, key))[v] == multiset(s)[KeyValue(key, v)]
  {
    if s != [] {
      ValuesCount(s[..|s| - 1], key, v);
      assert s == s[..|s| - 1] + [s[|s| - 1]];
    }
  }

  lemma SortKeepsValues(s: seq<KeyValue>, t: seq<KeyValue>, key: string)
    requires multiset(t) == multiset(s)
    ensures multiset(Values(t, key)) == multiset(Values(s, key)) && (HasKey(t, key) <==> HasKey(s, key))
  {
    forall v
      ensures multiset(Values(t, key))[v] == multiset(Values(s, key))[v]
    {
      ValuesCount(t, key, v);
      ValuesCount(s, key, v);
    }
    ValuesNone(t, key);
    ValuesNone(s, key);
    assert |multiset(Values(t, key))| == |Values(t, key)| && |multiset(Values(s, key))| == |Values(s, key)|;
  }

  lemma {:induction false} BucketValues(s: seq<KeyValue>, hash: string -> nat, n: nat, i: nat, key: string)
    requires n > 0
    ensures Values(Bucket(s, hash, n, i), key) == if hash(key) % n == i then Values(s, key) else []
  {
    if s != [] {
      var rest, last := s[..|s| - 1], s[|s| - 1];
      BucketValues(rest, hash, n, i, key);
      if hash(last.key) % n == i {
        ValuesConcat(Bucket(rest, hash, n, i), [last], key);
        assert Values([last], key) == if last.key == key then [last.value] else [] by { assert [last][..0] == []; }
      }
    }
  }

  /** What reduce task i reads: bucket i of every map task's output. */
  ghost function Inputs(maps: seq<seq<KeyValue>>, hash: string -> nat, n: nat, i: nat): seq<seq<KeyValue>>
    requires n > 0
  {
    seq(|maps|, m requires 0 <= m < |maps| => Bucket(maps[m], hash, n, i))
  }

  /** A reduce task sees every value of the keys in its bucket, and nothing of other keys. */
  lemma {:induction false} InputValues(maps: seq<seq<KeyValue>>, hash: string -> nat, n: nat, i: nat, key: string)
    requires n > 0
    ensures Values(Concat(Inputs(maps, hash, n, i)), key) == if hash(key) % n == i then Values(Concat(maps), key) else []
  {
    if maps != [] {
      var rest, last := maps[..|maps| - 1], maps[|maps| - 1];
      InputValues(rest, hash, n, i, key);
      BucketValues(last, hash, n, i, key);
      assert Inputs(maps, hash, n, i)[..|maps| - 1] == Inputs(rest, hash, n, i);
      ValuesConcat(Concat(Inputs(rest, hash, n, i)), Bucket(last, hash, n, i), key);
      ValuesConcat(Concat(rest), last, key);
    }
  }

  /** The outputs of the reduce tasks, however each sorts its input. */
  ghost predicate Reduced(reducef: Reduce, maps: seq<seq<KeyValue>>, hash: string -> nat, n: nat, i: nat, lines: seq<Line>)
    requires n > 0
  {
    exists s :: Sorts(Concat(Inputs(maps, hash, n, i)), s) && IsReduction(reducef, s, lines)
  }

  /** The output of the sequential program, however it sorts. */
  ghost predicate Sequential(reducef: Reduce, maps: seq<seq<KeyValue>>, lines: seq<Line>) {
    exists s :: Sorts(Concat(maps), s) && IsReduction(reducef, s, lines)
  }

  /** The line for a key of the whole map output. */
  ghost predicate IsLine(reducef: Reduce, all: seq<KeyValue>, line: Line) {
    HasKey(all, line.key) && line.value == reducef(line.key, Values(all, line.key))
  }

  lemma InReduction(reducef: Reduce, s: seq<KeyValue>, lines: seq<Line>, line: Line)
    requires IsReduction(reducef, s, lines)
    ensures line in lines <==> IsLine(reducef, s, line)
  {
    if IsLine(reducef, s, line) {
      var p :| 0 <= p < |s| && s[p].key == line.key;
      assert Printed(lines, s[p].key);
      var i :| 0 <= i < |lines| && lines[i].key == line.key;
      assert lines[i] == line;
    }
  }

  lemma SequentialLines(reducef: Reduce, maps: seq<seq<KeyValue>>, lines: seq<Line>, line: Line)
    requires OrderBlind(reducef) && Sequential(reducef, maps, lines)
    ensures line in lines <==> IsLine(reducef, Concat(maps), line)
  {
    var s :| Sorts(Concat(maps), s) && IsReduction(reducef, s, lines);
    InReduction(reducef, s, lines, line);
    SortKeepsValues(Concat(maps), s, line.key);
  }

  lemma ReducedLines(reducef: Reduce, maps: seq<seq<KeyValue>>, hash: string -> nat, n: nat, i: nat, lines: seq<Line>, line: Line)
    requires n > 0 && OrderBlind(reducef) && Reduced(reducef, maps, hash, n, i, lines)
    ensures line in lines <==> hash(line.key) % n == i && IsLine(reducef, Concat(maps), line)
  {
    var input := Concat(Inputs(maps, hash, n, i));
    var s :| Sorts(input, s) && IsReduction(reducef, s, lines);
    InReduction(reducef, s, lines, line);
    SortKeepsValues(input, s, line.key);
    InputValues(maps, hash, n, i, line.key);
    ValuesNone(input, line.key);
    ValuesNone(Concat(maps), line.key);
  }

  /** No key is printed twice. */
  lemma {:induction false} LineOnce(lines: seq<Line>, line: Line)
    requires forall i, j :: 0 <= i < j < |lines| ==> Less(lines[i].key, lines[j].key)
    ensures multiset(lines)[line] == if line in lines then 1 else 0
  {
    if lines != [] {
      var rest, last := lines[..|lines| - 1], lines[|lines| - 1];
      LineOnce(rest, line);
      assert lines == rest + [last];
      LessTotal(last.key, last.key);
      if line in rest {
        var i :| 0 <= i < |rest| && rest[i] == line;
        assert Less(lines[i].key, last.key);
      }
    }
  }

  lemma {:induction false} ConcatCount(parts: seq<seq<Line>>, line: Line, b: int)
    requires forall i :: 0 <= i < |parts| ==> multiset(parts[i])[line] == if i == b then 1 else 0
    ensures multiset(Concat(parts))[line] == if 0 <= b < |parts| then 1 else 0
  {
    if parts != [] {
      ConcatCount(parts[..|parts| - 1], line, b);
    }
  }

  /** Distributed MapReduce means the same as the sequential program: with any number of buckets, any hash
      function and any order the sorts leave equal keys in, the outputs of all reduce tasks together are a
      permutation of the sequential output. */
  lemma DistributedIsSequential(reducef: Reduce, maps: seq<seq<KeyValue>>, hash: string -> nat, outputs: seq<seq<Line>>, lines: seq<Line>)
    requires OrderBlind(reducef) && |outputs| > 0 && Sequential(reducef, maps, lines)
    requires forall i :: 0 <= i < |outputs| ==> Reduced(reducef, maps, hash, |outputs|, i, outputs[i])
    ensures multiset(Concat(outputs)) == multiset(lines)
  {
    var n := |outputs|;
    forall line
      ensures multiset(Concat(outputs))[line] == multiset(lines)[line]
    {
      SequentialLines(reducef, maps, lines, line);
      SequentialOnce(reducef, maps, lines, line);
      var b := if line in lines then hash(line.key) % n else -1;
      forall i | 0 <= i < n
        ensures multiset(outputs[i])[line] == if i == b then 1 else 0
      {
        ReducedLines(reducef, maps, hash, n, i, outputs[i], line);
        ReducedOnce(reducef, maps, hash, n, i, outputs[i], line);
      }
      ConcatCount(outputs, line, b);
    }
  }

  lemma SequentialOnce(reducef: Reduce, maps: seq<seq<KeyValue>>, lines: seq<Line>, line: Line)
    requires Sequential(reducef, maps, lines)
    ensures multiset(lines)[line] == if line in lines then 1 else 0
  {
    LineOnce(lines, line);
  }

  lemma ReducedOnce(reducef: Reduce, maps: seq<seq<KeyValue>>, hash: string -> nat, n: nat, i: nat, lines: seq<Line>, line: Line)
    requires n > 0 && Reduced(reducef, maps, hash, n, i, lines)
    ensures multiset(lines)[line] == if line in lines then 1 else 0
  {
    LineOnce(lines, line);
  }

  /** Every key is printed by exactly one reduce task, the one its hash names. */
  lemma KeyInOneBucket(reducef: Reduce, maps: seq<seq<KeyValue>>, hash: string -> nat, outputs: seq<seq<Line>>, key: string, i: nat)
    requires OrderBlind(reducef) && i < |outputs|
    requires Reduced(reducef, maps, hash, |outputs|, i, outputs[i])
    ensures Printed(outputs[i], key) <==> HasKey(Concat(maps), key) && i == hash(key) % |outputs|
  {
    var line := Line(key, reducef(key, Values(Concat(maps), key)));
    ReducedLines(reducef, maps, hash, |outputs|, i, outputs[i], line);
    if Printed(outputs[i], key) {
      var k :| 0 <= k < |outputs[i]| && outputs[i][k].key == key;
      ReducedLines(reducef, maps, hash, |outputs|, i, outputs[i], outputs[i][k]);
    }
  }

  // ----- the programs -----

  method SequentialProgram(maps: seq<seq<KeyValue>>, reducef: Reduce) returns (lines: seq<Line>)
    ensures Sequential(reducef, maps, lines)
  {
    var intermediate := [];
    var f := 0;
    while f < |maps|
      invariant 0 <= f <= |maps| && intermediate == Concat(maps[..f])
    {
      assert maps[..f + 1][..f] == maps[..f];
      intermediate := intermediate + maps[f];
      f := f + 1;
    }
    assert maps[..|maps|] == maps;
    var sorted := SortByKey(intermediate);
    lines := GroupAndReduce(sorted, reducef);
  }

  /** A reduce task: reads its bucket from every map task's files, sorts and groups. */
  method ReduceTask(files: seq<seq<KeyValue>>, reducef: Reduce) returns (lines: seq<Line>)
    ensures exists s :: Sorts(Concat(files), s) && IsReduction(reducef, s, lines)
  {
    var intermediate := ReadInterFiles(files);
    var sorted := SortByKey(intermediate);
    lines := GroupAndReduce(sorted, reducef);
  }

  /** All map tasks, then all reduce tasks. */
  method DistributedProgram(maps: seq<seq<KeyValue>>, reducef: Reduce, hash: string -> nat, nreduce: nat) returns (outputs: seq<seq<Line>>)
    requires nreduce > 0
    ensures |outputs| == nreduce && forall i :: 0 <= i < nreduce ==> Reduced(reducef, maps, hash, nreduce, i, outputs[i])
    ensures OrderBlind(reducef) ==> forall lines :: Sequential(reducef, maps, lines) ==> multiset(Concat(outputs)) == multiset(lines)
  {
    hide Sorts, IsReduction, OrderBlind;
    var files: seq<seq<seq<KeyValue>>> := [];
    var m := 0;
    while m < |maps|
      invariant 0 <= m <= |maps| && |files| == m
      invariant forall k :: 0 <= k < m ==> |files[k]| == nreduce && forall i :: 0 <= i < nreduce ==> files[k][i] == Bucket(maps[k], hash, nreduce, i)
    {
      var buckets := MapTask(maps[m], hash, nreduce);
      files := files + [buckets];
      m := m + 1;
    }
    outputs := [];
    var i := 0;
    while i < nreduce
      invariant 0 <= i <= nreduce && |outputs| == i
      invariant forall k :: 0 <= k < i ==> Reduced(reducef, maps, hash, nreduce, k, outputs[k])
    {
      var mine := seq(|maps|, k requires 0 <= k < |maps| => files[k][i]);
      assert mine == Inputs(maps, hash, nreduce, i);
      var lines := ReduceTask(mine, reducef);
      outputs := outputs + [lines];
      i := i + 1;
    }
    if OrderBlind(reducef) {
      forall lines | Sequential(reducef, maps, lines)
        ensures multiset(Concat(outputs)) == multiset(lines)
      {
        DistributedIsSequential(reducef, maps, hash, outputs, lines);
      }
    }
  }
}
