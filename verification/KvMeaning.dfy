/** What the key/value model of src/models/kv.go accepts, said without its Step: in a legal order every get
    returns the value of the last put before it on its key, followed by what was appended since. */
module KvMeaning {
  import opened Collections
  import opened Linearizability
  import opened Operations
  import opened KvModel
  import opened Strings

  predicate IsGet(op: KvOperation) {
    op.input.op == 0
  }

  predicate IsPut(op: KvOperation, k: string) {
    op.input.op == 1 && op.input.key == k
  }

  predicate IsAppend(op: KvOperation, k: string) {
    op.input.op >= 2 && op.input.key == k
  }

  /** The position of the last put on key k before position i of the order; -1 when there is none. */
  function LastPut(h: seq<KvOperation>, order: seq<nat>, k: string, i: nat): (p: int)
    requires Indexes(h, order) && i <= |order|
    ensures -1 <= p < i
    ensures p >= 0 ==> IsPut(h[order[p]], k)
    ensures forall j :: p < j < i ==> !IsPut(h[order[j]], k)
  {
    if i == 0 then -1 else if IsPut(h[order[i - 1]], k) then i - 1 else LastPut(h, order, k, i - 1)
  }

  /** What an operation appends to key k. */
  function Piece(op: KvOperation, k: string): string {
    if IsAppend(op, k) then op.input.value else ""
  }

  /** The values appended to key k from position `low` up to position `high`, first to last. */
  function Appended(h: seq<KvOperation>, order: seq<nat>, k: string, low: nat, high: nat): string
    requires Indexes(h, order) && high <= |order|
    decreases high - low
  {
    if low >= high then ""
    else Piece(h[order[low]], k) + Appended(h, order, k, low + 1, high)
  }

  /** What key k holds just before position i. */
  function Content(h: seq<KvOperation>, order: seq<nat>, k: string, i: nat): string
    requires Indexes(h, order) && i <= |order|
  {
    var p := LastPut(h, order, k, i);
    (if p >= 0 then h[order[p]].input.value else "") + Appended(h, order, k, p + 1, i)
  }

  /** Every get from position n on returns what its key holds. */
  ghost predicate GetsRight(h: seq<KvOperation>, order: seq<nat>, n: nat)
    requires Indexes(h, order)
  {
    forall i :: n <= i < |order| && IsGet(h[order[i]]) ==> h[order[i]].output.value == Content(h, order, Key(h, order[i]), i)
  }

  lemma {:induction false} AppendedSnoc(h: seq<KvOperation>, order: seq<nat>, k: string, low: nat, high: nat)
    requires Indexes(h, order) && low <= high < |order|
    ensures Appended(h, order, k, low, high + 1) == Appended(h, order, k, low, high) + Piece(h[order[high]], k)
    decreases high - low
  {
    hide Piece;
    if low < high {
      AppendedSnoc(h, order, k, low + 1, high);
      ConcatAssociative(Piece(h[order[low]], k), Appended(h, order, k, low + 1, high), Piece(h[order[high]], k));
    } else {
      ConcatEmpty(Piece(h[order[high]], k));
    }
  }

  /** How one operation changes what a key holds. */
  lemma ContentNext(h: seq<KvOperation>, order: seq<nat>, k: string, i: nat)
    requires Indexes(h, order) && i < |order|
    ensures var op := h[order[i]];
      Content(h, order, k, i + 1) == if IsPut(op, k) then op.input.value
                                     else if IsAppend(op, k) then Content(h, order, k, i) + op.input.value
                                     else Content(h, order, k, i)
  {
    var p := LastPut(h, order, k, i);
    if IsPut(h[order[i]], k) {
      ConcatEmpty(h[order[i]].input.value);
    } else {
      AppendedSnoc(h, order, k, p + 1, i);
      var start, piece := if p >= 0 then h[order[p]].input.value else "", Piece(h[order[i]], k);
      ConcatAssociative(start, Appended(h, order, k, p + 1, i), piece);
      ConcatEmpty(Content(h, order, k, i));
    }
  }

  /** The store holds what the order so far makes each key hold. */
  ghost predicate Holds(h: seq<KvOperation>, order: seq<nat>, n: nat, st: Store)
    requires Indexes(h, order) && n <= |order|
  {
    forall k :: Lookup(st, k) == Content(h, order, k, n)
  }

  lemma HoldsNext(h: seq<KvOperation>, order: seq<nat>, n: nat, st: Store)
    requires Indexes(h, order) && n < |order| && Holds(h, order, n, st)
    ensures var x := h[order[n]]; Holds(h, order, n + 1, StoreStep(st, x.input, x.output).1)
  {
    hide Content;
    forall k
      ensures var x := h[order[n]]; Lookup(StoreStep(st, x.input, x.output).1, k) == Content(h, order, k, n + 1)
    {
      ContentNext(h, order, k, n);
      assert Lookup(st, k) == Content(h, order, k, n);
    }
  }

  lemma {:induction false} ExecFrom(h: seq<KvOperation>, order: seq<nat>, n: nat, st: Store)
    requires Indexes(h, order) && n <= |order| && Holds(h, order, n, st)
    ensures Exec(WholeStore(), h, st, order[n..]).Some? <==> GetsRight(h, order, n)
    decreases |order| - n
  {
    if n < |order| {
      hide Content, Holds;
      var x := h[order[n]];
      var (ok, next) := StoreStep(st, x.input, x.output);
      assert order[n..][0] == order[n] && order[n..][1..] == order[n + 1..];
      HoldsNext(h, order, n, st);
      ExecFrom(h, order, n + 1, next);
      OkIff(h, order, n, st);
      assert GetsRight(h, order, n) <==> ok && GetsRight(h, order, n + 1);
    }
  }

  lemma OkIff(h: seq<KvOperation>, order: seq<nat>, n: nat, st: Store)
    requires Indexes(h, order) && n < |order| && Holds(h, order, n, st)
    ensures var x := h[order[n]];
      StoreStep(st, x.input, x.output).0 <==> (IsGet(x) ==> x.output.value == Content(h, order, Key(h, order[n]), n))
  {
    hide Content;
    assert Lookup(st, Key(h, order[n])) == Content(h, order, Key(h, order[n]), n);
  }

  /** The meaning of a legal order, on the whole store. */
  lemma LegalMeansGetsRight(h: seq<KvOperation>, order: seq<nat>)
    requires Indexes(h, order)
    ensures Exec(WholeStore(), h, map[], order).Some? <==> GetsRight(h, order, 0)
  {
    assert Holds(h, order, 0, map[]);
    ExecFrom(h, order, 0, map[]);
    assert order[0..] == order;
  }

  /** The meaning of a legal order of one key's operations. */
  lemma KeyLegalMeansGetsRight(h: seq<KvOperation>, order: seq<nat>, k: string)
    requires Indexes(h, order) && forall i :: 0 <= i < |h| ==> Key(h, i) == k
    ensures Exec(OneKey(), h, "", order).Some? <==> GetsRight(h, order, 0)
  {
    hide GetsRight, Only;
    LegalMeansGetsRight(h, order);
    ExecProjects(h, map[], order);
    OnlyAll(h, order, k);
    assert Lookup(map[], k) == "";
    hide Exec;
    forall j
      ensures Exec(OneKey(), h, Lookup(map[], j), Only(h, order, j)).Some? <==> j != k || Exec(OneKey(), h, "", order).Some?
    {
      if j != k {
        NothingLegal(h, order, j);
      }
    }
    assert Exec(OneKey(), h, Lookup(map[], k), Only(h, order, k)) == Exec(OneKey(), h, "", order);
  }

  lemma NothingLegal(h: seq<KvOperation>, order: seq<nat>, j: string)
    requires Indexes(h, order) && forall i :: 0 <= i < |h| ==> Key(h, i) != j
    ensures Exec(OneKey(), h, Lookup(map[], j), Only(h, order, j)).Some?
  {
    OnlyUnused(h, order, j);
  }

  lemma {:induction false} OnlyAll(h: seq<KvOperation>, order: seq<nat>, k: string)
    requires Indexes(h, order) && forall i :: 0 <= i < |h| ==> Key(h, i) == k
    ensures Only(h, order, k) == order
  {
    if order != [] {
      OnlyAll(h, order[1..], k);
    }
  }

  /** A key/value history is linearizable when its operations can be put in an order that respects their
      times and in which every get returns what was put and appended before it. */
  ghost predicate KvLinearizable(h: seq<KvOperation>) {
    exists order :: KvLinearization(h, order)
  }

  ghost predicate KvLinearization(h: seq<KvOperation>, order: seq<nat>) {
    && Indexes(h, order) && Distinct(order)
    && (forall i: nat :: i < |h| ==> i in order)
    && GetsRight(h, order, 0)
    && RespectsTimes(h, order)
  }

  lemma LinearizableMeans(h: seq<KvOperation>)
    ensures TimedLinearizable(WholeStore(), h) <==> KvLinearizable(h)
  {
    hide GetsRight, RespectsTimes, Exec;
    if order :| TimedLinearization(WholeStore(), h, order) {
      LegalMeansGetsRight(h, order);
      assert KvLinearization(h, order);
    }
    if order :| KvLinearization(h, order) {
      LegalMeansGetsRight(h, order);
      assert TimedLinearization(WholeStore(), h, order);
    }
  }
}
