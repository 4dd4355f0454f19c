/** Histories given as operations with call and return times (src/porcupine/model.go), and how
    makeEntries of src/porcupine/checker.go turns them into entry lists. */
module Operations {
  import opened Collections
  import opened Linearizability

  datatype Operation<+I, +O> = Operation(clientId: int, input: I, call: int, output: O, ret: int)

  // ----- linearizability of operations with times -----

  ghost predicate Indexes<I, O>(ops: seq<Operation<I, O>>, order: seq<nat>) {
    forall i :: 0 <= i < |order| ==> order[i] < |ops|
  }

  /** Performing the operations of `order` from state s; None when some Step refuses. */
  ghost function Exec<S, I, O>(m: Model<S, I, O>, ops: seq<Operation<I, O>>, s: S, order: seq<nat>): Option<S>
    requires Indexes(ops, order)
  {
    if order == [] then Some(s) else
      var (ok, t) := m.step(s, ops[order[0]].input, ops[order[0]].output);
      if ok then Exec(m, ops, t, order[1..]) else None
  }

  /** No operation is placed after one that began only after it had returned. */
  ghost predicate RespectsTimes<I, O>(ops: seq<Operation<I, O>>, order: seq<nat>)
    requires Indexes(ops, order)
  {
    forall i, j :: 0 <= i < j < |order| ==> !(ops[order[j]].ret < ops[order[i]].call)
  }

  ghost predicate TimedLinearization<S, I, O>(m: Model<S, I, O>, ops: seq<Operation<I, O>>, order: seq<nat>) {
    && Indexes(ops, order)
    && Distinct(order)
    && (forall i: nat :: i < |ops| ==> i in order)
    && Exec(m, ops, m.init, order).Some?
    && RespectsTimes(ops, order)
  }

  ghost predicate TimedLinearizable<S, I, O>(m: Model<S, I, O>, ops: seq<Operation<I, O>>) {
    exists order :: TimedLinearization(m, ops, order)
  }

  lemma {:induction false} ExecSnoc<S, I, O>(m: Model<S, I, O>, ops: seq<Operation<I, O>>, s: S, order: seq<nat>, c: nat)
    requires Indexes(ops, order) && c < |ops|
    ensures Indexes(ops, order + [c])
    ensures Exec(m, ops, s, order + [c]) ==
      match Exec(m, ops, s, order)
      case None => None
      case Some(t) => (var (ok, u) := m.step(t, ops[c].input, ops[c].output); if ok then Some(u) else None)
  {
    if order != [] {
      assert (order + [c])[1..] == order[1..] + [c];
      var (ok, t) := m.step(s, ops[order[0]].input, ops[order[0]].output);
      ExecSnoc(m, ops, t, order[1..], c);
    }
  }

  // ----- makeEntries -----

  function RawEntry<I, O>(ops: seq<Operation<I, O>>, k: nat): Entry<I, O>
    requires k < 2 * |ops|
  {
    var op := ops[k / 2];
    if k % 2 == 0 then Call(op.input, k / 2, op.call, op.clientId) else Return(op.output, k / 2, op.ret, op.clientId)
  }

  /** entries[k] is the perm[k]-th of the 2n raw entries, and times do not decrease. */
  ghost predicate SortedBy<I, O>(ops: seq<Operation<I, O>>, entries: seq<Entry<I, O>>, perm: seq<nat>) {
    && Permutation(perm, 2 * |ops|) && |entries| == 2 * |ops|
    && (forall k :: 0 <= k < |entries| ==> entries[k] == RawEntry(ops, perm[k]))
    && (forall j, k :: 0 <= j < k < |entries| ==> entries[j].time <= entries[k].time)
  }

  /** What sort.Sort promises of its result, and no more: ties may come out in any order. */
  ghost predicate TimeSorted<I, O>(ops: seq<Operation<I, O>>, entries: seq<Entry<I, O>>) {
    exists perm :: SortedBy(ops, entries, perm)
  }

  method MakeEntries<I, O>(ops: seq<Operation<I, O>>) returns (entries: seq<Entry<I, O>>)
    ensures TimeSorted(ops, entries)
  {
    entries := [];
    ghost var perm: seq<nat> := [];
    for id := 0 to |ops|
      invariant |entries| == |perm| == 2 * id && Distinct(perm)
      invariant forall k :: 0 <= k < |perm| ==> perm[k] < 2 * id && entries[k] == RawEntry(ops, perm[k])
      invariant forall j, k :: 0 <= j < k < |entries| ==> entries[j].time <= entries[k].time
    {
      entries, perm := InsertByTime(entries, RawEntry(ops, 2 * id), perm, 2 * id, ops);
      entries, perm := InsertByTime(entries, RawEntry(ops, 2 * id + 1), perm, 2 * id + 1, ops);
    }
    assert SortedBy(ops, entries, perm);
  }

  /** One insertion of the sort. */
  method InsertByTime<I, O>(entries: seq<Entry<I, O>>, e: Entry<I, O>, ghost perm: seq<nat>, ghost source: nat,
                            ghost ops: seq<Operation<I, O>>)
    returns (larger: seq<Entry<I, O>>, ghost perm': seq<nat>)
    requires |perm| == |entries| == source < 2 * |ops| && Distinct(perm) && e == RawEntry(ops, source)
    requires forall k :: 0 <= k < |perm| ==> perm[k] < source && entries[k] == RawEntry(ops, perm[k])
    requires forall j, k :: 0 <= j < k < |entries| ==> entries[j].time <= entries[k].time
    ensures |perm'| == |larger| == source + 1 && Distinct(perm')
    ensures forall k :: 0 <= k < |perm'| ==> perm'[k] < source + 1 && larger[k] == RawEntry(ops, perm'[k])
    ensures forall j, k :: 0 <= j < k < |larger| ==> larger[j].time <= larger[k].time
  {
    var at := |entries|;
    while at > 0 && entries[at - 1].time > e.time
      invariant 0 <= at <= |entries|
      invariant forall k :: at <= k < |entries| ==> entries[k].time > e.time
    {
      at := at - 1;
    }
    larger := entries[..at] + [e] + entries[at..];
    perm' := perm[..at] + [source] + perm[at..];
    forall j, k | 0 <= j < k < |larger|
      ensures perm'[j] != perm'[k] && larger[j].time <= larger[k].time
    {
      Inserted(entries, e, at, j);
      Inserted(entries, e, at, k);
      Inserted(perm, source, at, j);
      Inserted(perm, source, at, k);
    }
    forall k | 0 <= k < |perm'|
      ensures perm'[k] < source + 1 && larger[k] == RawEntry(ops, perm'[k])
    {
      Inserted(entries, e, at, k);
      Inserted(perm, source, at, k);
    }
  }

  // ----- the entry list is well formed, and positions reflect times -----

  ghost predicate Proper<I, O>(ops: seq<Operation<I, O>>) {
    forall i :: 0 <= i < |ops| ==> ops[i].call < ops[i].ret
  }

  lemma SortedUnique<I, O>(ops: seq<Operation<I, O>>, entries: seq<Entry<I, O>>, perm: seq<nat>, p: nat, q: nat)
    requires SortedBy(ops, entries, perm) && Proper(ops)
    requires p < q < |entries| && entries[p].id == entries[q].id
    ensures entries[p].Call? && entries[q].Return?
  {
    assert perm[p] != perm[q];
    assert perm[p] / 2 == perm[q] / 2;
    assert entries[p].time <= entries[q].time;
  }

  /** Whatever order ties come out in, every operation's call precedes its return. */
  lemma SortedWellFormed<I, O>(ops: seq<Operation<I, O>>, entries: seq<Entry<I, O>>)
    requires TimeSorted(ops, entries) && Proper(ops)
    ensures WellFormed(entries) && |entries| / 2 == |ops|
    ensures forall i :: 0 <= i < |ops| ==>
      entries[CallAt(entries, i)] == RawEntry(ops, 2 * i) && entries[ReturnAt(entries, i)] == RawEntry(ops, 2 * i + 1)
  {
    var perm :| SortedBy(ops, entries, perm);
    forall p, q | 0 <= p < q < |entries| && entries[p].id == entries[q].id
      ensures entries[p].Call? && entries[q].Return?
    {
      SortedUnique(ops, entries, perm, p, q);
    }
    forall id: nat | id < |ops|
      ensures HasBoth(entries, id)
    {
      var c := PermutationCovers(perm, 2 * |ops|, 2 * id);
      var r := PermutationCovers(perm, 2 * |ops|, 2 * id + 1);
      assert CallOf(entries, c, id) && ReturnOf(entries, r, id);
    }
    forall i | 0 <= i < |ops|
      ensures entries[CallAt(entries, i)] == RawEntry(ops, 2 * i) && entries[ReturnAt(entries, i)] == RawEntry(ops, 2 * i + 1)
    {
      assert perm[CallAt(entries, i)] / 2 == i && perm[ReturnAt(entries, i)] / 2 == i;
    }
  }

  /** No operation returns at the very time another one is called. */
  ghost predicate NoTies<I, O>(ops: seq<Operation<I, O>>) {
    forall a, b :: 0 <= a < |ops| && 0 <= b < |ops| && a != b ==> ops[a].ret != ops[b].call
  }

  /** An earlier return time always gives an earlier position; the converse needs the absence of ties. */
  lemma PrecedesByTime<I, O>(ops: seq<Operation<I, O>>, entries: seq<Entry<I, O>>, a: nat, b: nat)
    requires TimeSorted(ops, entries) && Proper(ops) && a < |ops| && b < |ops|
    ensures WellFormed(entries) && |entries| / 2 == |ops|
    ensures ops[a].ret < ops[b].call ==> Precedes(entries, a, b)
    ensures Precedes(entries, a, b) ==> ops[a].ret <= ops[b].call
  {
    SortedWellFormed(ops, entries);
    var perm :| SortedBy(ops, entries, perm);
    assert entries[ReturnAt(entries, a)].time == ops[a].ret && entries[CallAt(entries, b)].time == ops[b].call;
  }

  lemma {:induction false} RunIsExec<S, I, O>(m: Model<S, I, O>, ops: seq<Operation<I, O>>, entries: seq<Entry<I, O>>, order: seq<nat>)
    requires TimeSorted(ops, entries) && Proper(ops) && Indexes(ops, order)
    ensures WellFormed(entries) && Ids(entries, order)
    ensures Run(m, entries, order) == Exec(m, ops, m.init, order)
  {
    SortedWellFormed(ops, entries);
    if order != [] {
      var shorter, last := order[..|order| - 1], order[|order| - 1];
      RunIsExec(m, ops, entries, shorter);
      assert order == shorter + [last];
      ExecSnoc(m, ops, m.init, shorter, last);
    }
  }

  /** A linearization of the entry list is one of the timed history; without ties they are the same. */
  lemma EntriesMeanOperations<S, I, O>(m: Model<S, I, O>, ops: seq<Operation<I, O>>, entries: seq<Entry<I, O>>, order: seq<nat>)
    requires TimeSorted(ops, entries) && Proper(ops)
    ensures WellFormed(entries)
    ensures Linearization(m, entries, order) ==> TimedLinearization(m, ops, order)
    ensures NoTies(ops) && TimedLinearization(m, ops, order) ==> Linearization(m, entries, order)
  {
    hide WellFormed, TimeSorted, Precedes, Exec, Run;
    SortedWellFormed(ops, entries);
    if Indexes(ops, order) {
      RunIsExec(m, ops, entries, order);
      forall i, j | 0 <= i < j < |order|
        ensures ops[order[j]].ret < ops[order[i]].call ==> Precedes(entries, order[j], order[i])
        ensures Precedes(entries, order[j], order[i]) ==> ops[order[j]].ret <= ops[order[i]].call
      {
        PrecedesByTime(ops, entries, order[j], order[i]);
      }
    }
  }

  lemma VerdictMeaning<S, I, O>(m: Model<S, I, O>, ops: seq<Operation<I, O>>, entries: seq<Entry<I, O>>)
    requires TimeSorted(ops, entries) && Proper(ops)
    ensures WellFormed(entries)
    ensures Linearizable(m, entries) ==> TimedLinearizable(m, ops)
    ensures NoTies(ops) && TimedLinearizable(m, ops) ==> Linearizable(m, entries)
  {
    SortedWellFormed(ops, entries);
    if order :| Linearization(m, entries, order) {
      EntriesMeanOperations(m, ops, entries, order);
    }
    if NoTies(ops) && TimedLinearizable(m, ops) {
      var order :| TimedLinearization(m, ops, order);
      EntriesMeanOperations(m, ops, entries, order);
    }
  }

  // ----- ties -----

  /** Exchanging two entries of equal time is another outcome of the sort. */
  lemma SwapTied<I, O>(ops: seq<Operation<I, O>>, entries: seq<Entry<I, O>>, p: nat, q: nat)
    requires TimeSorted(ops, entries) && p < q < |entries| && entries[p].time == entries[q].time
    ensures TimeSorted(ops, entries[p := entries[q]][q := entries[p]])
  {
    var perm :| SortedBy(ops, entries, perm);
    var swapped := entries[p := entries[q]][q := entries[p]];
    var perm' := perm[p := perm[q]][q := perm[p]];
    forall j, k | 0 <= j < k < |swapped|
      ensures swapped[j].time <= swapped[k].time && perm'[j] != perm'[k]
    {
      assert swapped[j].time == entries[j].time && swapped[k].time == entries[k].time;
    }
    assert SortedBy(ops, swapped, perm');
  }

  /** When a returns exactly when b is called, some outcome of the sort reads that as "a before b". */
  lemma TieReadAsPrecedence<I, O>(ops: seq<Operation<I, O>>, entries: seq<Entry<I, O>>, a: nat, b: nat) returns (other: seq<Entry<I, O>>)
    requires TimeSorted(ops, entries) && Proper(ops) && a < |ops| && b < |ops| && a != b && ops[a].ret == ops[b].call
    ensures TimeSorted(ops, other) && WellFormed(other) && |other| / 2 == |ops| && Precedes(other, a, b)
  {
    SortedWellFormed(ops, entries);
    other := entries;
    if !Precedes(entries, a, b) {
      var p, q := CallAt(entries, b), ReturnAt(entries, a);
      assert entries[p] == RawEntry(ops, 2 * b) && entries[q] == RawEntry(ops, 2 * a + 1);
      SwapTied(ops, entries, p, q);
      other := entries[p := entries[q]][q := entries[p]];
      SortedWellFormed(ops, other);
      assert ReturnOf(other, p, a) && CallOf(other, q, b);
      assert ReturnAt(other, a) == p && CallAt(other, b) == q;
    }
  }

  /** In this outcome of the sort, a's return stands before b's call. */
  ghost predicate ReadsBefore<I, O>(ops: seq<Operation<I, O>>, entries: seq<Entry<I, O>>, a: nat, b: nat) {
    && TimeSorted(ops, entries) && WellFormed(entries) && |entries| / 2 == |ops|
    && a < |ops| && b < |ops| && Precedes(entries, a, b)
  }

  /** The order the checker enforces is the order of the times, however ties come out, exactly when
      no operation returns at the very time another one is called. */
  lemma ExactWithoutTies<I(!new), O(!new)>(ops: seq<Operation<I, O>>, entries: seq<Entry<I, O>>)
    requires TimeSorted(ops, entries) && Proper(ops)
    ensures NoTies(ops)
       <==> forall other, a: nat, b: nat :: ReadsBefore(ops, other, a, b) && a != b ==> ops[a].ret < ops[b].call
  {
    forall other, a: nat, b: nat | ReadsBefore(ops, other, a, b) && a != b
      ensures NoTies(ops) ==> ops[a].ret < ops[b].call
    {
      PrecedesByTime(ops, other, a, b);
    }
    forall a: nat, b: nat | a < |ops| && b < |ops| && a != b && ops[a].ret == ops[b].call
      ensures exists other :: ReadsBefore(ops, other, a, b)
    {
      var other := TieReadAsPrecedence(ops, entries, a, b);
      assert ReadsBefore(ops, other, a, b);
    }
  }

  // ----- operations that do not take time -----

  /** When an operation does not return after its call, some outcome of the sort puts its return first. */
  lemma ImproperSort<I, O>(ops: seq<Operation<I, O>>, entries: seq<Entry<I, O>>, i: nat) returns (other: seq<Entry<I, O>>)
    requires TimeSorted(ops, entries) && i < |ops| && ops[i].call >= ops[i].ret
    ensures TimeSorted(ops, other) && !WellFormed(other)
  {
    var perm :| SortedBy(ops, entries, perm);
    var c := PermutationCovers(perm, 2 * |ops|, 2 * i);
    var r := PermutationCovers(perm, 2 * |ops|, 2 * i + 1);
    other := entries;
    if c < r {
      SwapTied(ops, entries, c, r);
      other := entries[c := entries[r]][r := entries[c]];
      assert other[c].Return? && other[c].id == other[r].id;
    } else {
      assert other[r].Return? && other[r].id == other[c].id;
    }
  }

  /** Every outcome of the sort is well formed exactly when every operation returns after its call. */
  lemma WellFormedIffProper<I(!new), O(!new)>(ops: seq<Operation<I, O>>, entries: seq<Entry<I, O>>)
    requires TimeSorted(ops, entries)
    ensures Proper(ops) <==> forall other :: TimeSorted(ops, other) ==> WellFormed(other)
  {
    if Proper(ops) {
      forall other | TimeSorted(ops, other)
        ensures WellFormed(other)
      {
        SortedWellFormed(ops, other);
      }
    } else {
      var i :| 0 <= i < |ops| && ops[i].call >= ops[i].ret;
      var other := ImproperSort(ops, entries, i);
    }
  }
}
