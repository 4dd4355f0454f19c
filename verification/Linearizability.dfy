/** Histories, sequential models and linearizability (src/porcupine/model.go and the entry list of
    src/porcupine/checker.go).  A history is a sequence of call and return entries in time order. */
module Linearizability {
  import opened Collections

  /** The fields of porcupine.Model that the checker uses. */
  datatype Model<!S, !I, !O> = Model(init: S, step: (S, I, O) -> (bool, S), equal: (S, S) -> bool)

  datatype Entry<+I, +O> =
    | Call(input: I, id: nat, time: int, clientId: int)
    | Return(output: O, id: nat, time: int, clientId: int)

  /** What the checker's comments demand of a model: Equal is an equivalence that Step respects. */
  ghost predicate Lawful<S(!new), I(!new), O(!new)>(m: Model<S, I, O>) {
    && (forall s :: m.equal(s, s))
    && (forall s, t :: m.equal(s, t) ==> m.equal(t, s))
    && (forall s, t, u :: m.equal(s, t) && m.equal(t, u) ==> m.equal(s, u))
    && (forall s, t, i, o {:trigger m.step(s, i, o), m.step(t, i, o)} ::
          m.equal(s, t) && m.step(s, i, o).0 ==> m.step(t, i, o).0 && m.equal(m.step(s, i, o).1, m.step(t, i, o).1))
  }

  // ----- well-formed histories -----

  ghost predicate CallOf<I, O>(h: seq<Entry<I, O>>, p: nat, id: nat) {
    p < |h| && h[p].Call? && h[p].id == id
  }

  ghost predicate ReturnOf<I, O>(h: seq<Entry<I, O>>, p: nat, id: nat) {
    p < |h| && h[p].Return? && h[p].id == id
  }

  ghost predicate HasBoth<I, O>(h: seq<Entry<I, O>>, id: nat) {
    (exists p: nat :: CallOf(h, p, id)) && (exists p: nat :: ReturnOf(h, p, id))
  }

  /** Ids are 0..n-1 where n is half the length; every id has one call followed by one return. */
  ghost predicate WellFormed<I, O>(h: seq<Entry<I, O>>) {
    && |h| % 2 == 0
    && (forall p :: 0 <= p < |h| ==> h[p].id < |h| / 2)
    && (forall p, q :: 0 <= p < q < |h| && h[p].id == h[q].id ==> h[p].Call? && h[q].Return?)
    && (forall id: nat :: id < |h| / 2 ==> HasBoth(h, id))
  }

  ghost function CallAt<I, O>(h: seq<Entry<I, O>>, id: nat): (p: nat)
    requires WellFormed(h) && id < |h| / 2
    ensures CallOf(h, p, id)
  {
    assert HasBoth(h, id);
    var p: nat :| CallOf(h, p, id);
    p
  }

  ghost function ReturnAt<I, O>(h: seq<Entry<I, O>>, id: nat): (p: nat)
    requires WellFormed(h) && id < |h| / 2
    ensures ReturnOf(h, p, id) && CallAt(h, id) < p
  {
    assert HasBoth(h, id);
    var p: nat :| ReturnOf(h, p, id);
    assert p != CallAt(h, id);
    p
  }

  // ----- running a sequence of operations -----

  ghost predicate Ids<I, O>(h: seq<Entry<I, O>>, order: seq<nat>) {
    forall i :: 0 <= i < |order| ==> order[i] < |h| / 2
  }

  /** The state after performing the operations of `order`, or None when some Step refuses. */
  ghost function Run<S, I, O>(m: Model<S, I, O>, h: seq<Entry<I, O>>, order: seq<nat>): Option<S>
    requires WellFormed(h) && Ids(h, order)
  {
    if order == [] then Some(m.init) else
      var last := order[|order| - 1];
      match Run(m, h, order[..|order| - 1])
      case None => None
      case Some(s) =>
        var (ok, t) := m.step(s, h[CallAt(h, last)].input, h[ReturnAt(h, last)].output);
        if ok then Some(t) else None
  }

  /** The return of a comes before the call of b. */
  ghost predicate Precedes<I, O>(h: seq<Entry<I, O>>, a: nat, b: nat)
    requires WellFormed(h) && a < |h| / 2 && b < |h| / 2
  {
    ReturnAt(h, a) < CallAt(h, b)
  }

  /** No operation is placed after one that it precedes in real time. */
  ghost predicate RespectsRealTime<I, O>(h: seq<Entry<I, O>>, order: seq<nat>)
    requires WellFormed(h) && Ids(h, order)
  {
    forall i, j :: 0 <= i < j < |order| ==> !Precedes(h, order[j], order[i])
  }

  /** Whatever precedes a chosen operation is chosen too. */
  ghost predicate DownwardClosed<I, O>(h: seq<Entry<I, O>>, order: seq<nat>)
    requires WellFormed(h) && Ids(h, order)
  {
    forall i, a: nat :: 0 <= i < |order| && a < |h| / 2 && Precedes(h, a, order[i]) ==> a in order
  }

  ghost predicate PartialLinearization<S, I, O>(m: Model<S, I, O>, h: seq<Entry<I, O>>, order: seq<nat>)
    requires WellFormed(h)
  {
    && Ids(h, order)
    && Distinct(order)
    && Run(m, h, order).Some?
    && RespectsRealTime(h, order)
    && DownwardClosed(h, order)
  }

  /** A legal order of all the operations that respects real time. */
  ghost predicate Linearization<S, I, O>(m: Model<S, I, O>, h: seq<Entry<I, O>>, order: seq<nat>)
    requires WellFormed(h)
  {
    && Ids(h, order)
    && Distinct(order)
    && (forall id: nat :: id < |h| / 2 ==> id in order)
    && Run(m, h, order).Some?
    && RespectsRealTime(h, order)
  }

  ghost predicate Linearizable<S, I, O>(m: Model<S, I, O>, h: seq<Entry<I, O>>)
    requires WellFormed(h)
  {
    exists order :: Linearization(m, h, order)
  }

  // ----- the step-by-step form the search works with -----

  /** c may be performed next once exactly the operations of `done` have been. */
  ghost predicate Enabled<I, O>(h: seq<Entry<I, O>>, done: set<nat>, c: nat)
    requires WellFormed(h)
  {
    && c < |h| / 2
    && c !in done
    && forall a: nat :: a < |h| / 2 && a !in done ==> !Precedes(h, a, c)
  }

  /** Every operation of `order` was enabled when it was performed. */
  ghost predicate Stepwise<I, O>(h: seq<Entry<I, O>>, order: seq<nat>)
    requires WellFormed(h)
  {
    order == [] ||
    var before := order[..|order| - 1];
    Stepwise(h, before) && Enabled(h, Members(before), order[|order| - 1])
  }

  ghost predicate Ordered<I, O>(h: seq<Entry<I, O>>, order: seq<nat>)
    requires WellFormed(h)
  {
    Ids(h, order) && Distinct(order) && RespectsRealTime(h, order) && DownwardClosed(h, order)
  }

  lemma OrderedSnoc<I, O>(h: seq<Entry<I, O>>, order: seq<nat>, c: nat)
    requires WellFormed(h)
    ensures Ordered(h, order + [c]) <==> Ordered(h, order) && Enabled(h, Members(order), c)
  {
    var longer := order + [c];
    assert forall i :: 0 <= i < |order| ==> longer[i] == order[i];
    assert longer[|order|] == c;
    if Ordered(h, longer) {
      forall i, a: nat | 0 <= i < |order| && a < |h| / 2 && Precedes(h, a, order[i])
        ensures a in order
      {
        assert !Precedes(h, longer[|order|], longer[i]);
        assert Precedes(h, a, longer[i]) ==> a in longer;
        assert a in longer ==> a in order || a == c;
      }
      forall a: nat | a < |h| / 2 && a !in Members(order)
        ensures !Precedes(h, a, c)
      {
        assert Precedes(h, a, longer[|order|]) ==> a in longer;
      }
    }
    if Ordered(h, order) && Enabled(h, Members(order), c) {
      forall i, j | 0 <= i < j < |longer|
        ensures longer[i] != longer[j] && !Precedes(h, longer[j], longer[i])
      {
        assert longer[i] in order;
        assert j == |order| && Precedes(h, c, order[i]) ==> c in order;
      }
      forall i, a: nat | 0 <= i < |longer| && a < |h| / 2 && Precedes(h, a, longer[i])
        ensures a in longer
      {
        assert i < |order| ==> a in order;
        assert i == |order| ==> a in Members(order);
      }
    }
  }

  /** Enabling one operation at a time and the global conditions describe the same orders. */
  lemma {:induction false} StepwiseIsOrdered<I, O>(h: seq<Entry<I, O>>, order: seq<nat>)
    requires WellFormed(h)
    ensures Stepwise(h, order) <==> Ordered(h, order)
  {
    if order != [] {
      var before, last := order[..|order| - 1], order[|order| - 1];
      StepwiseIsOrdered(h, before);
      assert order == before + [last];
      OrderedSnoc(h, before, last);
    }
  }

  /** A linearization is a partial linearization of every operation. */
  lemma CompletePartial<S, I, O>(m: Model<S, I, O>, h: seq<Entry<I, O>>, order: seq<nat>)
    requires WellFormed(h)
    ensures Linearization(m, h, order)
       <==> PartialLinearization(m, h, order) && forall id: nat :: id < |h| / 2 ==> id in order
  {
  }
}
