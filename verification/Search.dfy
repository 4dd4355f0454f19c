/** The mathematics of the backtracking search of src/porcupine/checker.go: what a depth-first
    exploration with pruning keeps true, and why exhausting it decides linearizability. */
module Search {
  import opened Collections
  import opened Linearizability

  /** The orders the search can have on its stack. */
  ghost predicate Reached<S, I, O>(m: Model<S, I, O>, h: seq<Entry<I, O>>, order: seq<nat>)
    requires WellFormed(h)
  {
    Stepwise(h, order) && Ids(h, order) && Run(m, h, order).Some?
  }

  lemma ReachedIsPartial<S, I, O>(m: Model<S, I, O>, h: seq<Entry<I, O>>, order: seq<nat>)
    requires WellFormed(h)
    ensures Reached(m, h, order) <==> PartialLinearization(m, h, order)
  {
    StepwiseIsOrdered(h, order);
  }

  lemma ReachedSnoc<S, I, O>(m: Model<S, I, O>, h: seq<Entry<I, O>>, order: seq<nat>, c: nat)
    requires WellFormed(h)
    ensures Reached(m, h, order + [c])
       <==> Reached(m, h, order) && Enabled(h, Members(order), c) && Run(m, h, order + [c]).Some?
    ensures Members(order + [c]) == Members(order) + {c}
  {
    var longer := order + [c];
    assert longer[..|order|] == order && longer[|order|] == c;
    assert forall i :: 0 <= i < |order| ==> longer[i] == order[i];
  }

  lemma ReachedShorter<S, I, O>(m: Model<S, I, O>, h: seq<Entry<I, O>>, order: seq<nat>)
    requires WellFormed(h) && Reached(m, h, order) && order != []
    ensures Reached(m, h, order[..|order| - 1])
    ensures Enabled(h, Members(order[..|order| - 1]), order[|order| - 1])
  {
  }

  /** Same set of operations done, indistinguishable states: what the cache identifies. */
  ghost predicate SameConfiguration<S, I, O>(m: Model<S, I, O>, h: seq<Entry<I, O>>, a: seq<nat>, b: seq<nat>)
    requires WellFormed(h)
  {
    && Reached(m, h, a)
    && Reached(m, h, b)
    && Members(a) == Members(b)
    && m.equal(Run(m, h, a).value, Run(m, h, b).value)
  }

  ghost predicate Covered<S, I, O>(m: Model<S, I, O>, h: seq<Entry<I, O>>, explored: set<seq<nat>>, order: seq<nat>)
    requires WellFormed(h)
  {
    exists e :: e in explored && SameConfiguration(m, h, e, order)
  }

  /** Every possible continuation of `order` whose call lies before `limit` has been covered. */
  ghost predicate Expanded<S, I, O>(m: Model<S, I, O>, h: seq<Entry<I, O>>, explored: set<seq<nat>>,
                                    order: seq<nat>, limit: nat)
    requires WellFormed(h)
  {
    forall c: nat :: Reached(m, h, order + [c]) && CallAt(h, c) < limit ==> Covered(m, h, explored, order + [c])
  }

  /** Stacks the search has left for good are fully expanded. */
  ghost predicate LeftExpanded<S, I, O>(m: Model<S, I, O>, h: seq<Entry<I, O>>, explored: set<seq<nat>>, order: seq<nat>)
    requires WellFormed(h)
  {
    forall e :: e in explored && !(e <= order) ==> Expanded(m, h, explored, e, |h|)
  }

  /** Stacks below the current one are expanded up to the call that was pushed on them. */
  ghost predicate PathExpanded<S, I, O>(m: Model<S, I, O>, h: seq<Entry<I, O>>, explored: set<seq<nat>>, order: seq<nat>)
    requires WellFormed(h) && Ids(h, order)
  {
    order == [] ||
    var before, last := order[..|order| - 1], order[|order| - 1];
    && order in explored
    && Expanded(m, h, explored, before, CallAt(h, last) + 1)
    && PathExpanded(m, h, explored, before)
  }

  ghost predicate AllReached<S, I, O>(m: Model<S, I, O>, h: seq<Entry<I, O>>, explored: set<seq<nat>>)
    requires WellFormed(h)
  {
    forall e :: e in explored ==> e != [] && Reached(m, h, e)
  }

  /** What holds whenever the search stands at list position `limit` with `order` on its stack. */
  ghost predicate Explored<S, I, O>(m: Model<S, I, O>, h: seq<Entry<I, O>>, explored: set<seq<nat>>,
                                    order: seq<nat>, limit: nat)
    requires WellFormed(h)
  {
    && AllReached(m, h, explored)
    && Reached(m, h, order)
    && LeftExpanded(m, h, explored, order)
    && PathExpanded(m, h, explored, order)
    && Expanded(m, h, explored, order, limit)
  }

  lemma CoveredMonotone<S, I, O>(m: Model<S, I, O>, h: seq<Entry<I, O>>, explored: set<seq<nat>>, more: set<seq<nat>>,
                                 order: seq<nat>, limit: nat)
    requires WellFormed(h) && explored <= more && Expanded(m, h, explored, order, limit)
    ensures Expanded(m, h, more, order, limit)
  {
    forall c: nat | Reached(m, h, order + [c]) && CallAt(h, c) < limit
      ensures Covered(m, h, more, order + [c])
    {
      var e :| e in explored && SameConfiguration(m, h, e, order + [c]);
      assert e in more;
    }
  }

  lemma ExploredInit<S, I, O>(m: Model<S, I, O>, h: seq<Entry<I, O>>)
    requires WellFormed(h)
    ensures Explored(m, h, {}, [], 0)
  {
  }

  lemma PushLeft<S, I, O>(m: Model<S, I, O>, h: seq<Entry<I, O>>, explored: set<seq<nat>>, order: seq<nat>, c: nat)
    requires WellFormed(h) && LeftExpanded(m, h, explored, order)
    ensures LeftExpanded(m, h, explored + {order + [c]}, order + [c])
  {
    forall e | e in explored + {order + [c]} && !(e <= order + [c])
      ensures Expanded(m, h, explored + {order + [c]}, e, |h|)
    {
      assert e <= order ==> e <= order + [c];
      CoveredMonotone(m, h, explored, explored + {order + [c]}, e, |h|);
    }
  }

  lemma {:induction false} PathMonotone<S, I, O>(m: Model<S, I, O>, h: seq<Entry<I, O>>, explored: set<seq<nat>>,
                                                 more: set<seq<nat>>, order: seq<nat>)
    requires WellFormed(h) && Ids(h, order) && explored <= more && PathExpanded(m, h, explored, order)
    ensures PathExpanded(m, h, more, order)
  {
    if order != [] {
      var before, last := order[..|order| - 1], order[|order| - 1];
      CoveredMonotone(m, h, explored, more, before, CallAt(h, last) + 1);
      PathMonotone(m, h, explored, more, before);
    }
  }

  /** Pushing the call at the current position. */
  lemma ExploredPush<S(!new), I(!new), O(!new)>(m: Model<S, I, O>, h: seq<Entry<I, O>>, explored: set<seq<nat>>,
                                                order: seq<nat>, c: nat)
    requires WellFormed(h) && Lawful(m) && c < |h| / 2
    requires Reached(m, h, order + [c]) && Explored(m, h, explored, order, CallAt(h, c))
    ensures Explored(m, h, explored + {order + [c]}, order + [c], 0)
  {
    var deeper, more := order + [c], explored + {order + [c]};
    assert deeper[..|order|] == order && deeper[|order|] == c;
    PushLeft(m, h, explored, order, c);
    PathMonotone(m, h, explored, more, order);
    CoveredMonotone(m, h, explored, more, order, CallAt(h, c));
    PassedOver(m, h, more, order, c);
  }

  /** Moving past the call of c when c cannot be performed, or leads nowhere new. */
  lemma PassedOver<S(!new), I(!new), O(!new)>(m: Model<S, I, O>, h: seq<Entry<I, O>>, explored: set<seq<nat>>,
                                              order: seq<nat>, c: nat)
    requires WellFormed(h) && Lawful(m) && c < |h| / 2 && Expanded(m, h, explored, order, CallAt(h, c))
    requires Reached(m, h, order + [c]) ==> Covered(m, h, explored, order + [c]) || order + [c] in explored
    ensures Expanded(m, h, explored, order, CallAt(h, c) + 1)
  {
    forall d: nat | Reached(m, h, order + [d]) && CallAt(h, d) < CallAt(h, c) + 1
      ensures Covered(m, h, explored, order + [d])
    {
      assert (order + [d])[|order|] == d;
      if CallAt(h, d) == CallAt(h, c) {
        assert d == c;
        assert order + [c] in explored ==> SameConfiguration(m, h, order + [c], order + [c]);
      }
    }
  }

  /** Positions between `limit` and `next` that hold no call of an operation still to be done. */
  ghost predicate NoLiveCall<I, O>(h: seq<Entry<I, O>>, order: seq<nat>, limit: nat, next: nat)
    requires WellFormed(h)
  {
    forall c: nat :: c < |h| / 2 && c !in Members(order) && CallAt(h, c) < next ==> CallAt(h, c) < limit
  }

  lemma ExpandedFurther<S, I, O>(m: Model<S, I, O>, h: seq<Entry<I, O>>, explored: set<seq<nat>>,
                                 order: seq<nat>, limit: nat, next: nat)
    requires WellFormed(h) && Expanded(m, h, explored, order, limit) && NoLiveCall(h, order, limit, next)
    ensures Expanded(m, h, explored, order, next)
  {
    forall c: nat | Reached(m, h, order + [c]) && CallAt(h, c) < next
      ensures Covered(m, h, explored, order + [c])
    {
      ReachedSnoc(m, h, order, c);
    }
  }

  /** At the return of an unfinished operation nothing later can be enabled. */
  lemma ExpandedAtReturn<S, I, O>(m: Model<S, I, O>, h: seq<Entry<I, O>>, explored: set<seq<nat>>,
                                  order: seq<nat>, a: nat)
    requires WellFormed(h) && a < |h| / 2 && a !in Members(order)
    requires Expanded(m, h, explored, order, ReturnAt(h, a))
    ensures Expanded(m, h, explored, order, |h|)
  {
    forall c: nat | Reached(m, h, order + [c]) && CallAt(h, c) < |h|
      ensures Covered(m, h, explored, order + [c])
    {
      ReachedSnoc(m, h, order, c);
      assert !Precedes(h, a, c);
      assert h[CallAt(h, c)].Call? && h[ReturnAt(h, a)].Return?;
    }
  }

  lemma PopLeft<S, I, O>(m: Model<S, I, O>, h: seq<Entry<I, O>>, explored: set<seq<nat>>, order: seq<nat>)
    requires WellFormed(h) && order != []
    requires LeftExpanded(m, h, explored, order) && Expanded(m, h, explored, order, |h|)
    ensures LeftExpanded(m, h, explored, order[..|order| - 1])
  {
    var shallower := order[..|order| - 1];
    forall e | e in explored && !(e <= shallower)
      ensures Expanded(m, h, explored, e, |h|)
    {
      assert e <= order && |e| < |order| ==> e <= shallower;
      assert e <= order && |e| == |order| ==> e == order;
    }
  }

  /** Backtracking from the return of an unfinished operation. */
  lemma ExploredPop<S, I, O>(m: Model<S, I, O>, h: seq<Entry<I, O>>, explored: set<seq<nat>>,
                             order: seq<nat>, a: nat)
    requires WellFormed(h) && order != [] && a < |h| / 2 && a !in Members(order)
    requires Explored(m, h, explored, order, ReturnAt(h, a))
    ensures order[|order| - 1] < |h| / 2
    ensures Explored(m, h, explored, order[..|order| - 1], CallAt(h, order[|order| - 1]) + 1)
  {
    ReachedShorter(m, h, order);
    ExpandedAtReturn(m, h, explored, order, a);
    PopLeft(m, h, explored, order);
  }

  // ----- exhausting the search -----

  /** When the search gives up at the root, every partial linearization shares its set of
      operations, and an indistinguishable state, with an explored stack. */
  lemma {:induction false} ExhaustedCovers<S(!new), I(!new), O(!new)>(m: Model<S, I, O>, h: seq<Entry<I, O>>,
                                                 explored: set<seq<nat>>, a: nat, order: seq<nat>)
    requires WellFormed(h) && Lawful(m) && a < |h| / 2
    requires Explored(m, h, explored, [], ReturnAt(h, a))
    requires Reached(m, h, order) && order != []
    ensures Covered(m, h, explored, order)
  {
    var last := order[|order| - 1];
    var shorter := order[..|order| - 1];
    assert order == shorter + [last];
    ReachedSnoc(m, h, shorter, last);
    var like: seq<nat>;
    if shorter == [] {
      like := [];
      assert a !in Members([]);
      ExpandedAtReturn(m, h, explored, [], a);
    } else {
      ExhaustedCovers(m, h, explored, a, shorter);
      like :| like in explored && SameConfiguration(m, h, like, shorter);
      assert Expanded(m, h, explored, like, |h|);
    }
    ExtendAlike(m, h, like, shorter, last);
    var e :| e in explored && SameConfiguration(m, h, e, like + [last]);
    assert SameConfiguration(m, h, e, order);
  }

  /** Indistinguishable configurations have indistinguishable continuations. */
  lemma ExtendAlike<S(!new), I(!new), O(!new)>(m: Model<S, I, O>, h: seq<Entry<I, O>>, a: seq<nat>, b: seq<nat>, c: nat)
    requires WellFormed(h) && Lawful(m) && Reached(m, h, a) && Reached(m, h, b)
    requires Members(a) == Members(b) && m.equal(Run(m, h, a).value, Run(m, h, b).value)
    requires Reached(m, h, b + [c])
    ensures SameConfiguration(m, h, a + [c], b + [c])
  {
    ReachedSnoc(m, h, b, c);
    assert (a + [c])[..|a|] == a && (b + [c])[..|b|] == b;
    assert Ids(h, a + [c]);
    var s, t := Run(m, h, a).value, Run(m, h, b).value;
    var input, output := h[CallAt(h, c)].input, h[ReturnAt(h, c)].output;
    assert m.equal(t, s);
    assert m.step(t, input, output).0 && m.step(s, input, output).0;
    ReachedSnoc(m, h, a, c);
  }

  // ----- finiteness -----

  lemma ReachedDistinct<S, I, O>(m: Model<S, I, O>, h: seq<Entry<I, O>>, order: seq<nat>)
    requires WellFormed(h) && Reached(m, h, order)
    ensures Distinct(order) && |Members(order)| == |order| <= |h| / 2
    ensures |order| == |h| / 2 <==> forall id: nat :: id < |h| / 2 ==> id in order
  {
    StepwiseIsOrdered(h, order);
    MembersCardinality(order);
    SubsetCardinality(Members(order), Below(|h| / 2));
    if forall id: nat :: id < |h| / 2 ==> id in order {
      forall id | id in Below(|h| / 2)
        ensures id in Members(order)
      {
        assert id in order;
      }
      assert Members(order) == Below(|h| / 2);
    }
    if |order| == |h| / 2 {
      forall id: nat | id < |h| / 2
        ensures id in order
      {
        assert id in Below(|h| / 2);
      }
    }
  }

  /** All sequences of exactly `length` ids below n. */
  ghost function Sequences(n: nat, length: nat): set<seq<nat>> {
    if length == 0 then {[]} else set s, c: nat | s in Sequences(n, length - 1) && c in Below(n) :: s + [c]
  }

  ghost function SequencesUpTo(n: nat, length: nat): set<seq<nat>> {
    Sequences(n, length) + if length == 0 then {} else SequencesUpTo(n, length - 1)
  }

  lemma {:induction false} InSequences(n: nat, order: seq<nat>)
    requires forall i :: 0 <= i < |order| ==> order[i] < n
    ensures order in Sequences(n, |order|)
  {
    if order != [] {
      var shorter, last := order[..|order| - 1], order[|order| - 1];
      InSequences(n, shorter);
      assert last in Below(n) && shorter + [last] == order;
    }
  }

  lemma {:induction false} InSequencesUpTo(n: nat, order: seq<nat>, length: nat)
    requires (forall i :: 0 <= i < |order| ==> order[i] < n) && |order| <= length
    ensures order in SequencesUpTo(n, length)
  {
    if |order| == length {
      InSequences(n, order);
    } else {
      InSequencesUpTo(n, order, length - 1);
    }
  }

  /** How many stacks remain unexplored: the first component of the termination measure. */
  ghost function Unexplored<I, O>(h: seq<Entry<I, O>>, explored: set<seq<nat>>): nat {
    |SequencesUpTo(|h| / 2, |h| / 2) - explored|
  }

  lemma ExploringShrinks<S, I, O>(m: Model<S, I, O>, h: seq<Entry<I, O>>, explored: set<seq<nat>>, order: seq<nat>)
    requires WellFormed(h) && Reached(m, h, order) && order !in explored
    ensures Unexplored(h, explored + {order}) < Unexplored(h, explored)
  {
    ReachedDistinct(m, h, order);
    InSequencesUpTo(|h| / 2, order, |h| / 2);
    var before := SequencesUpTo(|h| / 2, |h| / 2) - explored;
    assert SequencesUpTo(|h| / 2, |h| / 2) - (explored + {order}) == before - {order};
  }
}
