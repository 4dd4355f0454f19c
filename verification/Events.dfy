/** Histories given as events (src/porcupine/model.go): renumbering arbitrary ids to 0..n-1 and
    converting to entries (src/porcupine/checker.go). */
module Events {
  import opened Collections
  import opened Linearizability

  datatype Event<+I, +O> =
    | CallEvent(clientId: int, input: I, id: int)
    | ReturnEvent(clientId: int, output: O, id: int)

  /** The same event under another id. */
  function WithId<I, O>(e: Event<I, O>, id: int): Event<I, O> {
    match e
    case CallEvent(client, input, _) => CallEvent(client, input, id)
    case ReturnEvent(client, output, _) => ReturnEvent(client, output, id)
  }

  /** `renumbered` is `events` with its ids renamed one-to-one onto 0..count-1. */
  ghost predicate Renumbered<I, O>(events: seq<Event<I, O>>, renumbered: seq<Event<I, O>>, count: nat) {
    && |renumbered| == |events|
    && (forall i :: 0 <= i < |events| ==> 0 <= renumbered[i].id < count && renumbered[i] == WithId(events[i], renumbered[i].id))
    && (forall i, j :: 0 <= i < |events| && 0 <= j < |events| ==>
          (renumbered[i].id == renumbered[j].id <==> events[i].id == events[j].id))
    && (forall id: nat :: id < count ==> IdUsed(renumbered, id))
  }

  ghost predicate IdUsed<I, O>(events: seq<Event<I, O>>, id: int) {
    exists i :: 0 <= i < |events| && events[i].id == id
  }

  /** The renaming under way: id x becomes names[x], first used by event first[names[x]]. */
  ghost predicate Naming<I, O>(events: seq<Event<I, O>>, names: map<int, nat>, first: seq<nat>) {
    && (forall v :: 0 <= v < |first| ==> first[v] < |events| && events[first[v]].id in names && names[events[first[v]].id] == v)
    && (forall x :: x in names ==> names[x] < |first| && events[first[names[x]]].id == x)
    && (forall i :: 0 <= i < |events| ==> events[i].id in names)
  }

  lemma NamingRenumbers<I, O>(events: seq<Event<I, O>>, renumbered: seq<Event<I, O>>, names: map<int, nat>, first: seq<nat>)
    requires Naming(events, names, first) && |renumbered| == |events|
    requires forall i :: 0 <= i < |events| ==> renumbered[i] == WithId(events[i], names[events[i].id])
    ensures Renumbered(events, renumbered, |first|)
  {
    forall id: nat | id < |first|
      ensures IdUsed(renumbered, id)
    {
      assert renumbered[first[id]].id == id;
    }
  }

  method Renumber<I, O>(events: seq<Event<I, O>>) returns (renumbered: seq<Event<I, O>>)
    ensures exists count: nat :: Renumbered(events, renumbered, count)
  {
    renumbered := [];
    var names: map<int, nat> := map[];
    var id: nat := 0;
    ghost var first: seq<nat> := [];
    for i := 0 to |events|
      invariant |renumbered| == i && |first| == id && Naming(events[..i], names, first)
      invariant forall k :: 0 <= k < i ==> renumbered[k] == WithId(events[k], names[events[k].id])
    {
      var v := events[i];
      assert events[..i + 1] == events[..i] + [v];
      if v.id in names {
        renumbered := renumbered + [WithId(v, names[v.id])];
      } else {
        renumbered := renumbered + [WithId(v, id)];
        names := names[v.id := id];
        id := id + 1;
        first := first + [i];
      }
    }
    assert events[..|events|] == events;
    NamingRenumbers(events, renumbered, names, first);
  }

  /** Event number i as an entry, with its index as its time. */
  function ToEntry<I, O>(e: Event<I, O>, i: nat): Entry<I, O>
    requires e.id >= 0
  {
    match e
    case CallEvent(client, input, id) => Call(input, id, i, client)
    case ReturnEvent(client, output, id) => Return(output, id, i, client)
  }

  ghost predicate Converted<I, O>(events: seq<Event<I, O>>, entries: seq<Entry<I, O>>) {
    |entries| == |events| && forall i :: 0 <= i < |events| ==> events[i].id >= 0 && entries[i] == ToEntry(events[i], i)
  }

  method ConvertEntries<I, O>(events: seq<Event<I, O>>) returns (entries: seq<Entry<I, O>>)
    requires forall i :: 0 <= i < |events| ==> events[i].id >= 0
    ensures Converted(events, entries)
  {
    entries := [];
    for i := 0 to |events|
      invariant Converted(events[..i], entries)
    {
      entries := entries + [ToEntry(events[i], i)];
    }
    assert events[..|events|] == events;
  }

  /** Every id has exactly one call, followed by exactly one return. */
  ghost predicate Paired<I, O>(events: seq<Event<I, O>>) {
    && (forall p, q :: 0 <= p < q < |events| && events[p].id == events[q].id ==> events[p].CallEvent? && events[q].ReturnEvent?)
    && (forall p :: 0 <= p < |events| ==> HasPartner(events, p))
  }

  ghost predicate HasPartner<I, O>(events: seq<Event<I, O>>, p: nat)
    requires p < |events|
  {
    exists q :: 0 <= q < |events| && q != p && events[q].id == events[p].id
  }

  function Code<I, O>(e: Entry<I, O>): nat {
    2 * e.id + if e.Call? then 0 else 1
  }

  /** Whatever ids the events used, the entry list the checker works on is well formed. */
  lemma EventsWellFormed<I, O>(events: seq<Event<I, O>>, renumbered: seq<Event<I, O>>, count: nat, entries: seq<Entry<I, O>>)
    requires Paired(events) && Renumbered(events, renumbered, count) && Converted(renumbered, entries)
    ensures WellFormed(entries) && |entries| / 2 == count
  {
    forall id: nat | id < count
      ensures HasBoth(entries, id)
    {
      assert IdUsed(renumbered, id);
      var p :| 0 <= p < |renumbered| && renumbered[p].id == id;
      assert HasPartner(events, p);
      var q :| 0 <= q < |events| && q != p && events[q].id == events[p].id;
      if p < q {
        assert CallOf(entries, p, id) && ReturnOf(entries, q, id);
      } else {
        assert CallOf(entries, q, id) && ReturnOf(entries, p, id);
      }
    }
    forall p, q | 0 <= p < q < |entries| && entries[p].id == entries[q].id
      ensures entries[p].Call? && entries[q].Return?
    {
      assert events[p].id == events[q].id;
    }
    CountEntries(entries, count);
  }

  lemma CountEntries<I, O>(entries: seq<Entry<I, O>>, count: nat)
    requires forall id: nat :: id < count ==> HasBoth(entries, id)
    requires forall p :: 0 <= p < |entries| ==> entries[p].id < count
    requires forall p, q :: 0 <= p < q < |entries| && entries[p].id == entries[q].id ==> entries[p].Call? && entries[q].Return?
    ensures |entries| == 2 * count
  {
    var codes: seq<nat> := seq(|entries|, i requires 0 <= i < |entries| => Code(entries[i]));
    forall i, j | 0 <= i < j < |codes|
      ensures codes[i] != codes[j]
    {
      assert entries[i].id == entries[j].id ==> entries[i].Call? && entries[j].Return?;
    }
    forall x: nat | x < 2 * count
      ensures x in codes
    {
      assert HasBoth(entries, x / 2);
      if x % 2 == 0 {
        var p: nat :| CallOf(entries, p, x / 2);
        assert codes[p] == x;
      } else {
        var p: nat :| ReturnOf(entries, p, x / 2);
        assert codes[p] == x;
      }
    }
    MembersCardinality(codes);
    assert Members(codes) == Below(2 * count);
  }

  // ----- linearizability of events, by the positions of their calls -----

  ghost predicate Calls<I, O>(events: seq<Event<I, O>>, order: seq<nat>) {
    forall i :: 0 <= i < |order| ==> order[i] < |events| && events[order[i]].CallEvent?
  }

  /** Where the call at position p returns. */
  ghost function ReturnPosition<I, O>(events: seq<Event<I, O>>, p: nat): (q: nat)
    requires Paired(events) && p < |events| && events[p].CallEvent?
    ensures p < q < |events| && events[q].ReturnEvent? && events[q].id == events[p].id
  {
    assert HasPartner(events, p);
    var q :| 0 <= q < |events| && q != p && events[q].id == events[p].id;
    q
  }

  /** The state after performing the calls at the positions of `order`, or None when some Step refuses. */
  ghost function EventRun<S, I, O>(m: Model<S, I, O>, events: seq<Event<I, O>>, order: seq<nat>): Option<S>
    requires Paired(events) && Calls(events, order)
  {
    if order == [] then Some(m.init) else
      var last := order[|order| - 1];
      match EventRun(m, events, order[..|order| - 1])
      case None => None
      case Some(s) =>
        var (ok, t) := m.step(s, events[last].input, events[ReturnPosition(events, last)].output);
        if ok then Some(t) else None
  }

  /** A legal order of all the calls in which none is placed after one that was called only after it returned. */
  ghost predicate EventLinearization<S, I, O>(m: Model<S, I, O>, events: seq<Event<I, O>>, order: seq<nat>)
    requires Paired(events)
  {
    && Calls(events, order)
    && Distinct(order)
    && (forall p: nat :: p < |events| && events[p].CallEvent? ==> p in order)
    && EventRun(m, events, order).Some?
    && forall i, j :: 0 <= i < j < |order| ==> order[i] < ReturnPosition(events, order[j])
  }

  ghost predicate EventsLinearizable<S, I, O>(m: Model<S, I, O>, events: seq<Event<I, O>>)
    requires Paired(events)
  {
    exists order :: EventLinearization(m, events, order)
  }

  /** Entry p says what event p says, and ids agree where they agreed. */
  ghost predicate Renders<I, O>(events: seq<Event<I, O>>, entries: seq<Entry<I, O>>) {
    && |entries| == |events|
    && (forall p :: 0 <= p < |events| ==> RendersAt(events[p], entries[p]))
    && (forall p, q :: 0 <= p < |events| && 0 <= q < |events| ==> (entries[p].id == entries[q].id <==> events[p].id == events[q].id))
  }

  ghost predicate RendersAt<I, O>(e: Event<I, O>, entry: Entry<I, O>) {
    if e.CallEvent? then entry.Call? && entry.input == e.input else entry.Return? && entry.output == e.output
  }

  lemma ConvertedRenders<I, O>(events: seq<Event<I, O>>, renumbered: seq<Event<I, O>>, count: nat, entries: seq<Entry<I, O>>)
    requires Renumbered(events, renumbered, count) && Converted(renumbered, entries)
    ensures Renders(events, entries)
  {
    hide IdUsed;
    forall p | 0 <= p < |events|
      ensures RendersAt(events[p], entries[p])
    {
      assert renumbered[p] == WithId(events[p], renumbered[p].id);
    }
  }

  /** The call and the return of an operation stand where its events stand. */
  lemma SamePositions<I, O>(events: seq<Event<I, O>>, entries: seq<Entry<I, O>>, p: nat)
    requires Paired(events) && Renders(events, entries) && WellFormed(entries) && p < |events| && events[p].CallEvent?
    ensures entries[p].id < |entries| / 2 && CallAt(entries, entries[p].id) == p
    ensures ReturnAt(entries, entries[p].id) == ReturnPosition(events, p)
  {
    var id, q := entries[p].id, ReturnPosition(events, p);
    assert RendersAt(events[p], entries[p]) && RendersAt(events[q], entries[q]);
    var c, r := CallAt(entries, id), ReturnAt(entries, id);
    OneOfAKind(entries, p, c);
    OneOfAKind(entries, q, r);
  }

  lemma OneOfAKind<I, O>(entries: seq<Entry<I, O>>, p: nat, q: nat)
    requires WellFormed(entries) && p < |entries| && q < |entries| && entries[p].id == entries[q].id && (entries[p].Call? <==> entries[q].Call?)
    ensures p == q
  {
  }

  ghost function IdsAt<I, O>(entries: seq<Entry<I, O>>, order: seq<nat>): (ids: seq<nat>)
    requires forall i :: 0 <= i < |order| ==> order[i] < |entries|
    ensures |ids| == |order| && forall i :: 0 <= i < |order| ==> ids[i] == entries[order[i]].id
  {
    seq(|order|, i requires 0 <= i < |order| => entries[order[i]].id)
  }

  lemma {:induction false} SameRun<S, I, O>(m: Model<S, I, O>, events: seq<Event<I, O>>, entries: seq<Entry<I, O>>, order: seq<nat>)
    requires Paired(events) && Renders(events, entries) && WellFormed(entries) && Calls(events, order)
    ensures Ids(entries, IdsAt(entries, order)) && Run(m, entries, IdsAt(entries, order)) == EventRun(m, events, order)
    decreases |order|
  {
    hide Paired, WellFormed;
    if order != [] {
      var shorter, last := order[..|order| - 1], order[|order| - 1];
      SameRun(m, events, entries, shorter);
      SamePositions(events, entries, last);
      assert RendersAt(events[last], entries[last]);
      var q := ReturnPosition(events, last);
      assert RendersAt(events[q], entries[q]);
      assert IdsAt(entries, order)[..|order| - 1] == IdsAt(entries, shorter);
    }
  }

  lemma SameOrders<S, I, O>(m: Model<S, I, O>, events: seq<Event<I, O>>, entries: seq<Entry<I, O>>, order: seq<nat>)
    requires Paired(events) && Renders(events, entries) && WellFormed(entries) && Calls(events, order)
    ensures EventLinearization(m, events, order) <==> Linearization(m, entries, IdsAt(entries, order))
  {
    hide Paired, WellFormed;
    var ids := IdsAt(entries, order);
    SameRun(m, events, entries, order);
    forall i | 0 <= i < |order|
      ensures CallAt(entries, ids[i]) == order[i] && ReturnAt(entries, ids[i]) == ReturnPosition(events, order[i])
    {
      SamePositions(events, entries, order[i]);
    }
    SameDistinct(entries, order, ids);
    SameCover(events, entries, order, ids);
    hide Run, EventRun;
    assert RespectsRealTime(entries, ids) <==> forall i, j :: 0 <= i < j < |order| ==> order[i] < ReturnPosition(events, order[j]) by {
      forall i, j | 0 <= i < j < |order|
        ensures !Precedes(entries, ids[j], ids[i]) <==> order[i] < ReturnPosition(events, order[j])
      {
        NotAt(events, order[i], order[j]);
      }
    }
  }

  /** A call and a return never share a position. */
  lemma NotAt<I, O>(events: seq<Event<I, O>>, p: nat, q: nat)
    requires Paired(events) && p < |events| && q < |events| && events[p].CallEvent? && events[q].CallEvent?
    ensures p != ReturnPosition(events, q)
  {
  }

  lemma SameDistinct<I, O>(entries: seq<Entry<I, O>>, order: seq<nat>, ids: seq<nat>)
    requires WellFormed(entries) && |ids| == |order| && Ids(entries, ids)
    requires forall i :: 0 <= i < |order| ==> order[i] < |entries| && ids[i] == entries[order[i]].id && CallAt(entries, ids[i]) == order[i]
    ensures Distinct(order) <==> Distinct(ids)
  {
    hide WellFormed;
  }

  lemma SameCover<I, O>(events: seq<Event<I, O>>, entries: seq<Entry<I, O>>, order: seq<nat>, ids: seq<nat>)
    requires Paired(events) && Renders(events, entries) && WellFormed(entries) && Calls(events, order) && ids == IdsAt(entries, order)
    ensures (forall p: nat :: p < |events| && events[p].CallEvent? ==> p in order) <==> (forall id: nat :: id < |entries| / 2 ==> id in ids)
  {
    hide Paired, WellFormed;
    if forall p: nat :: p < |events| && events[p].CallEvent? ==> p in order {
      forall id: nat | id < |entries| / 2
        ensures id in ids
      {
        var p := CallAt(entries, id);
        assert RendersAt(events[p], entries[p]);
        var i :| 0 <= i < |order| && order[i] == p;
        assert ids[i] == id;
      }
    }
    if forall id: nat :: id < |entries| / 2 ==> id in ids {
      forall p: nat | p < |events| && events[p].CallEvent?
        ensures p in order
      {
        SamePositions(events, entries, p);
        assert entries[p].id in ids;
        var i :| 0 <= i < |ids| && ids[i] == entries[p].id;
        SamePositions(events, entries, order[i]);
      }
    }
  }

  /** The verdict on the entry list is the verdict on the events, whatever ids they used. */
  lemma SameVerdict<S, I, O>(m: Model<S, I, O>, events: seq<Event<I, O>>, entries: seq<Entry<I, O>>)
    requires Paired(events) && Renders(events, entries) && WellFormed(entries)
    ensures EventsLinearizable(m, events) <==> Linearizable(m, entries)
  {
    hide Paired, WellFormed, EventLinearization;
    if order :| EventLinearization(m, events, order) {
      LinearizationCalls(m, events, order);
      SameOrders(m, events, entries, order);
    }
    if ids :| Linearization(m, entries, ids) {
      var order := seq(|ids|, i requires 0 <= i < |ids| => CallAt(entries, ids[i]));
      assert Calls(events, order) by {
        assert forall i :: 0 <= i < |ids| ==> RendersAt(events[order[i]], entries[order[i]]);
      }
      assert IdsAt(entries, order) == ids;
      SameOrders(m, events, entries, order);
    }
  }

  lemma LinearizationCalls<S, I, O>(m: Model<S, I, O>, events: seq<Event<I, O>>, order: seq<nat>)
    requires Paired(events) && EventLinearization(m, events, order)
    ensures Calls(events, order)
  {
  }
}
