/** checkOperations of src/porcupine/checker.go on the key/value model: partition, sort each part
    into an entry list, check every part, and combine the verdicts as checkParallel does; and
    checkEvents on any model that leaves events in one part. */
module CheckHistory {
  import opened Collections
  import opened Linearizability
  import opened Operations
  import opened Events
  import opened KvModel
  import opened KvMeaning
  import opened Strings
  import Checker

  datatype CheckResult = Ok | Illegal

  lemma PartProper(h: seq<KvOperation>, k: string)
    requires Proper(h)
    ensures Proper(ByKey(h, k))
  {
    ByKeyPositions(h, k);
  }

  /** No operation returns at the very time another one on the same key is called. */
  ghost predicate NoTiesPerKey(h: seq<KvOperation>) {
    forall k :: NoTies(ByKey(h, k))
  }

  /** The verdict on a whole key/value history.  Ok is always right; Illegal is right whenever no
      operation returns at the very time another one on the same key is called. */
  method CheckOperations(h: seq<KvOperation>) returns (result: CheckResult)
    requires Proper(h) && h != []
    ensures result == Ok ==> KvLinearizable(h)
    ensures NoTiesPerKey(h) ==> (result == Ok <==> KvLinearizable(h))
  {
    hide Proper, NoTies, TimedLinearizable, KvLinearizable, Lawful, StrictlySorted, KeyUsed, ByKey, TimeSorted, WellFormed, Linearizable,
      Checker.AllPartial, Checker.AllOptimal;
    var parts := Partition(h);
    ghost var keys :| PartitionedBy(h, parts, keys);
    OneKeyLawful();
    ProperIsSane(h);
    PartitionLocality(h, keys);
    LinearizableMeans(h);
    var ok := true;
    for i := 0 to |parts|
      invariant ok ==> forall j :: 0 <= j < i ==> TimedLinearizable(OneKey(), ByKey(h, keys[j]))
      invariant NoTiesPerKey(h) && !ok ==> exists j :: 0 <= j < i && !TimedLinearizable(OneKey(), ByKey(h, keys[j]))
    {
      PartProper(h, keys[i]);
      var entries := MakeEntries(parts[i]);
      VerdictMeaning(OneKey(), parts[i], entries);
      var answer, _ := Checker.CheckSingle(OneKey(), entries, false, _ => false);
      ok := ok && answer;
    }
    result := if ok then Ok else Illegal;
  }

  /** The verdict on a history of events, checked as one part: exact, whatever ids the events use. */
  method CheckEvents<S(!new), I(!new), O(!new)>(m: Model<S, I, O>, events: seq<Event<I, O>>) returns (result: CheckResult)
    requires Lawful(m) && Paired(events)
    ensures result == Ok <==> EventsLinearizable(m, events)
  {
    hide Lawful, Paired, Linearizable, EventsLinearizable, WellFormed, Renumbered, Converted, Renders, Checker.AllPartial, Checker.AllOptimal;
    var renumbered := Renumber(events);
    ghost var count: nat :| Renumbered(events, renumbered, count);
    RenumberedIds(events, renumbered, count);
    var entries := ConvertEntries(renumbered);
    EventsWellFormed(events, renumbered, count, entries);
    ConvertedRenders(events, renumbered, count, entries);
    SameVerdict(m, events, entries);
    var answer, _ := Checker.CheckSingle(m, entries, false, _ => false);
    result := if answer then Ok else Illegal;
  }

  lemma RenumberedIds<I, O>(events: seq<Event<I, O>>, renumbered: seq<Event<I, O>>, count: nat)
    requires Renumbered(events, renumbered, count)
    ensures forall i :: 0 <= i < |renumbered| ==> renumbered[i].id >= 0
  {
  }

  lemma ProperIsSane(h: seq<KvOperation>)
    requires Proper(h)
    ensures Sane(h)
  {
  }

  /** The tie that a sort may turn into a precedence: a put that returns at the time a get is called.
      The get may still take effect first, yet one outcome of the sort makes the checker demand otherwise. */
  lemma TieCanBeRejected() returns (h: seq<KvOperation>, entries: seq<Entry<KvInput, KvOutput>>)
    ensures Proper(h) && !NoTies(h) && TimedLinearizable(OneKey(), h)
    ensures TimeSorted(h, entries) && WellFormed(entries) && !Linearizable(OneKey(), entries)
  {
    var put := Operation(0, KvInput(1, "k", "1"), 0, KvOutput(""), 5);
    var get := Operation(1, KvInput(0, "k", ""), 5, KvOutput(""), 6);
    h := [put, get];
    assert h[0].ret == h[1].call;
    assert TimedLinearization(OneKey(), h, [1, 0]) by {
      assert [1, 0][1..] == [0];
      assert [0][1..] == [];
      assert Exec(OneKey(), h, "1", []) == Some("1");
      assert Exec(OneKey(), h, "", [0]) == Some("1");
    }
    entries := [RawEntry(h, 0), RawEntry(h, 1), RawEntry(h, 2), RawEntry(h, 3)];
    assert SortedBy(h, entries, [0, 1, 2, 3]);
    SortedWellFormed(h, entries);
    forall order | Linearization(OneKey(), entries, order)
      ensures false
    {
      RejectedOrder(h, entries, order);
    }
  }

  lemma RejectedOrder(h: seq<KvOperation>, entries: seq<Entry<KvInput, KvOutput>>, order: seq<nat>)
    requires h == [Operation(0, KvInput(1, "k", "1"), 0, KvOutput(""), 5), Operation(1, KvInput(0, "k", ""), 5, KvOutput(""), 6)]
    requires entries == [RawEntry(h, 0), RawEntry(h, 1), RawEntry(h, 2), RawEntry(h, 3)]
    requires TimeSorted(h, entries) && Proper(h) && WellFormed(entries)
    ensures !Linearization(OneKey(), entries, order)
  {
    SortedWellFormed(h, entries);
    assert Precedes(entries, 0, 1);
    assert [0, 1][1..] == [1];
    assert Exec(OneKey(), h, "1", [1]) == None;
    assert Exec(OneKey(), h, "", [0, 1]) == None;
    RunIsExec(OneKey(), h, entries, [0, 1]);
    if Ids(entries, order) && Distinct(order) && 0 in order && 1 in order && RespectsRealTime(entries, order) {
      PutFirst(entries, order);
    }
  }

  lemma PutFirst(entries: seq<Entry<KvInput, KvOutput>>, order: seq<nat>)
    requires WellFormed(entries) && |entries| == 4 && Ids(entries, order) && Distinct(order) && 0 in order && 1 in order
    requires RespectsRealTime(entries, order) && Precedes(entries, 0, 1)
    ensures order == [0, 1]
  {
    var i :| 0 <= i < |order| && order[i] == 0;
    var j :| 0 <= j < |order| && order[j] == 1;
    assert !(j < i);
    MembersCardinality(order);
    SubsetCardinality(Members(order), Below(2));
  }
}
