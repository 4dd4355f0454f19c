/** With an even number of servers the median commits more than counting a majority would.  It is safe all
    the same, since half of the servers meet every majority that can elect. */
module RaftEven {
  import opened Raft
  import opened RaftCluster
  import opened RaftRuns
  import opened KvCommands

  lemma OneOfTwo(matchIndex: seq<nat>)
    requires matchIndex == [1, 0]
    ensures Median(matchIndex) == 1 && !Majority(matchIndex, 1)
  {
    assert Holders(matchIndex, 1) == {0};
    assert Holders(matchIndex, 2) == {};
    assert matchIndex[0] == 1;
    MedianUnique(matchIndex, 1, Median(matchIndex));
  }

  /** A run of two servers: the elected leader submits an entry, its append gets no answer, and the commit
      rule commits what the leader alone holds, where counting would commit nothing. */
  lemma MedianExceedsCountingForEven() returns (run: seq<Cluster>, i: nat)
    ensures Run(run, false) && i == |run| - 2 && |run[i].servers| == |run[i + 1].servers| == 2
    ensures run[i + 1].servers[0] == NoReplyNext(run[i].servers[0]) && run[i].servers[0].role == Leader
    ensures run[i + 1].servers[0].commitIndex == 1 && |run[i + 1].servers[1].log| == 1
    ensures |run[i].servers[0].log| == 2 && CountingCommit(run[i].servers[0], LastIndex(run[i].servers[0])) == 0
  {
    hide Run, Elected, Median, Init;
    var run0 := Begin(2);
    var run1 := Campaign(run0, 0, 1);
    ElectedStands(Last(run0), Last(run1), 0, 1);
    var run2 := Submits(run1, 0, 1, NoOp("x"));
    assert Last(run2).servers[0].matchIndex == [1, 0];
    OneOfTwo([1, 0]);
    run := Extend(run2, LoseAck(0));
    i := |run2| - 1;
    assert run[i] == Last(run2);
  }
}
