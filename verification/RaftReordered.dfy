/** Why state machine safety needs appends delivered in order: a run of three servers, with nothing lost
    or crashed, in which one delayed heartbeat makes a committed entry disappear. */
module RaftReordered {
  import opened Raft
  import opened RaftCluster
  import opened RaftRuns
  import opened KvCommands

  const X := LogEntry(NoOp("x"), 1)
  const Y := LogEntry(NoOp("y"), 3)
  const Z := LogEntry(NoOp("z"), 2)
  const HEARTBEAT := AppendArgs(2, 1, 1, 1, [], 0)

  /** Server 0 leads term 1 and copies x to server 1, which leads term 2 with the vote of server 2. */
  lemma FirstTwoTerms() returns (run: seq<Cluster>)
    ensures run != [] && Run(run, false) && |run[0].servers| == |Last(run).servers| == 3 && Small(Last(run))
    ensures Stands(Last(run).servers[0], 1, [PLACEHOLDER, X], 0) && Stands(Last(run).servers[1], 2, [PLACEHOLDER, X], 0)
    ensures NewLeader(Last(run).servers[1]) && Stands(Last(run).servers[2], 2, [PLACEHOLDER], 0)
  {
    hide Run, Elected;
    var run0 := Begin(3);
    var run1 := Campaign(run0, 0, 1);
    ElectedStands(Last(run0), Last(run1), 0, 1);
    var run2 := Copies(run1, 0, 1, NoOp("x"));
    assert Last(run2).servers[1].log == [PLACEHOLDER, X];
    run := Campaign(run2, 1, 2);
    ElectedStands(Last(run2), Last(run), 1, 2);
  }

  /** Two of three servers hold index 2, and none holds more. */
  lemma TwoOfSmall(matchIndex: seq<nat>)
    requires matchIndex == [2, 2, 0]
    ensures Median(matchIndex) == 2
  {
    assert Holders(matchIndex, 2) == {0, 1};
    assert Holders(matchIndex, 3) == {};
    assert matchIndex[0] == 2;
    MedianUnique(matchIndex, 2, Median(matchIndex));
  }

  lemma Acks(run: seq<Cluster>, ack: AppendAnswer) returns (run': seq<Cluster>)
    requires run != [] && Run(run, false) && |Last(run).servers| == 3 && Small(Last(run)) && ack in Last(run).acks && ack.from == 0 && ack.args.leaderId == 1
    requires ack.reply == AppendReply(1, true, false, 0, 0, 0) && ack.args.term == 2 && ack.args.prevLogIndex == 1 && |ack.args.entries| == 1
    requires var srv := Last(run).servers[1];
      srv.startAppend && srv.currentTerm == 2 && srv.commitIndex == 0 && srv.nextIndex == [2, 2, 2] && srv.matchIndex == [0, 2, 0]
    ensures Continues(run, run') && |Last(run').servers| == 3 && Small(Last(run')) && Last(run').appends == Last(run).appends
    ensures Stands(Last(run').servers[1], 2, Last(run).servers[1].log, 2)
    ensures Last(run').servers[0] == Last(run).servers[0] && Last(run').servers[2] == Last(run).servers[2]
  {
    hide Run, Init, Median, IsMedian;
    TwoOfSmall([2, 2, 0]);
    run' := Extend(run, DeliverAck(ack, 2));
    var srv := Last(run).servers[1];
    assert Booked(srv, 0, 2, ack.args, ack.reply).matchIndex == [2, 2, 0];
  }

  /** Server 1's heartbeat to server 0 is delayed; z is copied to server 0 and committed at server 1. */
  lemma CommitsZ() returns (run: seq<Cluster>)
    ensures run != [] && Run(run, false) && |run[0].servers| == |Last(run).servers| == 3 && Small(Last(run))
    ensures Stands(Last(run).servers[0], 2, [PLACEHOLDER, X, Z], 0) && Stands(Last(run).servers[1], 2, [PLACEHOLDER, X, Z], 2)
    ensures Stands(Last(run).servers[2], 2, [PLACEHOLDER], 0) && exists stamp :: AppendMsg(0, HEARTBEAT, stamp) in Last(run).appends
  {
    hide Run;
    var run0 := FirstTwoTerms();
    var run1 := Beats(run0, 1, 0);
    assert AppendOf(Last(run0).servers[1], 0) == HEARTBEAT;
    var stamp :| AppendMsg(0, HEARTBEAT, stamp) in Last(run1).appends;
    var run2 := Copies(run1, 1, 0, NoOp("z"));
    assert Last(run2).servers[0].log == [PLACEHOLDER, X, Z];
    var srv := Last(run2).servers[1];
    assert srv.nextIndex == [2, 2, 2] && srv.matchIndex == [0, 2, 0];
    run := Acks(run2, AppendAnswer(0, CopyArgs(Last(run1), 1, NoOp("z")), AppendReply(1, true, false, 0, 0, 0)));
    assert AppendMsg(0, HEARTBEAT, stamp) in Last(run).appends;
  }

  /** The heartbeat, arriving late, cuts the entry it knows nothing of. */
  lemma HeartbeatTruncates(b: Server)
    requires b.snapshotIndex == 0 && Stands(b, 2, [PLACEHOLDER, X, Z], 0)
    ensures AppendNext(b, HEARTBEAT).0.log == [PLACEHOLDER, X] && AppendNext(b, HEARTBEAT).0.currentTerm == 2
    ensures AppendNext(b, HEARTBEAT).0.commitIndex == 0 && AppendNext(b, HEARTBEAT).0.snapshotIndex == 0
    ensures var b' := AppendNext(b, HEARTBEAT).0; b'.nextIndex == b.nextIndex && b'.matchIndex == b.matchIndex && b'.me == b.me && b'.snapshotTerm == b.snapshotTerm
  {
  }

  lemma LateBeat(run: seq<Cluster>, m: AppendMsg) returns (run': seq<Cluster>)
    requires run != [] && Run(run, false) && |Last(run).servers| == 3 && Small(Last(run)) && m in Last(run).appends && m.to == 0 && m.args == HEARTBEAT
    requires Stands(Last(run).servers[0], 2, [PLACEHOLDER, X, Z], 0)
    ensures Continues(run, run') && |Last(run').servers| == 3 && Small(Last(run')) && Stands(Last(run').servers[0], 2, [PLACEHOLDER, X], 0)
    ensures Last(run').servers[1] == Last(run).servers[1] && Last(run').servers[2] == Last(run).servers[2]
  {
    hide Run, Init, AppendNext;
    HeartbeatTruncates(Last(run).servers[0]);
    run' := Extend(run, DeliverAppend(m));
  }

  /** The unordered run: server 1 has committed z at index 2; after the late heartbeat server 0 is elected
      without z and replaces it, at an index server 1 has committed. */
  lemma ReorderingLosesCommitted() returns (run: seq<Cluster>, i: nat, j: nat)
    ensures Run(run, false) && i < |run| && j < |run| && |run[0].servers| == |run[i].servers| == |run[j].servers| == 3
    ensures run[i].servers[1].commitIndex == run[j].servers[1].commitIndex == 2 && |run[i].servers[1].log| == |run[j].servers[1].log| == 3
    ensures run[i].servers[1].log[2] == Z && run[j].servers[1].log[2] == Y
  {
    hide Run, Elected;
    var run0 := CommitsZ();
    var stamp :| AppendMsg(0, HEARTBEAT, stamp) in Last(run0).appends;
    var run1 := LateBeat(run0, AppendMsg(0, HEARTBEAT, stamp));
    var run2 := Campaign(run1, 0, 2);
    ElectedStands(Last(run1), Last(run2), 0, 2);
    run := Copies(run2, 0, 1, NoOp("y"));
    assert Last(run).servers[1].log == [PLACEHOLDER, X, Y];
    i, j := |run0| - 1, |run| - 1;
    assert run[i] == Last(run0) && run[0] == run0[0];
  }
}
