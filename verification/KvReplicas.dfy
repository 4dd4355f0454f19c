/** The replicated service as a whole: whatever mixture of deliveries the replicas
    receive, those that have applied the same index hold the same database. */
module KvReplicas {
  import opened Raft
  import opened RaftCluster
  import opened RaftCommit
  import opened RaftServer
  import opened Compaction
  import opened KvCommands
  import opened KvStore

  /** The commands a server has committed. */
  ghost function CommandsOf(s: Server): (commands: seq<Command>)
    requires s.commitIndex < |s.log|
    ensures |commands| == s.commitIndex
  {
    seq(s.commitIndex, k requires 0 <= k < s.commitIndex => s.log[k + 1].command)
  }

  lemma {:induction false} LegalConcat(log: seq<Command>, last: nat, a: seq<ApplyMsg>, b: seq<ApplyMsg>)
    requires Legal(log, last, a) && Legal(log, End(last, a), b)
    ensures Legal(log, last, a + b) && End(last, a + b) == if b == [] then End(last, a) else End(last, b)
    decreases |a|
  {
    if a == [] {
      assert a + b == b;
    } else {
      assert (a + b)[1..] == a[1..] + b;
      LegalConcat(log, Position(a[0]), a[1..], b);
    }
  }

  lemma {:induction false} CopiesLegal(log: seq<Command>, last: nat, m: ApplyMsg, copies: nat)
    requires m.Committed? && Continues(log, last, m)
    ensures var msgs := seq(copies, _ => m); Legal(log, last, msgs) && (copies > 0 ==> End(last, msgs) == m.index)
    decreases copies
  {
    if copies > 0 {
      var msgs := seq(copies, _ => m);
      assert msgs[1..] == seq(copies - 1, _ => m);
      CopiesLegal(log, m.index, m, copies - 1);
    }
  }

  /** What a peer sends for the entries it commits, each once or each twice, is a legal delivery of the log. */
  lemma {:induction false} DeliveriesLegal(log: seq<Command>, s: Server, low: nat, high: nat, copies: nat)
    requires s.snapshotIndex <= low && (low < high ==> high <= LastIndex(s)) && high <= |log| && copies > 0
    requires forall k: nat :: low < k <= high ==> InLog(s, k) && EntryAt(s, k).command == log[k - 1]
    ensures Legal(log, low, Deliveries(s, low, high, copies))
    ensures End(low, Deliveries(s, low, high, copies)) == if low < high then high else low
    decreases high
  {
    if low < high {
      DeliveriesLegal(log, s, low, high - 1, copies);
      assert InLog(s, high) && EntryAt(s, high).command == log[high - 1];
      var m := Committed(log[high - 1], high);
      CopiesLegal(log, high - 1, m, copies);
      LegalConcat(log, low, Deliveries(s, low, high - 1, copies), seq(copies, _ => m));
    }
  }

  /** Each entry is sent that many times. */
  lemma {:induction false} DeliveriesCount(s: Server, low: nat, high: nat, copies: nat)
    requires s.snapshotIndex <= low <= high && (low < high ==> high <= LastIndex(s))
    ensures |Deliveries(s, low, high, copies)| == copies * (high - low)
    decreases high
  {
    if low < high {
      DeliveriesCount(s, low, high - 1, copies);
      assert copies * (high - low) == copies * (high - 1 - low) + copies;
    }
  }

  /** One server's committed commands are a prefix of another's, whenever they are looked at. */
  lemma CommittedPrefixes(run: seq<Cluster>, i: nat, j: nat, a: nat, b: nat)
    requires Run(run, true) && i < |run| && j < |run|
    requires a < |run[i].servers| && b < |run[j].servers| && run[i].servers[a].commitIndex <= run[j].servers[b].commitIndex
    ensures run[i].servers[a].commitIndex < |run[i].servers[a].log| && run[j].servers[b].commitIndex < |run[j].servers[b].log|
    ensures CommandsOf(run[i].servers[a]) <= CommandsOf(run[j].servers[b])
  {
    hide Run;
    var x, y := run[i].servers[a], run[j].servers[b];
    StateMachineSafety(run, i, i, a, a, x.commitIndex);
    StateMachineSafety(run, j, j, b, b, y.commitIndex);
    forall k | 0 <= k < x.commitIndex
      ensures CommandsOf(x)[k] == CommandsOf(y)[k]
    {
      StateMachineSafety(run, i, j, a, b, k + 1);
    }
  }

  /** Replicas agree: two services, of any servers at any moments, that have received legal deliveries of
      what their servers committed and stand at the same index, hold the same database and client table. */
  lemma ReplicasAgree(run: seq<Cluster>, i: nat, j: nat, a: nat, b: nat, received: seq<ApplyMsg>, received': seq<ApplyMsg>)
    requires Run(run, true) && i < |run| && j < |run| && a < |run[i].servers| && b < |run[j].servers|
    requires var x, y := run[i].servers[a], run[j].servers[b];
      && x.commitIndex < |x.log| && Legal(CommandsOf(x), 0, received)
      && y.commitIndex < |y.log| && Legal(CommandsOf(y), 0, received')
    requires End(0, received) == End(0, received')
    ensures ReceiveAll(Service(EMPTY, 0), received) == ReceiveAll(Service(EMPTY, 0), received')
  {
    hide Run, ReceiveAll, Legal;
    var x, y := run[i].servers[a], run[j].servers[b];
    var k := End(0, received);
    assert CommandsOf(x)[..0] == [] == CommandsOf(y)[..0];
    DeliveriesReplay(CommandsOf(x), 0, received);
    DeliveriesReplay(CommandsOf(y), 0, received');
    if x.commitIndex <= y.commitIndex {
      CommittedPrefixes(run, i, j, a, b);
    } else {
      CommittedPrefixes(run, j, i, b, a);
    }
    assert CommandsOf(x)[..k] == CommandsOf(y)[..k];
  }
}
