/** Building runs of two or three servers step by step. */
module RaftRuns {
  import opened Raft
  import opened RaftCluster
  import opened KvCommands

  function Last(run: seq<Cluster>): Cluster
    requires run != []
  {
    run[|run| - 1]
  }

  /** Two or three servers, none of which has taken a snapshot: two votes win an election. */
  ghost predicate Small(c: Cluster) {
    && 2 <= |c.servers| <= 3
    && forall s :: 0 <= s < |c.servers| ==>
         Sized(c.servers[s], s, |c.servers|) && c.servers[s].snapshotIndex == 0 == c.servers[s].snapshotTerm
  }

  ghost predicate Both(c: Cluster, s: nat, v: nat) {
    Small(c) && s < |c.servers| && v < |c.servers| && s != v
  }

  /** A run, in any order of delivery, that continues an earlier one. */
  ghost predicate Continues(run: seq<Cluster>, run': seq<Cluster>) {
    run != [] && run <= run' && Run(run', false)
  }

  lemma Extend(run: seq<Cluster>, step: Step) returns (run': seq<Cluster>)
    requires run != [] && Run(run, false) && Enabled(Last(run), step)
    ensures run' == run + [Apply(Last(run), step)] && Continues(run, run') && Last(run') == Apply(Last(run), step)
  {
    hide Apply, Enabled, Init;
    run' := run + [Apply(Last(run), step)];
    forall i | 0 <= i < |run'| - 1
      ensures Next(run'[i], run'[i + 1], false)
    {
      if i < |run| - 1 {
        assert run'[i] == run[i] && run'[i + 1] == run[i + 1];
        assert Next(run[i], run[i + 1], false);
      }
    }
  }

  // ----- elections -----

  /** Server s has been elected in its next term with the vote of v. */
  ghost predicate Elected(c: Cluster, c': Cluster, s: nat, v: nat)
    requires Both(c, s, v)
  {
    var t := c.servers[s].currentTerm + 1;
    && |c'.servers| == |c.servers|
    && c'.servers == c.servers[s := BecomeLeaderNext(c.servers[s].(currentTerm := t, votedFor := s, role := Candidate, voteCount := 2))]
                              [v := c.servers[v].(currentTerm := t, votedFor := s, role := Follower)]
    && c'.appends == c.appends && c'.acks == c.acks
  }

  lemma Asks(run: seq<Cluster>, s: nat, v: nat) returns (run': seq<Cluster>)
    requires run != [] && Run(run, false) && Both(Last(run), s, v)
    ensures Continues(run, run')
    ensures var c, c', t := Last(run), Last(run'), Last(run).servers[s].currentTerm + 1;
      && c'.servers == c.servers[s := StartElectionNext(c.servers[s])]
      && VoteMsg(v, VoteRequestOf(c.servers[s], t)) in c'.requests
      && c'.appends == c.appends && c'.acks == c.acks && Tally(c'.hist, s) == {s} && Voted(c'.hist, s, t) == s
  {
    hide Run, Init;
    var t := Last(run).servers[s].currentTerm + 1;
    var run1 := Extend(run, Timeout(s));
    run' := Extend(run1, SendVote(s, t, v));
  }

  lemma Grants(run: seq<Cluster>, s: nat, v: nat, m: VoteMsg) returns (run': seq<Cluster>)
    requires run != [] && Run(run, false) && Both(Last(run), s, v) && m in Last(run).requests && m.to == v
    requires m.args.candidateId == s && m.args.term == Last(run).servers[s].currentTerm > Last(run).servers[v].currentTerm
    requires UpToDate(Last(run).servers[v], m.args) && Tally(Last(run).hist, s) == {s}
    ensures Continues(run, run')
    ensures var c, c', t := Last(run), Last(run'), m.args.term;
      && c'.servers == c.servers[v := c.servers[v].(currentTerm := t, votedFor := s, role := Follower)]
                                [s := c.servers[s].(voteCount := c.servers[s].voteCount + 1)]
      && c'.appends == c.appends && c'.acks == c.acks
  {
    hide Run, Init;
    var run1 := Extend(run, DeliverVote(m));
    var reply := VoteReply(Last(run).servers[v].currentTerm, true);
    var a := VoteAnswer(v, m.args, reply);
    assert Last(run1).servers[v] == Last(run).servers[v].(currentTerm := m.args.term, votedFor := s, role := Follower);
    run' := Extend(run1, DeliverVoteAnswer(a));
  }

  lemma Campaign(run: seq<Cluster>, s: nat, v: nat) returns (run': seq<Cluster>)
    requires run != [] && Run(run, false) && Both(Last(run), s, v)
    requires Last(run).servers[v].currentTerm <= Last(run).servers[s].currentTerm
    requires UpToDate(Last(run).servers[v], VoteRequestOf(Last(run).servers[s], Last(run).servers[s].currentTerm + 1))
    ensures Continues(run, run') && Elected(Last(run), Last(run'), s, v) && Small(Last(run'))
  {
    hide Run, Init, Apply, UpToDate;
    var c, t := Last(run), Last(run).servers[s].currentTerm + 1;
    var run1 := Asks(run, s, v);
    var run2 := Grants(run1, s, v, VoteMsg(v, VoteRequestOf(c.servers[s], t)));
    run' := Elects(run2, s);
  }

  lemma Elects(run: seq<Cluster>, s: nat) returns (run': seq<Cluster>)
    requires run != [] && Run(run, false) && Small(Last(run)) && s < |Last(run).servers| && Wins(Last(run).servers[s], |Last(run).servers|)
    ensures Continues(run, run') && Small(Last(run'))
    ensures var c, c' := Last(run), Last(run');
      c'.servers == c.servers[s := BecomeLeaderNext(c.servers[s])] && c'.appends == c.appends && c'.acks == c.acks
  {
    hide Run, Init;
    run' := Extend(run, Elect(s));
  }

  // ----- replication -----

  /** Leader s has just been elected, or at least has not moved its next index for `to`, which agrees with
      it up to the end of its log and has at most one more entry. */
  ghost predicate CanCopy(c: Cluster, s: nat, to: nat) {
    Both(c, s, to) &&
    var a, b := c.servers[s], c.servers[to];
    && a.role == Leader && a.nextIndex[to] == |a.log| && a.commitIndex <= b.commitIndex && b.currentTerm <= a.currentTerm
    && |a.log| <= |b.log| <= |a.log| + 1 && b.log[0] == PLACEHOLDER
    && (|a.log| > 1 ==> b.log[|a.log| - 1].term == a.log[|a.log| - 1].term)
  }

  /** Servers other than a and b are as they were. */
  ghost predicate OthersAs(c: Cluster, c': Cluster, a: nat, b: nat) {
    |c'.servers| == |c.servers| && forall x :: 0 <= x < |c.servers| && x != a && x != b ==> c'.servers[x] == c.servers[x]
  }

  ghost function Entry(c: Cluster, s: nat, command: Command): LogEntry
    requires Small(c) && s < |c.servers|
  {
    LogEntry(command, c.servers[s].currentTerm)
  }

  ghost function CopyArgs(c: Cluster, s: nat, command: Command): AppendArgs
    requires Small(c) && s < |c.servers|
  {
    var a := c.servers[s];
    AppendArgs(a.currentTerm, s, |a.log| - 1, if |a.log| == 1 then 0 else a.log[|a.log| - 1].term, [Entry(c, s, command)], a.commitIndex)
  }

  lemma Submits(run: seq<Cluster>, s: nat, to: nat, command: Command) returns (run': seq<Cluster>)
    requires run != [] && Run(run, false) && CanCopy(Last(run), s, to)
    ensures Continues(run, run')
    ensures var c, c' := Last(run), Last(run');
      && c'.servers == c.servers[s := StartNext(c.servers[s], command)] && c.appends <= c'.appends && c'.acks == c.acks
      && exists stamp :: AppendMsg(to, CopyArgs(c, s, command), stamp) in c'.appends
  {
    hide Run, Init;
    var run1 := Extend(run, Submit(s, command));
    run' := Extend(run1, SendAppend(s, to));
    assert AppendOf(Last(run1).servers[s], to) == CopyArgs(Last(run), s, command);
    assert AppendMsg(to, CopyArgs(Last(run), s, command), Last(run1).hist.clock) in Last(run').appends;
  }

  /** What the follower makes of the copy. */
  lemma CopyAccepted(b: Server, a: AppendArgs)
    requires |b.log| >= 1 && b.log[0] == PLACEHOLDER && b.snapshotIndex == 0 && a.term >= b.currentTerm && |a.entries| == 1
    requires a.prevLogIndex + 1 <= |b.log| <= a.prevLogIndex + 2 && a.leaderCommit <= b.commitIndex
    requires a.prevLogIndex > 0 ==> b.log[a.prevLogIndex].term == a.prevLogTerm
    ensures var (b', reply) := AppendNext(b, a);
      && b'.log == b.log[..a.prevLogIndex + 1] + a.entries && b'.currentTerm == a.term && b'.commitIndex == b.commitIndex
      && Sized(b, b.me, |b.nextIndex|) == Sized(b', b.me, |b.nextIndex|) && b'.snapshotIndex == 0 && b'.snapshotTerm == b.snapshotTerm
      && reply == AppendReply(b.currentTerm, true, false, 0, 0, 0)
  {
  }

  /** Leader s submits a command and copies it to `to`. */
  lemma Copies(run: seq<Cluster>, s: nat, to: nat, command: Command) returns (run': seq<Cluster>)
    requires run != [] && Run(run, false) && CanCopy(Last(run), s, to)
    ensures Continues(run, run') && Small(Last(run'))
    ensures var c, c' := Last(run), Last(run');
      && OthersAs(c, c', s, to) && c'.servers[s] == StartNext(c.servers[s], command) && c.appends <= c'.appends
      && c'.servers[to].log == c.servers[to].log[..|c.servers[s].log|] + [Entry(c, s, command)]
      && c'.servers[to].currentTerm == c.servers[s].currentTerm && c'.servers[to].commitIndex == c.servers[to].commitIndex
      && AppendAnswer(to, CopyArgs(c, s, command), AppendReply(c.servers[to].currentTerm, true, false, 0, 0, 0)) in c'.acks
  {
    hide Run, Init, AppendNext;
    var c := Last(run);
    var run1 := Submits(run, s, to, command);
    var stamp :| AppendMsg(to, CopyArgs(c, s, command), stamp) in Last(run1).appends;
    CopyAccepted(c.servers[to], CopyArgs(c, s, command));
    run' := Extend(run1, DeliverAppend(AppendMsg(to, CopyArgs(c, s, command), stamp)));
  }

  // ----- starting, and where servers stand -----

  ghost predicate Stands(srv: Server, term: nat, log: Log, commit: nat) {
    srv.currentTerm == term && srv.log == log && srv.commitIndex == commit
  }

  /** Newly elected, a leader will probe everyone at the end of its log. */
  ghost predicate NewLeader(srv: Server) {
    && srv.role == Leader && !srv.startAppend
    && forall j :: 0 <= j < |srv.nextIndex| == |srv.matchIndex| ==> srv.nextIndex[j] == |srv.log| && srv.matchIndex[j] == 0
  }

  lemma Begin(n: nat) returns (run: seq<Cluster>)
    requires 2 <= n <= 3
    ensures run != [] && Run(run, false) && |run[0].servers| == |Last(run).servers| == n && Small(Last(run))
    ensures forall s :: 0 <= s < n ==> Stands(Last(run).servers[s], 0, [PLACEHOLDER], 0)
  {
    var c := Cluster(seq(n, s requires 0 <= s < n => Fresh(s, n)), {}, {}, {}, {},
                     History(map[], map[], map[], map[], map[], map[], map[], map[], map[], 0));
    run := [c];
    assert Init(c);
  }

  lemma ElectedStands(c: Cluster, c': Cluster, s: nat, v: nat)
    requires Both(c, s, v) && Elected(c, c', s, v)
    ensures |c'.servers| == |c.servers|
    ensures Stands(c'.servers[s], c.servers[s].currentTerm + 1, c.servers[s].log, c.servers[s].commitIndex) && NewLeader(c'.servers[s])
    ensures Stands(c'.servers[v], c.servers[s].currentTerm + 1, c.servers[v].log, c.servers[v].commitIndex)
    ensures OthersAs(c, c', s, v) && c'.appends == c.appends
  {
  }

  lemma Beats(run: seq<Cluster>, s: nat, to: nat) returns (run': seq<Cluster>)
    requires run != [] && Run(run, false) && Both(Last(run), s, to) && CanSend(Last(run).servers[s], to)
    ensures Continues(run, run') && Small(Last(run')) && Last(run').servers == Last(run).servers
    ensures exists stamp :: AppendMsg(to, AppendOf(Last(run).servers[s], to), stamp) in Last(run').appends
  {
    hide Run, Init;
    run' := Extend(run, SendAppend(s, to));
    assert AppendMsg(to, AppendOf(Last(run).servers[s], to), Last(run).hist.clock) in Last(run').appends;
  }
}
