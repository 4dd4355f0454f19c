/** What holds of probes, rollback and the commit rule in every run, whatever the network does. */
module RaftProbes {
  import opened Raft
  import opened RaftCluster
  import opened RaftLogs

  lemma RunServer(run: seq<Cluster>, ordered: bool, i: nat, s: nat)
    requires Run(run, ordered) && i < |run| && s < |run[i].servers|
    ensures ServerOk(run[i].hist, |run[i].servers|, run[i].servers[s], s) && RecordsOk(run[i].hist, |run[i].servers|) && MessagesOk(run[i])
  {
    RunInv(run, ordered, i);
  }

  /** Terms never decrease along a log. */
  lemma LogsMonotone(run: seq<Cluster>, ordered: bool, i: nat, s: nat)
    requires Run(run, ordered) && i < |run| && s < |run[i].servers|
    ensures WellShaped(run[i].servers[s].log) && Monotone(run[i].servers[s].log)
  {
    hide Run, MessagesOk, VoteOk, CandidateOk, LeaderOk;
    RunServer(run, ordered, i, s);
    var h, log := run[i].hist, run[i].servers[s].log;
    forall j, k | 0 <= j <= k < |log|
      ensures log[j].term <= log[k].term
    {
      if j > 0 {
        assert log[j] == h.logs[log[k].term][j];
        assert RecordOk(h, |run[i].servers|, log[k].term);
      }
    }
  }

  /** So the leader's scan for a conflicting term finds that term's last entry, or knows there is none. */
  lemma ScanInRuns(run: seq<Cluster>, ordered: bool, i: nat, s: nat, t: nat, start: nat)
    requires Run(run, ordered) && i < |run| && s < |run[i].servers| && start < |run[i].servers[s].log|
    ensures var log := run[i].servers[s].log; var r := ScanForTerm(log, t, start);
      && (r == -1 <==> forall k :: 0 <= k <= start ==> log[k].term != t)
      && (r != -1 ==> 0 <= r <= start && log[r].term == t && forall k :: r < k <= start ==> log[k].term != t)
  {
    hide Run;
    LogsMonotone(run, ordered, i, s);
    ScanMeaning(run[i].servers[s].log, t, start);
  }

  /** The answer belongs to the latest probe of a term the leader still leads. */
  ghost predicate Current(srv: Server, a: AppendAnswer, termTemp: nat) {
    && srv.role == Leader && srv.startAppend && a.from < |srv.nextIndex| == |srv.matchIndex|
    && srv.currentTerm <= termTemp <= a.args.term && a.reply.term <= srv.currentTerm
    && srv.nextIndex[a.from] + srv.snapshotIndex == a.args.prevLogIndex + 1
  }

  lemma RunAck(run: seq<Cluster>, ordered: bool, i: nat, a: AppendAnswer)
    requires Run(run, ordered) && i < |run| && a in run[i].acks
    ensures AckOk(run[i].hist, |run[i].servers|, a) && a.args.leaderId < |run[i].servers|
  {
    hide Run, ServersOk, RecordsOk;
    RunInv(run, ordered, i);
  }

  /** Fast rollback makes progress: every rejected probe strictly lowers the next index, and keeps it at least 1. */
  lemma RejectedProbeLowers(run: seq<Cluster>, ordered: bool, i: nat, a: AppendAnswer, termTemp: nat)
    requires Run(run, ordered) && i < |run| && a in run[i].acks && a.args.leaderId < |run[i].servers|
    requires Current(run[i].servers[a.args.leaderId], a, termTemp) && !a.reply.success
    ensures var srv := run[i].servers[a.args.leaderId];
      1 <= AppendReplyNext(srv, a.from, termTemp, a.args, a.reply).nextIndex[a.from] < srv.nextIndex[a.from]
  {
    hide Run, CandidateOk, RecordsOk, MessagesOk, RollBack, Median, RetryOk, Origin;
    RunServer(run, ordered, i, a.args.leaderId);
    RunAck(run, ordered, i, a);
    RollBackRange(run[i].hist, |run[i].servers|, run[i].servers[a.args.leaderId], a.args, a.reply);
  }

  /** An accepted append that ends in an entry of its own term leaves the leader's log up to there as a prefix. */
  lemma AcceptedPrefix(h: History, n: nat, srv: Server, a: AppendArgs)
    requires LogOk(h, srv) && PieceOk(h, n, a) && RecordOk(h, n, a.term) && Accepts(srv, a) && a.entries != []
    ensures h.logs[a.term][..LastOf(a) + 1] <= SplicedLog(srv, a)
  {
    SpliceResult(h, n, srv, a);
    if AlreadyHas(srv, a) {
      SameTermSamePrefix(h, srv.log, h.logs[a.term], LastOf(a));
    }
  }

  /** Acceptance of a non-empty probe leaves the follower holding all of the log its sender had when it
      sent it, however late it arrives. */
  lemma AcceptedProbeCopies(run: seq<Cluster>, ordered: bool, i: nat, j: nat, s: nat, to: nat)
    requires Run(run, ordered) && i <= j < |run| && s < |run[i].servers| && to < |run[j].servers| && CanSend(run[i].servers[s], to)
    requires var a, srv := AppendOf(run[i].servers[s], to), run[j].servers[to];
      a.entries != [] && a.term >= srv.currentTerm && Accepts(Recognise(srv, a.term), a) && |srv.log| >= 1
    ensures run[i].servers[s].log <= AppendNext(run[j].servers[to], AppendOf(run[i].servers[s], to)).0.log
  {
    hide Run, VoteOk, CandidateOk, MessagesOk, Origin, RecordsOk, SplicedLog, Accepts, Grows;
    var leader, srv, h, n := run[i].servers[s], run[j].servers[to], run[j].hist, |run[j].servers|;
    var a := AppendOf(leader, to);
    RunServer(run, ordered, i, s);
    RunServer(run, ordered, j, to);
    PieceOfLeader(run[i].hist, |run[i].servers|, leader, s, to);
    RunGrows(run, ordered, i, j);
    PieceGrowsRun(run[i].hist, h, |run[i].servers|, n, a, leader.log);
    AcceptedLog(h, n, srv, a);
    AcceptedPrefix(h, n, Recognise(srv, a.term), a);
  }

  lemma AcceptedLog(h: History, n: nat, srv: Server, a: AppendArgs)
    requires |srv.log| >= 1 && a.term >= srv.currentTerm && Accepts(Recognise(srv, a.term), a) && LogOk(h, srv) && RecordsOk(h, n) && a.term in h.logs
    ensures AppendNext(srv, a).0.log == SplicedLog(Recognise(srv, a.term), a) && LogOk(h, Recognise(srv, a.term)) && RecordOk(h, n, a.term)
  {
    hide Origin;
  }

  lemma PieceGrowsRun(h: History, h': History, m: nat, n: nat, a: AppendArgs, log: Log)
    requires Grows(h, h') && PieceOk(h, m, a) && h.logs[a.term] == log && LastOf(a) == |log| - 1 && RecordsOk(h', n)
    ensures PieceOk(h', n, a) && h'.logs[a.term][..LastOf(a) + 1] == log
  {
    hide Origin;
    assert RecordOk(h', n, a.term);
    assert h.logs[a.term] <= h'.logs[a.term];
  }

  // ----- the commit rule -----

  /** The startAppend gate at work: whatever a leader counts as matched is an entry of its own term. */
  lemma LeaderMatches(h: History, n: nat, srv: Server, s: nat)
    requires ServerOk(h, n, srv, s) && RecordsOk(h, n) && srv.role == Leader
    ensures MatchesCurrentTerm(srv) && srv.matchIndex != [] && srv.snapshotIndex == 0
  {
    hide Origin;
    assert RecordOk(h, n, srv.currentTerm);
  }

  /** The median commits exactly what counting would, unless it lies above the commit index without a majority. */
  ghost predicate RuleAgrees(srv: Server)
    requires srv.matchIndex != [] && |srv.log| >= 1
  {
    && (AdvanceCommit(srv).commitIndex == CountingCommit(srv, LastIndex(srv))
        <==> Median(srv.matchIndex) <= srv.commitIndex || Majority(srv.matchIndex, Median(srv.matchIndex)))
    && (|srv.matchIndex| % 2 == 1 ==> AdvanceCommit(srv).commitIndex == CountingCommit(srv, LastIndex(srv)))
  }

  /** The fast commit rule against the counting rule it replaced: whenever a leader handles an answer, the
      median commits exactly what counting current-term entries would if and only if a majority holds it or
      it commits nothing new, and always when the number of servers is odd. */
  lemma CommitRuleIsCounting(run: seq<Cluster>, ordered: bool, i: nat, a: AppendAnswer, termTemp: nat)
    requires Run(run, ordered) && i < |run| && a in run[i].acks && a.args.leaderId < |run[i].servers| && termTemp <= a.args.term
    requires var srv := run[i].servers[a.args.leaderId];
      && srv.startAppend && a.from < |srv.nextIndex| == |srv.matchIndex|
      && AppendReplyNext(srv, a.from, termTemp, a.args, a.reply).role == Leader
    ensures var srv := run[i].servers[a.args.leaderId];
      var booked := Booked(srv, a.from, termTemp, a.args, a.reply);
      |booked.log| >= 1 && AppendReplyNext(srv, a.from, termTemp, a.args, a.reply) == AdvanceCommit(booked) && RuleAgrees(booked)
  {
    hide Run, VoteOk, CandidateOk, LeaderOk, LogOk, RecordsOk, MessagesOk, RollBack, Median, PieceOk, RetryOk, Booked, CountingCommit;
    var h, n, s := run[i].hist, |run[i].servers|, a.args.leaderId;
    RunServer(run, ordered, i, s);
    RunAck(run, ordered, i, a);
    BookedServer(h, n, run[i].servers[s], s, a, termTemp);
    var booked := Booked(run[i].servers[s], a.from, termTemp, a.args, a.reply);
    LeaderMatches(h, n, booked, s);
    MedianIsCounting(booked);
  }

  /** The same when an append gets no answer. */
  lemma CommitRuleOnSilence(run: seq<Cluster>, ordered: bool, i: nat, s: nat)
    requires Run(run, ordered) && i < |run| && s < |run[i].servers| && run[i].servers[s].role == Leader
    ensures var srv := run[i].servers[s]; srv.matchIndex != [] && |srv.log| >= 1 && RuleAgrees(srv)
  {
    hide Run, VoteOk, CandidateOk, LeaderOk, LogOk, RecordsOk, MessagesOk, Median, CountingCommit;
    RunServer(run, ordered, i, s);
    LeaderMatches(run[i].hist, |run[i].servers|, run[i].servers[s], s);
    MedianIsCounting(run[i].servers[s]);
  }
}
