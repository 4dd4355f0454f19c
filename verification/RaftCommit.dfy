/** Replication and commitment keep the cluster safe, and so every run is: the rest of the step proofs
    and the state machine safety theorem. */
module RaftCommit {
  import opened Collections
  import opened Raft
  import opened RaftCluster
  import opened RaftLogs
  import opened RaftSafety

  // ----- accepting an append -----

  lemma RecogniseFollows(h: History, srv: Server, s: nat, term: nat)
    requires LogOk(h, srv) && term >= srv.currentTerm && AckedOk(h, srv, s) && FollowsOk(h, srv, s)
    ensures LogOk(h, Recognise(srv, term)) && AckedOk(h, Recognise(srv, term), s) && FollowsOk(h, Recognise(srv, term), s)
  {
    assert term > srv.currentTerm ==> Acked(h, s, term) == 0;
  }

  /** An append delivered in order leaves a prefix of the leader's log that reaches at least its own end. */
  lemma SpliceFollows(h: History, n: nat, srv: Server, s: nat, a: AppendArgs)
    requires LogOk(h, srv) && RecordsOk(h, n) && PieceOk(h, n, a) && Accepts(srv, a) && a.term == srv.currentTerm
    requires FollowsOk(h, srv, s) && Acked(h, s, a.term) <= LastOf(a) && LastOf(a) > 0
    ensures var log := SplicedLog(srv, a);
      && log <= h.logs[a.term] && LastOf(a) < |log| && (LastOf(a) == |log| - 1 || h.elected[a.term] <= LastOf(a))
      && (AlreadyHas(srv, a) || log == h.logs[a.term][..LastOf(a) + 1])
  {
    hide RecordsOk, Origin, SplicedLog;
    RecordFacts(h, n, a.term);
    SpliceResult(h, n, srv, a);
    if AlreadyHas(srv, a) {
      HeldFollows(h, n, srv, s, a);
    }
  }

  /** A server that already has the append's last entry has a prefix of the leader's log. */
  lemma HeldFollows(h: History, n: nat, srv: Server, s: nat, a: AppendArgs)
    requires LogOk(h, srv) && RecordsOk(h, n) && PieceOk(h, n, a) && a.term == srv.currentTerm && FollowsOk(h, srv, s)
    requires AlreadyHas(srv, a) && LastOf(a) > 0
    ensures srv.log <= h.logs[a.term] && h.elected[a.term] <= LastOf(a)
  {
    hide RecordsOk, Origin;
    RecordFacts(h, n, a.term);
    OriginMonotone(h, n, srv.log, |srv.log| - 1, LastOf(a));
  }

  /** Nothing acknowledged of an earlier term, and choosable, is lost. */
  lemma SpliceKeeps(c: Cluster, srv: Server, a: AppendArgs, t: nat, i: nat)
    requires RecordsOk(c.hist, |c.servers|) && CompleteOk(c) && LogOk(c.hist, srv) && PieceOk(c.hist, |c.servers|, a) && Accepts(srv, a)
    requires t < a.term && Choosable(c, t, i) && Has(srv.log, i, t)
    ensures Has(SplicedLog(srv, a), i, t)
  {
    hide RecordsOk, Choosable, PieceOk, Origin;
    var h, n := c.hist, |c.servers|;
    PieceReach(h, n, a);
    RecordFacts(h, n, a.term);
    SpliceResult(h, n, srv, a);
    assert Has(h.logs[a.term], i, t);
  }

  lemma PieceReach(h: History, n: nat, a: AppendArgs)
    requires PieceOk(h, n, a)
    ensures a.term in h.logs && a.term in h.elected && h.elected[a.term] <= LastOf(a) + 1 && LastOf(a) < |h.logs[a.term]|
  {
  }

  /** What was committed stays where it was. */
  lemma SpliceCommits(c: Cluster, srv: Server, s: nat, a: AppendArgs, commit: nat, u: nat, j: nat)
    requires RecordsOk(c.hist, |c.servers|) && CompleteOk(c) && LogOk(c.hist, srv) && PieceOk(c.hist, |c.servers|, a) && Accepts(srv, a)
    requires a.term == srv.currentTerm && FollowsOk(c.hist, srv, s) && Acked(c.hist, s, a.term) <= LastOf(a)
    requires 0 < commit < |srv.log| && Covers(c, u, j, srv.log, a.term, commit)
    ensures commit < |SplicedLog(srv, a)| && SplicedLog(srv, a)[commit].term == srv.log[commit].term
  {
    hide RecordsOk, Chosen, PieceOk;
    var h, n, T := c.hist, |c.servers|, a.term;
    PieceReach(h, n, a);
    RecordFacts(h, n, T);
    SpliceResult(h, n, srv, a);
    ChosenOwn(c, u, j);
    RecordFacts(h, n, u);
    if !AlreadyHas(srv, a) && LastOf(a) > 0 {
      if u < T {
        ChosenChoosable(c, u, j);
        assert Has(h.logs[T], j, u);
        SameTermSamePrefix(h, h.logs[T], h.logs[u], j);
        assert h.logs[T][..j + 1][commit] == h.logs[u][..j + 1][commit];
      } else {
        CommitWithinTerm(h, n, srv, s, a, commit);
      }
    }
  }

  lemma CommitWithinTerm(h: History, n: nat, srv: Server, s: nat, a: AppendArgs, commit: nat)
    requires RecordsOk(h, n) && LogOk(h, srv) && PieceOk(h, n, a) && a.term == srv.currentTerm && FollowsOk(h, srv, s)
    requires Acked(h, s, a.term) <= LastOf(a) && !AlreadyHas(srv, a) && 0 < commit < |srv.log|
    requires commit < |h.logs[a.term]| && h.logs[a.term][commit].term == srv.log[commit].term
    ensures commit <= LastOf(a)
  {
    hide RecordsOk;
    RecordFacts(h, n, a.term);
    OriginMonotone(h, n, srv.log, |srv.log| - 1, commit);
  }

  /** How delivering an append to server s moves the history. */
  ghost predicate AppendRecorded(h: History, h': History, s: nat, a: AppendArgs, confirmed: bool) {
    && h'.logs == h.logs && h'.elected == h.elected && h'.leaders == h.leaders && h'.led == h.led && h'.clock == h.clock
    && (forall g: nat, t: nat :: g != s || t != a.term ==> Acked(h', g, t) == Acked(h, g, t))
    && Acked(h', s, a.term) == if confirmed then Max(Acked(h, s, a.term), LastOf(a)) else Acked(h, s, a.term)
  }

  lemma AppendAdvances(c: Cluster, c': Cluster, m: AppendMsg)
    requires Inv(c) && Enabled(c, DeliverAppend(m)) && c' == Apply(c, DeliverAppend(m)) && Grows(c.hist, c'.hist)
    ensures Advances(c, c') && OthersUntouched(c, c', m.to)
    ensures AppendRecorded(c.hist, c'.hist, m.to, m.args, Confirms(c.servers[m.to], m.args))
  {
    hide Inv, Grows, SplicedLog, Rejection, FollowCommit;
    assert forall g: nat, t: nat :: (g, t) != (m.to, m.args.term) ==> Acked(c'.hist, g, t) == Acked(c.hist, g, t);
    AppendRaises(c.servers[m.to], m.args);
  }

  lemma AppendRaises(srv: Server, a: AppendArgs)
    requires |srv.log| >= 1
    ensures srv.currentTerm <= AppendNext(srv, a).0.currentTerm
  {
  }

  /** Server s, at the append's term, is about to accept it. */
  ghost predicate Ready(c: Cluster, srv: Server, s: nat, a: AppendArgs) {
    && |srv.log| >= 1 && srv.currentTerm == a.term && Accepts(srv, a)
    && RecordsOk(c.hist, |c.servers|) && CompleteOk(c) && LogOk(c.hist, srv) && PieceOk(c.hist, |c.servers|, a)
    && AckedOk(c.hist, srv, s) && FollowsOk(c.hist, srv, s) && KeepsOk(c, srv.log, s)
    && CommitOk(c, srv.log, srv.currentTerm, srv.commitIndex)
    && Acked(c.hist, s, a.term) <= LastOf(a)
  }

  /** What an accepted append does to the log. */
  lemma AppendedLog(c: Cluster, h': History, srv: Server, s: nat, a: AppendArgs)
    requires Ready(c, srv, s, a) && AppendRecorded(c.hist, h', s, a, LastOf(a) > 0)
    ensures var srv' := srv.(log := SplicedLog(srv, a)); AckedOk(h', srv', s) && FollowsOk(h', srv', s)
  {
    hide Origin, RecordsOk, CompleteOk, KeepsOk, CommitOk;
    var h, n := c.hist, |c.servers|;
    if LastOf(a) > 0 {
      SpliceFollows(h, n, srv, s, a);
    }
    assert Acked(h', s, a.term) == LastOf(a);
    PieceReach(h, n, a);
    forall u: nat | Acked(h', s, u) > 0
      ensures u in h'.logs && Acked(h', s, u) < |h'.logs[u]| && u <= a.term
    {
      assert u != a.term ==> Acked(h, s, u) > 0;
    }
  }

  lemma AppendedKeeps(c: Cluster, c': Cluster, srv: Server, s: nat, a: AppendArgs)
    requires Ready(c, srv, s, a) && Advances(c, c') && AppendRecorded(c.hist, c'.hist, s, a, LastOf(a) > 0)
    ensures KeepsOk(c', SplicedLog(srv, a), s)
  {
    hide RecordsOk, Origin, PieceOk, Choosable, Advances, CompleteOk, SplicedLog, Accepts, AckedOk, FollowsOk, CommitOk, LogOk;
    var h, h' := c.hist, c'.hist;
    var log := SplicedLog(srv, a);
    AppendedLog(c, h', srv, s, a);
    forall t: nat, i: nat | Choosable(c', t, i) && Acked(h', s, t) >= i
      ensures Has(log, i, t)
    {
      ChoosablePositive(c', t, i);
      if t == a.term {
        FollowsHas(h', srv.(log := log), s, i);
      } else {
        AckedTerm(h, srv, s, t);
        ChoosableBefore(c, c', t, i);
        assert Has(srv.log, i, t);
        SpliceKeeps(c, srv, a, t, i);
      }
    }
  }

  lemma FollowsHas(h: History, srv: Server, s: nat, i: nat)
    requires |srv.log| >= 1 && FollowsOk(h, srv, s) && Own(h, srv.currentTerm, i) && Acked(h, s, srv.currentTerm) >= i
    ensures Has(srv.log, i, srv.currentTerm)
  {
  }

  lemma AckedTerm(h: History, srv: Server, s: nat, t: nat)
    requires AckedOk(h, srv, s) && Acked(h, s, t) > 0
    ensures t in h.logs && Acked(h, s, t) < |h.logs[t]| && t <= srv.currentTerm
  {
  }

  /** The old commit index stays covered by the new log. */
  lemma AppendedOldCommit(c: Cluster, c': Cluster, srv: Server, s: nat, a: AppendArgs, log: Log)
    requires Ready(c, srv, s, a) && Advances(c, c') && log == SplicedLog(srv, a)
    ensures CommitOk(c', log, a.term, srv.commitIndex)
  {
    hide RecordsOk, Origin, PieceOk, Chosen, Advances, CompleteOk, SplicedLog, Accepts, AckedOk, KeepsOk, FollowsOk, LogOk;
    if srv.commitIndex > 0 {
      var u: nat, j: nat :| Covers(c, u, j, srv.log, srv.currentTerm, srv.commitIndex);
      SpliceCommits(c, srv, s, a, srv.commitIndex, u, j);
      CommitCarries(c, c', srv.log, log, a.term, a.term, srv.commitIndex);
    }
  }

  /** So does the one the leader announces. */
  lemma AppendedNewCommit(c: Cluster, c': Cluster, srv: Server, s: nat, a: AppendArgs, log: Log)
    requires Ready(c, srv, s, a) && Advances(c, c') && log == SplicedLog(srv, a) && PromisesOk(c, a) && a.leaderCommit > 0
    ensures a.leaderCommit < |log| && CommitOk(c', log, a.term, a.leaderCommit)
  {
    hide RecordsOk, Origin, Chosen, Advances, CompleteOk, SplicedLog, Accepts, AckedOk, KeepsOk, FollowsOk, LogOk, CommitOk;
    SpliceFollows(c.hist, |c.servers|, srv, s, a);
    CommitCarries(c, c', c.hist.logs[a.term], log, a.term, a.term, a.leaderCommit);
  }

  lemma AppendedCommit(c: Cluster, c': Cluster, srv: Server, s: nat, a: AppendArgs, next: Server)
    requires Ready(c, srv, s, a) && Advances(c, c') && PromisesOk(c, a) && srv.snapshotIndex == 0
    requires next == FollowCommit(srv.(log := SplicedLog(srv, a)), a.leaderCommit)
    ensures CommitOk(c', next.log, a.term, next.commitIndex)
  {
    hide Ready, Advances, PromisesOk, SplicedLog, CommitOk;
    AppendedOldCommit(c, c', srv, s, a, next.log);
    if a.leaderCommit > srv.commitIndex {
      AppendedNewCommit(c, c', srv, s, a, next.log);
    }
  }

  /** Recognising the sender leaves a server that is ready for what it accepts. */
  lemma RecogniseReady(c: Cluster, s: nat, m: AppendMsg)
    requires Safe(c) && s < |c.servers| && m in c.appends && m.to == s && m.args.term >= c.servers[s].currentTerm
    requires Acked(c.hist, s, m.args.term) <= LastOf(m.args) && Accepts(Recognise(c.servers[s], m.args.term), m.args)
    ensures Ready(c, Recognise(c.servers[s], m.args.term), s, m.args) && PromisesOk(c, m.args)
  {
    hide Safe, RecordsOk, CompleteOk, Origin, KeepsOk, BackedOk, MatchOk, LedOk, VoteOk, CandidateOk, LeaderOk, PieceOk, PromisesOk, Chosen,
      StampsOk, Accepts, RequestOk, AnswerOk, AckOk, BallotOk, DescribesOk;
    SafeServer(c, s);
    SafeParts(c);
    assert AppendOk(c.hist, |c.servers|, m);
    var srv := c.servers[s];
    RecogniseFollows(c.hist, srv, s, m.args.term);
    if srv.commitIndex > 0 {
      var u: nat, j: nat :| Covers(c, u, j, srv.log, srv.currentTerm, srv.commitIndex);
      assert Covers(c, u, j, srv.log, m.args.term, srv.commitIndex);
    }
  }

  lemma AcceptedSafe(c: Cluster, c': Cluster, m: AppendMsg)
    requires Safe(c) && Inv(c') && m in c.appends && m.to < |c.servers| == |c'.servers| && |c.servers[m.to].log| >= 1
    requires Advances(c, c') && AppendRecorded(c.hist, c'.hist, m.to, m.args, LastOf(m.args) > 0)
    requires Acked(c.hist, m.to, m.args.term) <= LastOf(m.args)
    requires m.args.term >= c.servers[m.to].currentTerm && Accepts(Recognise(c.servers[m.to], m.args.term), m.args)
    requires c'.servers[m.to] == AppendNext(c.servers[m.to], m.args).0
    ensures |c'.servers[m.to].log| >= 1 && ServerSafe(c', m.to) && c'.servers[m.to].role == Follower
  {
    hide Safe, Inv, Ready, Advances, PromisesOk, SplicedLog, CommitOk, KeepsOk, AckedOk, FollowsOk, BackedOk, Accepts, Choosable, MatchOk, LedOk,
      AppendNext, FollowCommit, LogOk, VoteOk, CandidateOk, LeaderOk;
    var s, a := m.to, m.args;
    var srv, t := c.servers[s], Recognise(c.servers[s], a.term);
    AcceptedResult(srv, a);
    RecogniseReady(c, s, m);
    SafeServer(c, s);
    NotOwnAppend(c, m);
    AppendedLog(c, c'.hist, t, s, a);
    AppendedKeeps(c, c', t, s, a);
    AppendedCommit(c, c', t, s, a, c'.servers[s]);
    CommitIrrelevant(c'.hist, t.(log := SplicedLog(t, a)), c'.servers[s], s);
    FollowerRest(c, c', srv, c'.servers[s], s);
  }

  lemma AcceptedResult(srv: Server, a: AppendArgs)
    requires |srv.log| >= 1 && a.term >= srv.currentTerm && Accepts(Recognise(srv, a.term), a)
    ensures var t, b := Recognise(srv, a.term), AppendNext(srv, a).0;
      && b == FollowCommit(t.(log := SplicedLog(t, a)), a.leaderCommit)
      && b == t.(log := SplicedLog(t, a), commitIndex := b.commitIndex)
  {
    hide SplicedLog, Accepts;
  }

  /** An append never reaches the leader of its term. */
  lemma NotOwnAppend(c: Cluster, m: AppendMsg)
    requires Safe(c) && m in c.appends && m.to < |c.servers| && m.args.term >= c.servers[m.to].currentTerm
    ensures m.args.term > c.servers[m.to].currentTerm || c.servers[m.to].role != Leader
    ensures Recognise(c.servers[m.to], m.args.term).role == Follower
  {
    hide Safe, ServerSafe, CompleteOk, StampsOk, MessagesSafe, RecordsOk, Origin, RequestOk, AnswerOk, AckOk, VoteOk, CandidateOk;
    SafeServer(c, m.to);
    SafeParts(c);
    assert AppendOk(c.hist, |c.servers|, m);
  }

  lemma CommitIrrelevant(h: History, a: Server, b: Server, s: nat)
    requires |a.log| >= 1 && AckedOk(h, a, s) && FollowsOk(h, a, s) && b == a.(commitIndex := b.commitIndex)
    ensures AckedOk(h, b, s) && FollowsOk(h, b, s)
  {
  }

  /** The conditions on candidates and leaders, for a server that has become a follower. */
  lemma FollowerRest(c: Cluster, c': Cluster, a: Server, b: Server, s: nat)
    requires Advances(c, c') && MatchOk(c.hist, a, s) && LedOk(c.hist, a, s) && SameLed(c.hist, c'.hist, s) && |a.matchIndex| == |c.servers|
    requires b.role == Follower && b.matchIndex == a.matchIndex && b.startAppend == a.startAppend && a.currentTerm <= b.currentTerm
    requires a.role == Leader ==> a.currentTerm < b.currentTerm
    requires c'.hist.leaders == c.hist.leaders
    ensures BackedOk(c', b, s) && MatchOk(c'.hist, b, s) && LedOk(c'.hist, b, s)
  {
    hide Advances, MatchOk;
    MatchCarries(c, c', a, b, s);
  }

  /** An append that is out of date or rejected leaves the log alone. */
  lemma NotAcceptedSafe(c: Cluster, c': Cluster, m: AppendMsg)
    requires Safe(c) && m in c.appends && m.to < |c.servers| == |c'.servers| && |c.servers[m.to].log| >= 1
    requires Advances(c, c') && AppendRecorded(c.hist, c'.hist, m.to, m.args, false) && Tally(c'.hist, m.to) == Tally(c.hist, m.to)
    requires c'.servers[m.to] == AppendNext(c.servers[m.to], m.args).0 && c'.answers == c.answers
    requires m.args.term < c.servers[m.to].currentTerm || !Accepts(Recognise(c.servers[m.to], m.args.term), m.args)
    ensures |c'.servers[m.to].log| >= 1 && ServerSafe(c', m.to) && Campaigns(c.servers[m.to], c'.servers[m.to])
  {
    hide Safe, ServerSafe, ServerOk, Advances, Accepts, Rejection, SplicedLog, BackedOk;
    var s := m.to;
    SafeServer(c, s);
    ServerParts(c, s);
    BackedCarries(c, c', c.servers[s], s);
    if m.args.term >= c.servers[s].currentTerm {
      NotOwnAppend(c, m);
    }
    StepDownBacked(c', c.servers[s], c'.servers[s], s);
    SafeSameLog(c, c', s);
  }

  lemma DeliveredStamps(c: Cluster, c': Cluster, m: AppendMsg, confirmed: bool)
    requires StampsOk(c) && m in c.appends && c'.appends == c.appends
    requires AppendRecorded(c.hist, c'.hist, m.to, m.args, confirmed)
    requires c'.hist.seen == c.hist.seen[(m.to, m.args.term) := Max(Seen(c.hist, m.to, m.args.term), m.stamp + 1)]
    ensures StampsOk(c')
  {
    forall x | x in c'.appends && x.stamp >= Seen(c'.hist, x.to, x.args.term)
      ensures Acked(c'.hist, x.to, x.args.term) <= LastOf(x.args)
    {
      if x.to == m.to && x.args.term == m.args.term {
        assert LastOf(m.args) <= LastOf(x.args);
      } else {
        assert Seen(c'.hist, x.to, x.args.term) == Seen(c.hist, x.to, x.args.term);
      }
    }
  }

  /** An append that has not been overtaken reaches all its receiver has acknowledged. */
  lemma InOrderReaches(c: Cluster, m: AppendMsg)
    requires Safe(c) && m in c.appends && m.to < |c.servers| && InOrder(c, DeliverAppend(m))
    ensures Harmless(c.hist, c.servers[m.to], m)
  {
    hide Safe, Confirms, CompleteOk, MessagesSafe, RecordsOk, MessagesOk;
    SafeParts(c);
  }

  /** An overtaken append that ends where the receiver already agrees, or says nothing, leaves the log alone. */
  lemma HeldResult(h: History, n: nat, srv: Server, s: nat, m: AppendMsg)
    requires LogOk(h, srv) && RecordsOk(h, n) && PieceOk(h, n, m.args) && AckedOk(h, srv, s) && FollowsOk(h, srv, s) && m.to == s
    requires m.args.term >= srv.currentTerm && Accepts(Recognise(srv, m.args.term), m.args) && Harmless(h, srv, m)
    requires Acked(h, s, m.args.term) > LastOf(m.args)
    ensures m.args.term == srv.currentTerm && m.args.term in h.logs && srv.log <= h.logs[m.args.term] && LastOf(m.args) < |srv.log|
    ensures SplicedLog(Recognise(srv, m.args.term), m.args) == srv.log
  {
    hide Origin, RecordsOk, SplicedLog;
    RecordFacts(h, n, m.args.term);
    AckedTerm(h, srv, s, m.args.term);
    SpliceResult(h, n, Recognise(srv, m.args.term), m.args);
  }

  lemma HeldCommit(c: Cluster, c': Cluster, srv: Server, a: AppendArgs, next: Server)
    requires Advances(c, c') && PromisesOk(c, a) && a.term in c.hist.logs && srv.log <= c.hist.logs[a.term] && LastOf(a) < |srv.log|
    requires CommitOk(c, srv.log, srv.currentTerm, srv.commitIndex) && srv.currentTerm == a.term
    requires next.log == srv.log && (next.commitIndex == srv.commitIndex || (next.commitIndex == a.leaderCommit && a.leaderCommit > 0))
    ensures CommitOk(c', next.log, a.term, next.commitIndex)
  {
    hide Advances, Chosen, CommitOk;
    if next.commitIndex == srv.commitIndex {
      CommitCarries(c, c', srv.log, srv.log, a.term, a.term, srv.commitIndex);
    } else {
      CommitCarries(c, c', c.hist.logs[a.term], srv.log, a.term, a.term, a.leaderCommit);
    }
  }

  lemma HeldSafe(c: Cluster, c': Cluster, m: AppendMsg)
    requires Safe(c) && m in c.appends && m.to < |c.servers| == |c'.servers| && |c.servers[m.to].log| >= 1
    requires Advances(c, c') && AppendRecorded(c.hist, c'.hist, m.to, m.args, LastOf(m.args) > 0)
    requires Acked(c.hist, m.to, m.args.term) > LastOf(m.args) && Harmless(c.hist, c.servers[m.to], m)
    requires m.args.term >= c.servers[m.to].currentTerm && Accepts(Recognise(c.servers[m.to], m.args.term), m.args)
    requires c'.servers[m.to] == AppendNext(c.servers[m.to], m.args).0
    ensures |c'.servers[m.to].log| >= 1 && ServerSafe(c', m.to) && c'.servers[m.to].role == Follower
  {
    hide Safe, RecordsOk, Advances, SplicedLog, CommitOk, KeepsOk, AckedOk, FollowsOk, BackedOk, Accepts, Choosable, MatchOk, LedOk, Harmless,
      AppendNext, VoteOk, CandidateOk, LeaderOk, Origin, PieceOk, CompleteOk, StampsOk, RequestOk, AnswerOk, AckOk, BallotOk, DescribesOk;
    var s, a, srv, b := m.to, m.args, c.servers[m.to], c'.servers[m.to];
    SafeServer(c, s);
    SafeParts(c);
    assert AppendOk(c.hist, |c.servers|, m);
    AcceptedResult(srv, a);
    HeldResult(c.hist, |c.servers|, srv, s, m);
    NotOwnAppend(c, m);
    HeldFacts(c.hist, c'.hist, srv, b, s);
    KeepsCarries(c, c', srv, srv.log, s);
    HeldCommit(c, c', srv, a, b);
    FollowerRest(c, c', srv, b, s);
  }

  lemma HeldFacts(h: History, h': History, srv: Server, b: Server, s: nat)
    requires |srv.log| >= 1 && AckedOk(h, srv, s) && FollowsOk(h, srv, s) && SameAcks(h, h', s) && h'.logs == h.logs && h'.elected == h.elected
    requires b.log == srv.log && b.currentTerm == srv.currentTerm
    ensures AckedOk(h', b, s) && FollowsOk(h', b, s)
  {
  }

  lemma DeliveredServer(c: Cluster, c': Cluster, m: AppendMsg)
    requires Safe(c) && Inv(c') && Enabled(c, DeliverAppend(m)) && InOrder(c, DeliverAppend(m)) && c' == Apply(c, DeliverAppend(m))
    requires Advances(c, c') && AppendRecorded(c.hist, c'.hist, m.to, m.args, Confirms(c.servers[m.to], m.args))
    ensures |c'.servers[m.to].log| >= 1 && ServerSafe(c', m.to) && Campaigns(c.servers[m.to], c'.servers[m.to])
  {
    hide Safe, Inv, Advances, ServerSafe, AppendNext, Accepts;
    InOrderReaches(c, m);
    if m.args.term >= c.servers[m.to].currentTerm && Accepts(Recognise(c.servers[m.to], m.args.term), m.args) {
      if Acked(c.hist, m.to, m.args.term) <= LastOf(m.args) {
        AcceptedSafe(c, c', m);
      } else {
        HeldSafe(c, c', m);
      }
    } else {
      NotAcceptedSafe(c, c', m);
    }
  }

  lemma DeliverAppendSafe(c: Cluster, m: AppendMsg)
    requires Safe(c) && Enabled(c, DeliverAppend(m)) && InOrder(c, DeliverAppend(m))
    ensures Safe(Apply(c, DeliverAppend(m)))
  {
    hide Safe, Inv, Grows, ServerSafe, CompleteOk, MessagesSafe, StampsOk, Advances, AppendNext, RecordsOk, MessagesOk, OthersUntouched, Campaigns,
      Confirms;
    var c' := Apply(c, DeliverAppend(m));
    SafeInv(c);
    SafeParts(c);
    DeliverAppendKeeps(c, m);
    StepGrows(c, DeliverAppend(m));
    AppendAdvances(c, c', m);
    DeliveredServer(c, c', m);
    CompleteCarries(c, c');
    DeliveredStamps(c, c', m, Confirms(c.servers[m.to], m.args));
    AckConfirmed(c.servers[m.to], m.to, m.args, c.hist, c'.hist);
    Resettle(c, c', m.to);
  }

  lemma AckConfirmed(srv: Server, s: nat, a: AppendArgs, h: History, h': History)
    requires |srv.log| >= 1 && AppendRecorded(h, h', s, a, Confirms(srv, a))
    ensures ConfirmedOk(h', AppendAnswer(s, a, AppendNext(srv, a).1))
  {
    hide SplicedLog, FollowCommit, Accepts;
  }

  // ----- acknowledgements and the commit rule -----

  lemma AckFacts(c: Cluster, a: AppendAnswer)
    requires Safe(c) && a in c.acks
    ensures AckOk(c.hist, |c.servers|, a) && ConfirmedOk(c.hist, a)
  {
    hide ServersOk, RecordsOk, CompleteOk, StampsOk, ServerSafe, AppendOk, AnswerOk, RequestOk, AckOk, PromisesOk, BallotOk, DescribesOk;
  }

  /** Whoever counts an answer as current still leads the term it belongs to. */
  lemma StillLeads(h: History, n: nat, srv: Server, s: nat, a: AppendArgs)
    requires VoteOk(h, n, srv, s) && LedOk(h, srv, s) && MatchOk(h, srv, s) && srv.startAppend
    requires PieceOk(h, n, a) && a.leaderId == s && a.term >= srv.currentTerm
    ensures a.term == srv.currentTerm && s in h.led && h.led[s] == a.term && srv.role == Leader
  {
  }

  lemma BookedMatch(h: History, n: nat, srv: Server, s: nat, a: AppendAnswer, termTemp: nat)
    requires ServerOk(h, n, srv, s) && LedOk(h, srv, s) && MatchOk(h, srv, s) && srv.startAppend && s < n
    requires AckOk(h, n, a) && ConfirmedOk(h, a) && a.args.leaderId == s && termTemp <= a.args.term
    ensures MatchOk(h, Booked(srv, a.from, termTemp, a.args, a.reply), s)
  {
    hide CandidateOk, Origin, Below, RollBack, RetryOk;
    if termTemp >= srv.currentTerm {
      StillLeads(h, n, srv, s, a.args);
    }
  }

  /** What the median rule commits has been accepted by half of the servers, in the term the server leads or led last. */
  lemma MedianChosen(c: Cluster, srv: Server, s: nat)
    requires Safe(c) && s < |c.servers| == |srv.matchIndex| && MatchOk(c.hist, srv, s) && srv.startAppend && Median(srv.matchIndex) > 0
    ensures s in c.hist.led && Chosen(c, c.hist.led[s], Median(srv.matchIndex)) && Acked(c.hist, s, c.hist.led[s]) >= Median(srv.matchIndex)
  {
    hide Safe, RecordsOk, Median, Origin;
    SafeInv(c);
    SafeParts(c);
    var h, T, m := c.hist, c.hist.led[s], Median(srv.matchIndex);
    var j: nat :| j < |srv.matchIndex| && srv.matchIndex[j] == m;
    AckedBound(c, j, T);
    RecordFacts(h, |c.servers|, T);
    SubsetCardinality(Holders(srv.matchIndex, m), Accepted(c, T, m));
  }

  lemma AckedBound(c: Cluster, g: nat, t: nat)
    requires Safe(c) && g < |c.servers| && Acked(c.hist, g, t) > 0
    ensures t in c.hist.logs && Acked(c.hist, g, t) < |c.hist.logs[t]|
  {
    hide Safe, ServerOk, FollowsOk, KeepsOk, BackedOk, CommitOk, MatchOk, LedOk;
    SafeServer(c, g);
  }

  lemma MedianCommit(c: Cluster, srv: Server, s: nat)
    requires Safe(c) && s < |c.servers| == |srv.matchIndex| && MatchOk(c.hist, srv, s) && srv.startAppend && Median(srv.matchIndex) > 0
    requires KeepsOk(c, srv.log, s)
    ensures CommitOk(c, srv.log, srv.currentTerm, Median(srv.matchIndex))
  {
    hide Safe, Median, Chosen, Choosable, IsMedian;
    MedianChosen(c, srv, s);
    var T, m := c.hist.led[s], Median(srv.matchIndex);
    ChosenChoosable(c, T, m);
    ChosenOwn(c, T, m);
    assert Has(srv.log, m, T);
    assert Covers(c, T, m, srv.log, srv.currentTerm, m);
  }

  /** Keeping its log while its term may rise, a server still follows what it acknowledged. */
  lemma SameLogFollows(h: History, a: Server, b: Server, s: nat)
    requires LogOk(h, a) && AckedOk(h, a, s) && FollowsOk(h, a, s) && b.log == a.log && a.currentTerm <= b.currentTerm
    ensures AckedOk(h, b, s) && FollowsOk(h, b, s)
  {
    assert b.currentTerm > a.currentTerm ==> Acked(h, s, b.currentTerm) == 0;
  }

  /** What answering moves: neither the log nor the history, and the term only upwards. */
  lemma ReplyBasics(n: nat, srv: Server, s: nat, a: AppendAnswer, termTemp: nat)
    requires Sized(srv, s, n) && a.from < n
    ensures var b := AppendReplyNext(srv, a.from, termTemp, a.args, a.reply);
      && b.log == srv.log && b.startAppend == srv.startAppend && srv.currentTerm <= b.currentTerm
      && (b.role == Follower || (b.role == srv.role && b.currentTerm == srv.currentTerm))
      && (b.role == srv.role || b.currentTerm > srv.currentTerm)
      && (srv.startAppend ==> b.matchIndex == Booked(srv, a.from, termTemp, a.args, a.reply).matchIndex)
      && (srv.startAppend ==> |b.matchIndex| == n && b.commitIndex == Max(srv.commitIndex, Median(b.matchIndex)))
      && (!srv.startAppend ==> b == srv)
  {
    hide RollBack, Median;
  }

  lemma RepliedMatch(h: History, n: nat, srv: Server, s: nat, a: AppendAnswer, termTemp: nat)
    requires ServerOk(h, n, srv, s) && LedOk(h, srv, s) && MatchOk(h, srv, s) && s < n
    requires AckOk(h, n, a) && ConfirmedOk(h, a) && a.args.leaderId == s && termTemp <= a.args.term
    ensures MatchOk(h, AppendReplyNext(srv, a.from, termTemp, a.args, a.reply), s)
    ensures LedOk(h, AppendReplyNext(srv, a.from, termTemp, a.args, a.reply), s)
  {
    hide VoteOk, CandidateOk, LeaderOk, LogOk, Below, RollBack, RetryOk, PieceOk, ConfirmedOk, Median, IsMedian;
    if srv.startAppend {
      BookedMatch(h, n, srv, s, a, termTemp);
    }
  }

  lemma RepliedServer(c: Cluster, c': Cluster, s: nat, a: AppendAnswer, termTemp: nat)
    requires Safe(c) && s < |c.servers| == |c'.servers| && a in c.acks && a.args.leaderId == s && termTemp <= a.args.term
    requires Sized(c.servers[s], s, |c.servers|) && a.from < |c.servers|
    requires c'.hist == c.hist && c'.answers == c.answers && Advances(c, c')
    requires c'.servers[s] == AppendReplyNext(c.servers[s], a.from, termTemp, a.args, a.reply)
    ensures |c'.servers[s].log| >= 1 && ServerSafe(c', s) && Campaigns(c.servers[s], c'.servers[s])
  {
    hide Safe, ServerOk, Advances, Median, AppendReplyNext, Booked, AckOk, ConfirmedOk, MatchOk, LedOk, FollowsOk, AckedOk, KeepsOk, CommitOk, BackedOk;
    var srv, b, h, n := c.servers[s], c'.servers[s], c.hist, |c.servers|;
    SafeServer(c, s);
    ServerParts(c, s);
    AckFacts(c, a);
    ReplyBasics(n, srv, s, a, termTemp);
    RepliedMatch(h, n, srv, s, a, termTemp);
    SameLogFollows(h, srv, b, s);
    KeepsCarries(c, c', srv, srv.log, s);
    BackedCarries(c, c', srv, s);
    StepDownBacked(c', srv, b, s);
    if b.commitIndex != srv.commitIndex {
      MedianCommit(c, b, s);
      CommitCarries(c, c', b.log, b.log, b.currentTerm, b.currentTerm, b.commitIndex);
    } else {
      CommitCarries(c, c', srv.log, b.log, srv.currentTerm, b.currentTerm, b.commitIndex);
    }
  }

  lemma DeliverAckSafe(c: Cluster, a: AppendAnswer, termTemp: nat)
    requires Safe(c) && Enabled(c, DeliverAck(a, termTemp))
    ensures Safe(Apply(c, DeliverAck(a, termTemp)))
  {
    hide Safe, Inv, Grows, ServerSafe, CompleteOk, MessagesSafe, StampsOk, Advances, AppendReplyNext, RecordsOk, MessagesOk, Campaigns;
    var c', s := Apply(c, DeliverAck(a, termTemp)), a.args.leaderId;
    SafeInv(c);
    SafeParts(c);
    DeliverAckKeeps(c, a, termTemp);
    StepGrows(c, DeliverAck(a, termTemp));
    ReplyBasics(|c.servers|, c.servers[s], s, a, termTemp);
    ElectAdvances(c, c');
    RepliedServer(c, c', s, a, termTemp);
    CompleteCarries(c, c');
    StampsCarry(c, c');
    Resettle(c, c', s);
  }

  /** Neither the scan for a conflicting term nor the delivery of what is newly committed leaves the log. */
  ghost predicate StaysInLog(srv: Server, a: AppendAnswer, termTemp: nat) {
    && a.from < |srv.nextIndex| == |srv.matchIndex|
    && Median(Booked(srv, a.from, termTemp, a.args, a.reply).matchIndex) <= LastIndex(srv)
    && (Scans(srv, a.from, termTemp, a.args, a.reply) ==> a.args.prevLogIndex - srv.snapshotIndex < |srv.log|)
  }

  /** Handling an answer never indexes past the log. */
  lemma AnswersStayInLog(c: Cluster, a: AppendAnswer, termTemp: nat)
    requires Safe(c) && a in c.acks && a.args.leaderId < |c.servers| && termTemp <= a.args.term
    requires c.servers[a.args.leaderId].startAppend
    ensures StaysInLog(c.servers[a.args.leaderId], a, termTemp)
  {
    hide Safe, Median, CandidateOk, MatchOk, LedOk, FollowsOk, AckedOk, BackedOk, RollBack, Chosen, KeepsOk, Origin, RetryOk, ConfirmedOk, IsMedian;
    var s, h, n := a.args.leaderId, c.hist, |c.servers|;
    var srv := c.servers[s];
    SafeServer(c, s);
    AckFacts(c, a);
    var b := Booked(srv, a.from, termTemp, a.args, a.reply);
    BookedMatch(h, n, srv, s, a, termTemp);
    if Median(b.matchIndex) > 0 {
      MedianCommit(c, b, s);
    }
    if termTemp >= srv.currentTerm {
      StillLeads(h, n, srv, s, a.args);
    }
  }

  /** So it does when no answer comes. */
  lemma SilenceStaysInLog(c: Cluster, s: nat)
    requires Safe(c) && s < |c.servers| && c.servers[s].startAppend
    ensures |c.servers[s].matchIndex| == |c.servers| && Median(c.servers[s].matchIndex) <= LastIndex(c.servers[s])
  {
    hide Safe, Median, CandidateOk, MatchOk, LedOk, FollowsOk, AckedOk, BackedOk, Chosen, KeepsOk, Origin, IsMedian;
    SafeServer(c, s);
    if Median(c.servers[s].matchIndex) > 0 {
      MedianCommit(c, c.servers[s], s);
    }
  }

  lemma SilentServer(c: Cluster, c': Cluster, s: nat)
    requires Safe(c) && s < |c.servers| == |c'.servers| && |c.servers[s].matchIndex| == |c.servers|
    requires c'.hist == c.hist && c'.answers == c.answers && Advances(c, c') && c'.servers[s] == NoReplyNext(c.servers[s])
    ensures |c'.servers[s].log| >= 1 && ServerSafe(c', s) && Campaigns(c.servers[s], c'.servers[s])
  {
    hide Safe, ServerOk, Advances, Median, FollowsOk, AckedOk, KeepsOk, CommitOk, BackedOk;
    var srv, b := c.servers[s], c'.servers[s];
    SafeServer(c, s);
    ServerParts(c, s);
    SameLogFollows(c.hist, srv, b, s);
    KeepsCarries(c, c', srv, srv.log, s);
    BackedCarries(c, c', srv, s);
    StepDownBacked(c', srv, b, s);
    if b.commitIndex != srv.commitIndex {
      MedianCommit(c, srv, s);
      CommitCarries(c, c', b.log, b.log, b.currentTerm, b.currentTerm, b.commitIndex);
    } else {
      CommitCarries(c, c', srv.log, b.log, srv.currentTerm, b.currentTerm, b.commitIndex);
    }
  }

  lemma LoseAckSafe(c: Cluster, s: nat)
    requires Safe(c) && Enabled(c, LoseAck(s))
    ensures Safe(Apply(c, LoseAck(s)))
  {
    hide Safe, Inv, Grows, ServerSafe, CompleteOk, MessagesSafe, StampsOk, Advances, RecordsOk, MessagesOk, Campaigns, Median;
    var c' := Apply(c, LoseAck(s));
    SafeInv(c);
    SafeParts(c);
    LoseAckKeeps(c, s);
    StepGrows(c, LoseAck(s));
    ElectAdvances(c, c');
    SilentServer(c, c', s);
    CompleteCarries(c, c');
    StampsCarry(c, c');
    Resettle(c, c', s);
  }

  // ----- restarts -----

  lemma RestartedServer(c: Cluster, c': Cluster, s: nat)
    requires Safe(c) && s < |c.servers| == |c'.servers| && |c.servers[s].log| >= 1
    requires c'.hist == c.hist && Advances(c, c') && c'.servers[s] == RestartNext(c.servers[s])
    ensures |c'.servers[s].log| >= 1 && ServerSafe(c', s)
  {
    hide Safe, ServerOk, Advances, AckedOk, FollowsOk, KeepsOk;
    SafeServer(c, s);
    ServerParts(c, s);
    SameLogFollows(c.hist, c.servers[s], c'.servers[s], s);
    KeepsCarries(c, c', c.servers[s], c.servers[s].log, s);
  }

  lemma RestartSafe(c: Cluster, s: nat)
    requires Safe(c) && Enabled(c, Restart(s))
    ensures Safe(Apply(c, Restart(s)))
  {
    hide Safe, Inv, Grows, ServerSafe, CompleteOk, MessagesSafe, StampsOk, Advances, RecordsOk, MessagesOk;
    var c' := Apply(c, Restart(s));
    SafeInv(c);
    SafeParts(c);
    RestartKeeps(c, s);
    StepGrows(c, Restart(s));
    ElectAdvances(c, c');
    RestartedServer(c, c', s);
    CompleteCarries(c, c');
    StampsCarry(c, c');
    Resettle(c, c', s);
  }

  // ----- every run -----

  lemma StepSafe(c: Cluster, step: Step)
    requires Safe(c) && Enabled(c, step) && InOrder(c, step)
    ensures Safe(Apply(c, step))
  {
    hide Safe;
    match step
    case Timeout(s) => TimeoutSafe(c, s);
    case SendVote(s, term, to) => SendVoteSafe(c, s, term, to);
    case DeliverVote(m) => DeliverVoteSafe(c, m);
    case DeliverVoteAnswer(a) => DeliverVoteAnswerSafe(c, a);
    case Elect(s) => ElectSafe(c, s);
    case Submit(s, command) => SubmitSafe(c, s, command);
    case SendAppend(s, to) => SendAppendSafe(c, s, to);
    case DeliverAppend(m) => DeliverAppendSafe(c, m);
    case DeliverAck(a, termTemp) => DeliverAckSafe(c, a, termTemp);
    case LoseAck(s) => LoseAckSafe(c, s);
    case Restart(s) => RestartSafe(c, s);
  }

  lemma StepAdvances(c: Cluster, step: Step)
    requires Safe(c) && Enabled(c, step)
    ensures Advances(c, Apply(c, step))
  {
    hide Safe, Inv, Grows, Advances;
    SafeInv(c);
    StepGrows(c, step);
    match step
    case Submit(s, command) => SubmitAdvances(c, Apply(c, step), s, command);
    case DeliverAppend(m) => AppendAdvances(c, Apply(c, step), m);
    case DeliverAck(a, termTemp) =>
      hide AppendReplyNext;
      ReplyBasics(|c.servers|, c.servers[a.args.leaderId], a.args.leaderId, a, termTemp);
      ElectAdvances(c, Apply(c, step));
    case _ => ElectAdvances(c, Apply(c, step));
  }

  lemma InitSafe(c: Cluster)
    requires Init(c)
    ensures Safe(c)
  {
    hide Inv;
    InitInv(c);
    forall s | 0 <= s < |c.servers|
      ensures |c.servers[s].log| >= 1 && ServerSafe(c, s)
    {
      assert c.servers[s] == Fresh(s, |c.servers|);
    }
  }

  lemma AdvancesSelf(c: Cluster)
    ensures Advances(c, c)
  {
  }

  lemma AdvancesTransitive(c: Cluster, c1: Cluster, c2: Cluster)
    requires Advances(c, c1) && Advances(c1, c2)
    ensures Advances(c, c2)
  {
    hide Grows;
    GrowsTransitive(c.hist, c1.hist, c2.hist);
  }

  lemma {:induction false} RunSafe(run: seq<Cluster>, i: nat, j: nat)
    requires Run(run, true) && i <= j < |run|
    ensures Safe(run[i]) && Safe(run[j]) && Advances(run[i], run[j])
    decreases j
  {
    hide Safe, Advances, Apply, Enabled, InOrder;
    if j == 0 {
      InitSafe(run[0]);
      AdvancesSelf(run[0]);
    } else {
      var k := if i < j then i else j - 1;
      RunSafe(run, k, j - 1);
      assert Next(run[j - 1], run[j - 1 + 1], true);
      var step :| Enabled(run[j - 1], step) && InOrder(run[j - 1], step) && run[j] == Apply(run[j - 1], step);
      StepSafe(run[j - 1], step);
      StepAdvances(run[j - 1], step);
      AdvancesTransitive(run[k], run[j - 1], run[j]);
      AdvancesSelf(run[j]);
    }
  }

  // ----- the theorem -----

  /** A committed prefix is a prefix of a log whose first `commit` entries lie within something chosen. */
  lemma CommittedPrefix(c: Cluster, log: Log, t: nat, commit: nat) returns (u: nat, j: nat)
    requires Safe(c) && Origin(c.hist, log) && commit > 0 && CommitOk(c, log, t, commit)
    ensures Chosen(c, u, j) && commit <= j < |c.hist.logs[u]| && commit < |log| && log[..commit + 1] == c.hist.logs[u][..commit + 1]
  {
    hide Safe, Chosen, Origin, RecordsOk;
    SafeParts(c);
    u, j :| Covers(c, u, j, log, t, commit);
    ChosenOwn(c, u, j);
    RecordFacts(c.hist, |c.servers|, u);
    SameTermSamePrefix(c.hist, log, c.hist.logs[u], commit);
  }

  /** What is chosen in one term is in the log of every later leader. */
  lemma ChosenInLater(c: Cluster, u: nat, j: nat, v: nat, k: nat)
    requires Safe(c) && Chosen(c, u, j) && u <= v && v in c.hist.logs && k <= j
    ensures k < |c.hist.logs[u]| && k < |c.hist.logs[v]| && c.hist.logs[u][k] == c.hist.logs[v][k]
  {
    hide Safe, Chosen, Choosable, Origin, RecordsOk, MessagesSafe, StampsOk, MessagesOk;
    SafeParts(c);
    ChosenOwn(c, u, j);
    if u < v {
      ChosenChoosable(c, u, j);
      assert Has(c.hist.logs[v], j, u);
      RecordFacts(c.hist, |c.servers|, u);
      RecordFacts(c.hist, |c.servers|, v);
      SameTermSamePrefix(c.hist, c.hist.logs[u], c.hist.logs[v], j);
      assert c.hist.logs[u][..j + 1][k] == c.hist.logs[v][..j + 1][k];
    }
  }

  lemma CommittedAgree(c: Cluster, a: Log, ta: nat, commitA: nat, b: Log, tb: nat, commitB: nat, k: nat)
    requires Safe(c) && Origin(c.hist, a) && Origin(c.hist, b) && 0 < k <= commitA && k <= commitB
    requires CommitOk(c, a, ta, commitA) && CommitOk(c, b, tb, commitB)
    ensures k < |a| && k < |b| && a[k] == b[k]
  {
    hide Safe, Origin, CommitOk, Chosen;
    var u, i := CommittedPrefix(c, a, ta, commitA);
    var v, j := CommittedPrefix(c, b, tb, commitB);
    ChosenOwn(c, u, i);
    ChosenOwn(c, v, j);
    if u <= v {
      ChosenInLater(c, u, i, v, k);
    } else {
      ChosenInLater(c, v, j, u, k);
    }
    assert a[k] == a[..commitA + 1][k] && b[k] == b[..commitB + 1][k];
    assert c.hist.logs[u][k] == c.hist.logs[u][..commitA + 1][k] && c.hist.logs[v][k] == c.hist.logs[v][..commitB + 1][k];
  }

  /** What a server had committed then is still backed by what is chosen now. */
  lemma CommittedLater(run: seq<Cluster>, i: nat, j: nat, s: nat)
    requires Run(run, true) && i <= j < |run| && s < |run[i].servers|
    ensures var srv := run[i].servers[s];
      Safe(run[j]) && Origin(run[j].hist, srv.log) && CommitOk(run[j], srv.log, srv.currentTerm, srv.commitIndex)
  {
    hide Run, Safe, Advances, VoteOk, CandidateOk, LeaderOk, Origin, AckedOk, FollowsOk, KeepsOk, BackedOk, MatchOk, LedOk, Grows, Chosen;
    RunSafe(run, i, j);
    SafeServer(run[i], s);
    AdvancesGrows(run[i], run[j]);
    var srv := run[i].servers[s];
    OriginGrows(run[i].hist, run[j].hist, srv.log);
    CommitCarries(run[i], run[j], srv.log, srv.log, srv.currentTerm, srv.currentTerm, srv.commitIndex);
  }

  /** State machine safety: in every run of any number of servers in which appends arrive in order, or
      harmlessly late, with messages lost and servers crashing and restarting, no two servers ever hold different
      entries at an index both have committed, even when they are looked at at different moments. */
  lemma StateMachineSafety(run: seq<Cluster>, i: nat, j: nat, a: nat, b: nat, k: nat)
    requires Run(run, true) && i < |run| && j < |run|
    requires a < |run[i].servers| && b < |run[j].servers|
    requires k <= run[i].servers[a].commitIndex && k <= run[j].servers[b].commitIndex
    ensures k < |run[i].servers[a].log| && k < |run[j].servers[b].log|
    ensures run[i].servers[a].log[k] == run[j].servers[b].log[k]
  {
    hide Run, Safe, CommitOk;
    var last := if i <= j then j else i;
    var x, y := run[i].servers[a], run[j].servers[b];
    CommittedLater(run, i, last, a);
    CommittedLater(run, j, last, b);
    if k > 0 {
      CommittedAgree(run[last], x.log, x.currentTerm, x.commitIndex, y.log, y.currentTerm, y.commitIndex, k);
    }
  }

  // ----- an append out of order -----

  /** What a server has committed is in the log of every leader of its term or a later one. */
  lemma CommittedInLeader(c: Cluster, srv: Server, T: nat)
    requires Safe(c) && Origin(c.hist, srv.log) && CommitOk(c, srv.log, srv.currentTerm, srv.commitIndex)
    requires srv.currentTerm <= T && T in c.hist.logs
    ensures srv.commitIndex < |srv.log| && srv.log[..srv.commitIndex + 1] <= c.hist.logs[T]
  {
    hide Safe, Origin, RecordsOk, Chosen;
    var n, log, later := srv.commitIndex, srv.log, c.hist.logs[T];
    SafeParts(c);
    RecordFacts(c.hist, |c.servers|, T);
    if n == 0 {
      PlaceholderFirst(c.hist, log);
      PlaceholderFirst(c.hist, later);
    } else {
      var u: nat, j: nat :| Covers(c, u, j, log, srv.currentTerm, n);
      ChosenOwn(c, u, j);
      RecordFacts(c.hist, |c.servers|, u);
      SameTermSamePrefix(c.hist, log, c.hist.logs[u], n);
      forall k | 0 <= k <= n
        ensures k < |later| && log[k] == later[k]
      {
        ChosenInLater(c, u, j, T, k);
        assert log[..n + 1][k] == c.hist.logs[u][..n + 1][k];
      }
    }
  }

  lemma PlaceholderFirst(h: History, log: Log)
    requires Origin(h, log)
    ensures |log| >= 1 && log[0] == PLACEHOLDER
  {
  }

  /** The append reaches everything committed, or ends at an entry of its own term, or says nothing. */
  predicate SparesCommitted(srv: Server, a: AppendArgs) {
    LastOf(a) == 0 || LastOf(a) >= srv.commitIndex || (LastOf(a) < |srv.log| && srv.log[LastOf(a)].term == a.term)
  }

  /** Exactly when an append, however late it arrives, keeps all that its receiver has acknowledged to the same
      leader: when it is harmless.  This is what every safe run needs of an overtaken append. */
  lemma AcknowledgedKeptIff(c: Cluster, m: AppendMsg)
    requires Safe(c) && m in c.appends && m.to < |c.servers| && |c.servers[m.to].log| >= 1
    requires m.args.term >= c.servers[m.to].currentTerm
    ensures var acked := Acked(c.hist, m.to, m.args.term);
      && m.args.term in c.hist.logs && acked < |c.hist.logs[m.args.term]|
      && (c.hist.logs[m.args.term][..acked + 1] <= AppendNext(c.servers[m.to], m.args).0.log <==> Harmless(c.hist, c.servers[m.to], m))
  {
    hide Safe, Origin, RecordsOk, CompleteOk, MessagesSafe, StampsOk, AppendNext, SplicedLog, FollowCommit, CommitOk, KeepsOk, Accepts,
      BackedOk, MatchOk, LedOk, VoteOk, CandidateOk, LeaderOk, RequestOk, AnswerOk, AckOk, AckedOk, FollowsOk, RecordOk, PieceOk;
    var srv, a, h, n := c.servers[m.to], m.args, c.hist, |c.servers|;
    SafeServer(c, m.to);
    SafeParts(c);
    assert AppendOk(h, n, m);
    PieceReach(h, n, a);
    AcknowledgedHeld(h, n, srv, m.to, a.term);
    RecordFacts(h, n, a.term);
    if Accepts(Recognise(srv, a.term), a) {
      SpliceResult(h, n, Recognise(srv, a.term), a);
      AcceptedResult(srv, a);
    } else {
      RefusedResult(srv, a);
    }
  }

  /** A server holds what it has acknowledged to the leader of its term. */
  lemma AcknowledgedHeld(h: History, n: nat, srv: Server, s: nat, T: nat)
    requires LogOk(h, srv) && RecordsOk(h, n) && T in h.logs && T >= srv.currentTerm && AckedOk(h, srv, s) && FollowsOk(h, srv, s)
    ensures Acked(h, s, T) < |h.logs[T]| && Acked(h, s, T) < |srv.log| && h.logs[T][..Acked(h, s, T) + 1] <= srv.log
  {
    hide RecordsOk, Origin;
    RecordFacts(h, n, T);
    PlaceholderFirst(h, srv.log);
    PlaceholderFirst(h, h.logs[T]);
  }

  lemma RefusedResult(srv: Server, a: AppendArgs)
    requires |srv.log| >= 1 && a.term >= srv.currentTerm && !Accepts(Recognise(srv, a.term), a)
    ensures AppendNext(srv, a).0.log == srv.log
  {
    hide Rejection, Accepts;
  }

  /** Exactly when an append, however late it arrives, keeps all that its receiver has committed. */
  lemma CommittedKeptIff(c: Cluster, m: AppendMsg)
    requires Safe(c) && m in c.appends && m.to < |c.servers| && |c.servers[m.to].log| >= 1
    requires m.args.term >= c.servers[m.to].currentTerm && Accepts(Recognise(c.servers[m.to], m.args.term), m.args)
    ensures var srv := c.servers[m.to];
      && srv.commitIndex < |srv.log|
      && (srv.log[..srv.commitIndex + 1] <= AppendNext(srv, m.args).0.log <==> SparesCommitted(srv, m.args))
  {
    hide Safe, Origin, RecordsOk, CompleteOk, MessagesSafe, StampsOk, AppendNext, SplicedLog, FollowCommit, CommitOk, KeepsOk, FollowsOk, AckedOk,
      BackedOk, MatchOk, LedOk, VoteOk, CandidateOk, LeaderOk, RequestOk, AnswerOk, AckOk;
    var srv, a, h, n := c.servers[m.to], m.args, c.hist, |c.servers|;
    var t := Recognise(srv, a.term);
    SafeServer(c, m.to);
    SafeParts(c);
    assert AppendOk(h, n, m);
    RecordFacts(h, n, a.term);
    SpliceResult(h, n, t, a);
    AcceptedResult(srv, a);
    CommittedInLeader(c, srv, a.term);
  }

  /** In every such run, an append delivered next, in whatever order, keeps what its
      receiver has committed if and only if it reaches it or ends at an entry of its own term. */
  lemma LateAppendExact(run: seq<Cluster>, i: nat, m: AppendMsg)
    requires Run(run, true) && i < |run| && m in run[i].appends && m.to < |run[i].servers| && |run[i].servers[m.to].log| >= 1
    requires m.args.term >= run[i].servers[m.to].currentTerm && Accepts(Recognise(run[i].servers[m.to], m.args.term), m.args)
    ensures var srv := run[i].servers[m.to];
      && srv.commitIndex < |srv.log|
      && (srv.log[..srv.commitIndex + 1] <= AppendNext(srv, m.args).0.log <==> SparesCommitted(srv, m.args))
  {
    hide Run, Safe, AppendNext, Accepts;
    RunSafe(run, i, i);
    CommittedKeptIff(run[i], m);
  }
}
