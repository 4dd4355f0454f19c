/** State machine safety, for any number of servers and appends in order or harmlessly late: no two servers
    ever hold different entries at an index both have committed. */
module RaftSafety {
  import opened Collections
  import opened Raft
  import opened KvCommands
  import opened RaftCluster
  import opened RaftLogs

  // ----- what can be, and what has been, chosen -----

  /** Index i of term t's leader's log is an entry of that term. */
  ghost predicate Own(h: History, t: nat, i: nat) {
    t in h.logs && 1 <= i < |h.logs[t]| && h.logs[t][i].term == t
  }

  ghost predicate Has(log: Log, i: nat, t: nat) {
    1 <= i < |log| && log[i].term == t
  }

  /** The servers that have accepted term t's log up to i, or still can. */
  ghost function StillCan(c: Cluster, t: nat, i: nat): set<nat> {
    set g: nat | g < |c.servers| && (c.servers[g].currentTerm <= t || Acked(c.hist, g, t) >= i)
  }

  /** Index i of term t may yet be accepted by half of the servers: enough to meet every majority that elects. */
  ghost predicate Choosable(c: Cluster, t: nat, i: nat) {
    Own(c.hist, t, i) && 2 * |StillCan(c, t, i)| >= |c.servers|
  }

  ghost function Accepted(c: Cluster, t: nat, i: nat): set<nat> {
    set g: nat | g < |c.servers| && Acked(c.hist, g, t) >= i
  }

  /** Index i of term t has been accepted by half of the servers. */
  ghost predicate Chosen(c: Cluster, t: nat, i: nat) {
    Own(c.hist, t, i) && 2 * |Accepted(c, t, i)| >= |c.servers|
  }

  lemma ChosenChoosable(c: Cluster, t: nat, i: nat)
    requires Chosen(c, t, i)
    ensures Choosable(c, t, i)
  {
    SubsetCardinality(Accepted(c, t, i), StillCan(c, t, i));
  }

  // ----- how a step moves terms and acknowledgements -----

  /** Terms never fall, and only a server whose term is at most t acknowledges term t. */
  ghost predicate Advances(c: Cluster, c': Cluster) {
    && |c'.servers| == |c.servers|
    && Grows(c.hist, c'.hist)
    && (forall g :: 0 <= g < |c.servers| ==> c.servers[g].currentTerm <= c'.servers[g].currentTerm)
    && (forall g: nat, t: nat :: 0 <= g < |c.servers| ==> Acked(c.hist, g, t) <= Acked(c'.hist, g, t))
    && (forall g: nat, t: nat :: 0 <= g < |c.servers| && Acked(c'.hist, g, t) != Acked(c.hist, g, t) ==> c.servers[g].currentTerm <= t)
  }

  lemma OwnGrows(h: History, h': History, t: nat, i: nat)
    requires Grows(h, h') && t in h.logs && 1 <= i < |h.logs[t]|
    ensures Own(h', t, i) <==> Own(h, t, i)
  {
    assert h.logs[t] <= h'.logs[t];
  }

  /** What can still be chosen could be chosen before. */
  lemma ChoosableBefore(c: Cluster, c': Cluster, t: nat, i: nat)
    requires Advances(c, c') && t in c.hist.logs && i < |c.hist.logs[t]| && Choosable(c', t, i)
    ensures Choosable(c, t, i)
  {
    OwnGrows(c.hist, c'.hist, t, i);
    SubsetCardinality(StillCan(c', t, i), StillCan(c, t, i));
  }

  lemma ChosenStays(c: Cluster, c': Cluster, t: nat, i: nat)
    requires Advances(c, c') && Chosen(c, t, i)
    ensures Chosen(c', t, i)
  {
    OwnGrows(c.hist, c'.hist, t, i);
    SubsetCardinality(Accepted(c, t, i), Accepted(c', t, i));
  }

  // ----- the invariant -----

  /** What a server has acknowledged exists, and is of no later term than its own. */
  ghost predicate AckedOk(h: History, srv: Server, g: nat) {
    forall t: nat :: Acked(h, g, t) > 0 ==> t in h.logs && Acked(h, g, t) < |h.logs[t]| && t <= srv.currentTerm
  }

  /** Having acknowledged its current term's leader, a server's log is a prefix of that leader's log,
      and its entries beyond the acknowledged index are of that term. */
  ghost predicate FollowsOk(h: History, srv: Server, s: nat)
    requires |srv.log| >= 1
  {
    var t := srv.currentTerm;
    var b := Acked(h, s, t);
    && (b > 0 ==> t in h.logs && t in h.elected && srv.log <= h.logs[t] && b < |srv.log| && (b == |srv.log| - 1 || h.elected[t] <= b))
    && (t > 0 && srv.log[|srv.log| - 1].term == t ==> b > 0)
  }

  /** Acknowledged and choosable entries are still there. */
  ghost predicate KeepsOk(c: Cluster, log: Log, g: nat) {
    forall t: nat, i: nat :: Choosable(c, t, i) && Acked(c.hist, g, t) >= i ==> Has(log, i, t)
  }

  /** Leaders of later terms hold everything choosable of earlier ones. */
  ghost predicate CompleteOk(c: Cluster) {
    forall t: nat, i: nat, u: nat :: Choosable(c, t, i) && u in c.hist.logs && t < u ==> Has(c.hist.logs[u], i, t)
  }

  /** The log prefix that ends at (index, term) holds entry i of term t. */
  ghost predicate Reaches(h: History, index: nat, term: nat, t: nat, i: nat) {
    t <= term && term in h.logs && i <= index && Has(h.logs[term], i, t)
  }

  /** A vote was only given to a log that holds all the voter had acknowledged. */
  ghost predicate BallotOk(c: Cluster, a: VoteAnswer) {
    a.reply.voteGranted ==>
      forall t: nat, i: nat :: Choosable(c, t, i) && t < a.args.term && Acked(c.hist, a.from, t) >= i ==>
        Reaches(c.hist, a.args.lastLogIndex, a.args.lastLogTerm, t, i)
  }

  /** While its election lasts, a candidate's requests describe its log as it is. */
  ghost predicate DescribesOk(servers: seq<Server>, args: VoteArgs) {
    args.candidateId < |servers| && |servers[args.candidateId].log| >= 1 &&
    var srv := servers[args.candidateId];
    srv.currentTerm == args.term && srv.role == Candidate ==>
      args.lastLogIndex == |srv.log| - 1 && args.lastLogTerm == LastTerm(srv)
  }

  /** Every counted vote came in an answer. */
  ghost predicate BackedOk(c: Cluster, srv: Server, s: nat) {
    srv.role == Candidate ==> forall g :: g in Tally(c.hist, s) && g != s ==> Backed(c, srv.currentTerm, s, g)
  }

  ghost predicate Backed(c: Cluster, t: nat, s: nat, g: nat) {
    exists a :: a in c.answers && a.from == g && a.args.term == t && a.args.candidateId == s && a.reply.voteGranted
  }

  /** Stamps order the appends of a term by how much of the leader's log they reach. */
  ghost predicate StampsOk(c: Cluster) {
    && (forall m :: m in c.appends ==> m.stamp < c.hist.clock)
    && (forall m, m' :: m in c.appends && m' in c.appends && m.args.term == m'.args.term && m.stamp <= m'.stamp ==>
          LastOf(m.args) <= LastOf(m'.args))
    && (forall m :: m in c.appends && m.stamp >= Seen(c.hist, m.to, m.args.term) ==>
          Acked(c.hist, m.to, m.args.term) <= LastOf(m.args))
  }

  /** The first `commit` entries of `log`, as of term t, lie within something chosen. */
  ghost predicate CommitOk(c: Cluster, log: Log, t: nat, commit: nat) {
    commit == 0 || (commit < |log| && exists u: nat, j: nat :: Covers(c, u, j, log, t, commit))
  }

  ghost predicate Covers(c: Cluster, u: nat, j: nat, log: Log, t: nat, commit: nat)
    requires commit < |log|
  {
    Chosen(c, u, j) && u <= t && commit <= j && c.hist.logs[u][commit].term == log[commit].term
  }

  ghost predicate PromisesOk(c: Cluster, a: AppendArgs) {
    a.term in c.hist.logs && a.leaderCommit <= LastOf(a) && CommitOk(c, c.hist.logs[a.term], a.term, a.leaderCommit)
  }

  /** What a leader, or former leader, counts as matched has been acknowledged. */
  ghost predicate MatchOk(h: History, srv: Server, s: nat) {
    srv.startAppend ==>
      && s in h.led && h.led[s] in h.logs && h.led[s] in h.elected && h.led[s] <= srv.currentTerm
      && (srv.role == Leader ==> s < |srv.matchIndex| && srv.matchIndex[s] == |srv.log| - 1)
      && (h.led[s] == srv.currentTerm ==> srv.role == Leader)
      && s < |srv.matchIndex|
      && forall j :: 0 <= j < |srv.matchIndex| ==>
           srv.matchIndex[j] <= Acked(h, j, h.led[s]) && srv.matchIndex[j] <= srv.matchIndex[s]
           && (srv.matchIndex[j] > 0 ==> h.elected[h.led[s]] <= srv.matchIndex[j])
  }

  /** The latest term a server led, and its match indexes before it has submitted anything. */
  ghost predicate LedOk(h: History, srv: Server, s: nat) {
    && (forall t :: t in h.leaders && h.leaders[t] == s ==> s in h.led && t <= h.led[s])
    && (s in h.led ==> h.led[s] in h.leaders && h.leaders[h.led[s]] == s)
    && (srv.role == Leader ==>
          && s in h.led && h.led[s] == srv.currentTerm
          && (!srv.startAppend ==> forall j :: 0 <= j < |srv.matchIndex| ==> srv.matchIndex[j] == 0))
  }

  /** A successful answer to an append with entries acknowledges all of it. */
  ghost predicate ConfirmedOk(h: History, a: AppendAnswer) {
    a.reply.success && a.args.entries != [] ==> Acked(h, a.from, a.args.term) >= LastOf(a.args)
  }

  ghost predicate ServerSafe(c: Cluster, s: nat)
    requires s < |c.servers| && |c.servers[s].log| >= 1
  {
    var srv := c.servers[s];
    && AckedOk(c.hist, srv, s)
    && FollowsOk(c.hist, srv, s)
    && KeepsOk(c, srv.log, s)
    && BackedOk(c, srv, s)
    && CommitOk(c, srv.log, srv.currentTerm, srv.commitIndex)
    && MatchOk(c.hist, srv, s)
    && LedOk(c.hist, srv, s)
  }

  ghost predicate MessagesSafe(c: Cluster) {
    && (forall m :: m in c.requests ==> DescribesOk(c.servers, m.args))
    && (forall a :: a in c.answers ==> DescribesOk(c.servers, a.args) && BallotOk(c, a))
    && (forall m :: m in c.appends ==> PromisesOk(c, m.args))
    && (forall a :: a in c.acks ==> ConfirmedOk(c.hist, a))
  }

  ghost predicate Safe(c: Cluster) {
    && Inv(c)
    && (forall s :: 0 <= s < |c.servers| ==> |c.servers[s].log| >= 1 && ServerSafe(c, s))
    && CompleteOk(c)
    && MessagesSafe(c)
    && StampsOk(c)
  }

  // ----- what carries over from one state to the next -----

  ghost predicate SameAcks(h: History, h': History, g: nat) {
    forall t: nat :: Acked(h', g, t) == Acked(h, g, t)
  }

  lemma KeepsCarries(c: Cluster, c': Cluster, srv: Server, log: Log, g: nat)
    requires Advances(c, c') && SameAcks(c.hist, c'.hist, g) && AckedOk(c.hist, srv, g) && KeepsOk(c, log, g)
    ensures KeepsOk(c', log, g)
  {
    hide Choosable, Has, Advances;
    forall t: nat, i: nat | Choosable(c', t, i) && Acked(c'.hist, g, t) >= i
      ensures Has(log, i, t)
    {
      ChoosablePositive(c', t, i);
      ChoosableBefore(c, c', t, i);
    }
  }

  lemma ChoosablePositive(c: Cluster, t: nat, i: nat)
    requires Choosable(c, t, i)
    ensures i >= 1 && Own(c.hist, t, i)
  {
  }

  lemma CommitCarries(c: Cluster, c': Cluster, log: Log, log': Log, t: nat, t': nat, commit: nat)
    requires Advances(c, c') && CommitOk(c, log, t, commit) && t <= t'
    requires commit < |log| ==> commit < |log'| && log'[commit].term == log[commit].term
    ensures CommitOk(c', log', t', commit)
  {
    hide Chosen;
    if commit > 0 {
      var u: nat, j: nat :| Covers(c, u, j, log, t, commit);
      ChosenStays(c, c', u, j);
      ChosenOwn(c, u, j);
      assert c.hist.logs[u] <= c'.hist.logs[u];
      assert Covers(c', u, j, log', t', commit);
    }
  }

  lemma ChosenOwn(c: Cluster, t: nat, i: nat)
    requires Chosen(c, t, i)
    ensures Own(c.hist, t, i)
  {
  }

  ghost predicate SameLed(h: History, h': History, s: nat) {
    && (s in h'.led <==> s in h.led) && (s in h.led ==> h'.led[s] == h.led[s])
    && (forall t :: t in h'.leaders && h'.leaders[t] == s ==> t in h.leaders && h.leaders[t] == s)
  }

  lemma MatchCarries(c: Cluster, c': Cluster, a: Server, b: Server, s: nat)
    requires Advances(c, c') && SameLed(c.hist, c'.hist, s) && MatchOk(c.hist, a, s) && |a.matchIndex| == |c.servers|
    requires b.matchIndex == a.matchIndex && b.startAppend == a.startAppend && a.currentTerm <= b.currentTerm
    requires b.role == Leader ==> a.role == Leader && b.currentTerm == a.currentTerm && b.log == a.log
    requires a.role == Leader && b.currentTerm == a.currentTerm ==> b.role == Leader
    ensures MatchOk(c'.hist, b, s)
  {
    if b.startAppend {
      var t := c.hist.led[s];
      assert t in c'.hist.logs && c'.hist.elected[t] == c.hist.elected[t];
      forall j | 0 <= j < |b.matchIndex|
        ensures b.matchIndex[j] <= Acked(c'.hist, j, t)
      {
        assert Acked(c.hist, j, t) <= Acked(c'.hist, j, t);
      }
    }
  }

  /** A server that keeps its log, and does not take on a new role, stays safe. */
  lemma SafeSameLog(c: Cluster, c': Cluster, s: nat)
    requires s < |c.servers| && |c.servers[s].log| >= 1 && ServerSafe(c, s) && Advances(c, c')
    requires SameAcks(c.hist, c'.hist, s) && SameLed(c.hist, c'.hist, s)
    requires LogOk(c.hist, c.servers[s]) && |c.servers[s].matchIndex| == |c.servers|
    requires var a, b := c.servers[s], c'.servers[s];
      && b.log == a.log && b.commitIndex == a.commitIndex && b.matchIndex == a.matchIndex && b.startAppend == a.startAppend
      && (b.role == Leader ==> a.role == Leader && b.currentTerm == a.currentTerm)
      && (a.role == Leader && b.currentTerm == a.currentTerm ==> b.role == Leader)
    requires BackedOk(c', c'.servers[s], s)
    ensures ServerSafe(c', s)
  {
    hide BackedOk, Choosable, Chosen;
    var a, b, h, h' := c.servers[s], c'.servers[s], c.hist, c'.hist;
    KeepsCarries(c, c', a, a.log, s);
    CommitCarries(c, c', a.log, b.log, a.currentTerm, b.currentTerm, a.commitIndex);
    assert AckedOk(h', b, s) by {
      forall t: nat | Acked(h', s, t) > 0
        ensures t in h'.logs && Acked(h', s, t) < |h'.logs[t]| && t <= b.currentTerm
      {
        assert h.logs[t] <= h'.logs[t];
      }
    }
    assert FollowsOk(h', b, s) by {
      var t := b.currentTerm;
      if Acked(h', s, t) > 0 {
        assert h.logs[t] <= h'.logs[t];
      }
    }
    MatchCarries(c, c', a, b, s);
  }

  lemma BackedCarries(c: Cluster, c': Cluster, srv: Server, s: nat)
    requires BackedOk(c, srv, s) && Tally(c'.hist, s) == Tally(c.hist, s) && c.answers <= c'.answers
    ensures BackedOk(c', srv, s)
  {
    if srv.role == Candidate {
      forall g | g in Tally(c'.hist, s) && g != s
        ensures Backed(c', srv.currentTerm, s, g)
      {
        assert Backed(c, srv.currentTerm, s, g);
        var a :| a in c.answers && a.from == g && a.args.term == srv.currentTerm && a.args.candidateId == s && a.reply.voteGranted;
        assert a in c'.answers;
      }
    }
  }

  /** A server a step does not touch stays safe. */
  lemma SafeUntouched(c: Cluster, c': Cluster, s: nat)
    requires s < |c.servers| && |c.servers[s].log| >= 1 && ServerSafe(c, s) && Advances(c, c') && c'.servers[s] == c.servers[s]
    requires SameAcks(c.hist, c'.hist, s) && SameLed(c.hist, c'.hist, s) && Tally(c'.hist, s) == Tally(c.hist, s)
    requires LogOk(c.hist, c.servers[s]) && |c.servers[s].matchIndex| == |c.servers| && c.answers <= c'.answers
    ensures ServerSafe(c', s)
  {
    hide AckedOk, FollowsOk, KeepsOk, CommitOk, MatchOk, LedOk, Advances, SameAcks, SameLed, LogOk;
    BackedCarries(c, c', c.servers[s], s);
    SafeSameLog(c, c', s);
  }

  /** A server that campaigns was already campaigning with the same log, or does so in a new term. */
  ghost predicate Campaigns(a: Server, b: Server) {
    b.role == Candidate ==> (a.role == Candidate && b.currentTerm == a.currentTerm && b.log == a.log) || b.currentTerm > a.currentTerm
  }

  lemma DescribesCarries(c: Cluster, c': Cluster, args: VoteArgs)
    requires |c'.servers| == |c.servers| && (forall s :: 0 <= s < |c.servers| ==> Campaigns(c.servers[s], c'.servers[s]))
    requires forall s :: 0 <= s < |c.servers| ==> |c'.servers[s].log| >= 1 && c'.servers[s].snapshotTerm == c.servers[s].snapshotTerm
    requires args.candidateId < |c.servers| && Voted(c.hist, args.candidateId, args.term) == args.candidateId
    requires VoteOk(c.hist, |c.servers|, c.servers[args.candidateId], args.candidateId)
    requires DescribesOk(c.servers, args)
    ensures DescribesOk(c'.servers, args)
  {
    var s := args.candidateId;
    assert Campaigns(c.servers[s], c'.servers[s]);
    assert (s, args.term) in c.hist.ballots;
  }

  lemma ReachesGrows(h: History, h': History, index: nat, term: nat, t: nat, i: nat)
    requires Grows(h, h') && Reaches(h, index, term, t, i)
    ensures Reaches(h', index, term, t, i)
  {
    assert h.logs[term] <= h'.logs[term];
  }

  lemma BallotCarries(c: Cluster, c': Cluster, a: VoteAnswer)
    requires Advances(c, c') && BallotOk(c, a) && a.from < |c.servers|
    requires a.reply.voteGranted ==> a.args.term <= c.servers[a.from].currentTerm
    requires AckedOk(c.hist, c.servers[a.from], a.from)
    ensures BallotOk(c', a)
  {
    hide Choosable, Reaches;
    forall t: nat, i: nat | a.reply.voteGranted && Choosable(c', t, i) && t < a.args.term && Acked(c'.hist, a.from, t) >= i
      ensures Reaches(c'.hist, a.args.lastLogIndex, a.args.lastLogTerm, t, i)
    {
      ChoosablePositive(c', t, i);
      assert Acked(c'.hist, a.from, t) == Acked(c.hist, a.from, t);
      ChoosableBefore(c, c', t, i);
      ReachesGrows(c.hist, c'.hist, a.args.lastLogIndex, a.args.lastLogTerm, t, i);
    }
  }

  lemma PromisesCarry(c: Cluster, c': Cluster, a: AppendArgs)
    requires Advances(c, c') && PromisesOk(c, a)
    ensures PromisesOk(c', a)
  {
    assert c.hist.logs[a.term] <= c'.hist.logs[a.term];
    CommitCarries(c, c', c.hist.logs[a.term], c'.hist.logs[a.term], a.term, a.term, a.leaderCommit);
  }

  /** With no new leader and no new entry, completeness carries over. */
  lemma CompleteCarries(c: Cluster, c': Cluster)
    requires Advances(c, c') && CompleteOk(c) && c'.hist.logs == c.hist.logs
    ensures CompleteOk(c')
  {
    hide Choosable, Advances;
    forall t: nat, i: nat, u: nat | Choosable(c', t, i) && u in c'.hist.logs && t < u
      ensures Has(c'.hist.logs[u], i, t)
    {
      ChoosablePositive(c', t, i);
      ChoosableBefore(c, c', t, i);
    }
  }

  ghost predicate NewMessagesSafe(c: Cluster, c': Cluster) {
    && (forall m :: m in c'.requests && m !in c.requests ==> DescribesOk(c'.servers, m.args))
    && (forall a :: a in c'.answers && a !in c.answers ==> DescribesOk(c'.servers, a.args) && BallotOk(c', a))
    && (forall m :: m in c'.appends && m !in c.appends ==> PromisesOk(c', m.args))
    && (forall a :: a in c'.acks && a !in c.acks ==> ConfirmedOk(c'.hist, a))
  }

  lemma OldMessagesSafe(c: Cluster, c': Cluster)
    requires Safe(c) && Inv(c') && Advances(c, c') && forall s :: 0 <= s < |c.servers| ==> Campaigns(c.servers[s], c'.servers[s])
    requires NewMessagesSafe(c, c')
    ensures MessagesSafe(c')
  {
    hide RecordsOk, RecordOk, BallotOk, DescribesOk, PromisesOk, CompleteOk, StampsOk, LogOk, CandidateOk, LeaderOk, Campaigns,
      AppendOk, AckOk, KeepsOk, FollowsOk, CommitOk, MatchOk, LedOk, PositionOk;
    SnapshotsFixed(c, c');
    forall m | m in c.requests
      ensures DescribesOk(c'.servers, m.args)
    {
      assert RequestOk(c.hist, |c.servers|, m);
      assert ServerOk(c.hist, |c.servers|, c.servers[m.args.candidateId], m.args.candidateId);
      DescribesCarries(c, c', m.args);
    }
    forall a | a in c.answers
      ensures DescribesOk(c'.servers, a.args) && BallotOk(c', a)
    {
      assert AnswerOk(c.hist, |c.servers|, a);
      assert ServerOk(c.hist, |c.servers|, c.servers[a.args.candidateId], a.args.candidateId);
      assert ServerOk(c.hist, |c.servers|, c.servers[a.from], a.from);
      assert ServerSafe(c, a.from);
      DescribesCarries(c, c', a.args);
      assert a.reply.voteGranted ==> (a.from, a.args.term) in c.hist.ballots;
      BallotCarries(c, c', a);
    }
    forall m | m in c.appends
      ensures PromisesOk(c', m.args)
    {
      PromisesCarry(c, c', m.args);
    }
    forall a | a in c.acks
      ensures ConfirmedOk(c'.hist, a)
    {
      AckBasics(c.hist, |c.servers|, a);
    }
  }

  lemma AckBasics(h: History, n: nat, a: AppendAnswer)
    requires AckOk(h, n, a)
    ensures a.from < n
  {
  }

  lemma SnapshotsFixed(c: Cluster, c': Cluster)
    requires Inv(c) && Inv(c') && |c'.servers| == |c.servers|
    ensures forall s :: 0 <= s < |c.servers| ==> |c'.servers[s].log| >= 1 && c'.servers[s].snapshotTerm == c.servers[s].snapshotTerm
  {
    hide MessagesOk, RecordsOk, Origin;
    forall s | 0 <= s < |c.servers|
      ensures |c'.servers[s].log| >= 1 && c'.servers[s].snapshotTerm == c.servers[s].snapshotTerm
    {
      assert ServerOk(c.hist, |c.servers|, c.servers[s], s) && ServerOk(c'.hist, |c.servers|, c'.servers[s], s);
    }
  }

  ghost predicate OthersUntouched(c: Cluster, c': Cluster, s: nat) {
    && |c'.servers| == |c.servers|
    && c.answers <= c'.answers
    && forall x :: 0 <= x < |c.servers| && x != s ==>
         && c'.servers[x] == c.servers[x]
         && SameAcks(c.hist, c'.hist, x) && SameLed(c.hist, c'.hist, x) && Tally(c'.hist, x) == Tally(c.hist, x)
  }

  /** Putting the pieces of a step back together. */
  lemma Resettle(c: Cluster, c': Cluster, s: nat)
    requires Safe(c) && Inv(c') && Advances(c, c') && s < |c.servers| && OthersUntouched(c, c', s)
    requires |c'.servers[s].log| >= 1 && ServerSafe(c', s) && Campaigns(c.servers[s], c'.servers[s])
    requires CompleteOk(c') && NewMessagesSafe(c, c') && StampsOk(c')
    ensures Safe(c')
  {
    hide RecordsOk, MessagesOk, CompleteOk, StampsOk, MessagesSafe, NewMessagesSafe, Advances, SameAcks, SameLed, ServerSafe,
      VoteOk, CandidateOk, LeaderOk, LogOk;
    forall x | 0 <= x < |c.servers|
      ensures |c'.servers[x].log| >= 1 && ServerSafe(c', x) && Campaigns(c.servers[x], c'.servers[x])
    {
      assert ServerOk(c.hist, |c.servers|, c.servers[x], x);
      if x != s {
        SafeUntouched(c, c', x);
      }
    }
    OldMessagesSafe(c, c');
  }

  lemma StampsCarry(c: Cluster, c': Cluster)
    requires StampsOk(c) && c'.appends == c.appends && c'.hist.clock == c.hist.clock && c'.hist.seen == c.hist.seen
    requires forall m :: m in c.appends ==> Acked(c'.hist, m.to, m.args.term) == Acked(c.hist, m.to, m.args.term)
    ensures StampsOk(c')
  {
  }

  ghost predicate SameBooks(h: History, h': History) {
    h'.acked == h.acked && h'.led == h.led && h'.leaders == h.leaders && h'.seen == h.seen && h'.clock == h.clock && h'.logs == h.logs
  }

  /** A step that leaves logs and acknowledgements alone and only raises the term of server s. */
  lemma QuietStep(c: Cluster, c': Cluster, s: nat)
    requires Safe(c) && Inv(c') && Grows(c.hist, c'.hist) && SameBooks(c.hist, c'.hist) && s < |c.servers| == |c'.servers|
    requires c'.servers == c.servers[s := c'.servers[s]] && c'.appends == c.appends && c'.acks == c.acks && c.answers <= c'.answers
    requires forall x :: 0 <= x < |c.servers| && x != s ==> Tally(c'.hist, x) == Tally(c.hist, x)
    requires var a, b := c.servers[s], c'.servers[s];
      && b.log == a.log && b.commitIndex == a.commitIndex && b.matchIndex == a.matchIndex && b.startAppend == a.startAppend
      && a.currentTerm <= b.currentTerm && (b.role == Leader ==> a.role == Leader && b.currentTerm == a.currentTerm)
      && (a.role == Leader && b.currentTerm == a.currentTerm ==> b.role == Leader)
    requires Campaigns(c.servers[s], c'.servers[s]) && BackedOk(c', c'.servers[s], s)
    requires Advances(c, c') ==> NewMessagesSafe(c, c')
    ensures Safe(c')
  {
    hide Grows, RecordsOk, MessagesOk, CompleteOk, StampsOk, MessagesSafe, NewMessagesSafe, ServerSafe, VoteOk, CandidateOk, LeaderOk,
      LogOk, Campaigns, BackedOk;
    assert Advances(c, c');
    assert ServerOk(c.hist, |c.servers|, c.servers[s], s);
    SafeSameLog(c, c', s);
    CompleteCarries(c, c');
    StampsCarry(c, c');
    Resettle(c, c', s);
  }

  // ----- elections -----

  lemma TimeoutSafe(c: Cluster, s: nat)
    requires Safe(c) && Enabled(c, Timeout(s))
    ensures Safe(Apply(c, Timeout(s)))
  {
    hide Safe, Inv, Grows;
    var c' := Apply(c, Timeout(s));
    assert Inv(c) by { SafeInv(c); }
    TimeoutKeeps(c, s);
    StepGrows(c, Timeout(s));
    QuietStep(c, c', s);
  }

  lemma SafeInv(c: Cluster)
    requires Safe(c)
    ensures Inv(c)
  {
  }

  lemma SendVoteSafe(c: Cluster, s: nat, term: nat, to: nat)
    requires Safe(c) && Enabled(c, SendVote(s, term, to))
    ensures Safe(Apply(c, SendVote(s, term, to)))
  {
    hide Safe, Inv, Grows, BackedOk;
    var c' := Apply(c, SendVote(s, term, to));
    SafeInv(c);
    SendVoteKeeps(c, s, term, to);
    StepGrows(c, SendVote(s, term, to));
    SafeServer(c, s);
    BackedCarries(c, c', c.servers[s], s);
    QuietStep(c, c', s);
  }

  lemma SafeServer(c: Cluster, s: nat)
    requires Safe(c) && s < |c.servers|
    ensures ServerOk(c.hist, |c.servers|, c.servers[s], s) && c.servers[s].snapshotIndex == 0 && |c.servers[s].log| >= 1
    ensures BackedOk(c, c.servers[s], s) && ServerSafe(c, s)
  {
    hide RecordsOk, MessagesOk, CompleteOk, StampsOk, MessagesSafe;
  }

  lemma {:induction false} OriginMonotone(h: History, n: nat, log: Log, i: nat, k: nat)
    requires Origin(h, log) && RecordsOk(h, n) && 1 <= k <= i < |log|
    ensures log[k].term <= log[i].term
  {
    var t := log[i].term;
    assert log[k] == h.logs[t][k];
    assert RecordOk(h, n, t);
  }

  /** The heart of leader completeness: a log at least as up to date as the voter's holds whatever the
      voter holds of what can be chosen. */
  lemma GrantReaches(c: Cluster, srv: Server, args: VoteArgs, t: nat, i: nat)
    requires RecordsOk(c.hist, |c.servers|) && CompleteOk(c) && LogOk(c.hist, srv)
    requires PositionOk(c.hist, args.lastLogIndex, args.lastLogTerm) && UpToDate(srv, args)
    requires Choosable(c, t, i) && Has(srv.log, i, t)
    ensures Reaches(c.hist, args.lastLogIndex, args.lastLogTerm, t, i)
  {
    hide RecordsOk, Choosable;
    var h, n, last := c.hist, |c.servers|, |srv.log| - 1;
    var tg := srv.log[last].term;
    OriginMonotone(h, n, srv.log, last, i);
    assert srv.log[i] == h.logs[tg][i];
    RecordFacts(h, n, tg);
    if args.lastLogTerm != tg {
      assert Has(h.logs[args.lastLogTerm], i, t);
      RecordFacts(h, n, args.lastLogTerm);
      if args.lastLogIndex < i {
        RecordMonotone(h, n, args.lastLogTerm, i, args.lastLogIndex);
      }
    }
  }

  lemma RecordFacts(h: History, n: nat, t: nat)
    requires RecordsOk(h, n) && t in h.logs
    ensures t >= 1 && Origin(h, h.logs[t]) && RecordOk(h, n, t)
  {
  }

  lemma RecordMonotone(h: History, n: nat, t: nat, i: nat, k: nat)
    requires RecordsOk(h, n) && t in h.logs && k <= i < |h.logs[t]|
    ensures h.logs[t][k].term <= h.logs[t][i].term
  {
    RecordFacts(h, n, t);
    if k > 0 {
      OriginMonotone(h, n, h.logs[t], i, k);
    }
  }

  lemma NewBallot(c: Cluster, c': Cluster, m: VoteMsg, a: VoteAnswer)
    requires Safe(c) && Advances(c, c') && m in c.requests && m.to < |c.servers| && |c.servers[m.to].log| >= 1
    requires a == VoteAnswer(m.to, m.args, RequestVoteNext(c.servers[m.to], m.args).1) && SameAcks(c.hist, c'.hist, m.to)
    ensures BallotOk(c', a)
  {
    hide RecordsOk, CompleteOk, StampsOk, MessagesSafe, Choosable, Reaches, Advances, Has, UpToDate;
    var srv := c.servers[m.to];
    SafeServer(c, m.to);
    assert RequestOk(c.hist, |c.servers|, m);
    forall t: nat, i: nat | a.reply.voteGranted && Choosable(c', t, i) && t < a.args.term && Acked(c'.hist, a.from, t) >= i
      ensures Reaches(c'.hist, a.args.lastLogIndex, a.args.lastLogTerm, t, i)
    {
      ChoosablePositive(c', t, i);
      ChoosableBefore(c, c', t, i);
      GrantedUpToDate(srv, m.args);
      GrantReaches(c, srv, m.args, t, i);
      assert Grows(c.hist, c'.hist) by { AdvancesGrows(c, c'); }
      ReachesGrows(c.hist, c'.hist, a.args.lastLogIndex, a.args.lastLogTerm, t, i);
    }
  }

  lemma AdvancesGrows(c: Cluster, c': Cluster)
    requires Advances(c, c')
    ensures Grows(c.hist, c'.hist)
  {
  }

  lemma GrantedUpToDate(srv: Server, args: VoteArgs)
    requires |srv.log| >= 1 && RequestVoteNext(srv, args).1.voteGranted
    ensures UpToDate(srv, args)
  {
  }

  lemma DeliverVoteSafe(c: Cluster, m: VoteMsg)
    requires Safe(c) && Enabled(c, DeliverVote(m))
    ensures Safe(Apply(c, DeliverVote(m)))
  {
    hide Safe, Inv, Grows, BackedOk, BallotOk, UpToDate, ServerSafe;
    var c' := Apply(c, DeliverVote(m));
    SafeInv(c);
    DeliverVoteKeeps(c, m);
    StepGrows(c, DeliverVote(m));
    SafeServer(c, m.to);
    BackedCarries(c, c', c.servers[m.to], m.to);
    StepDownBacked(c', c.servers[m.to], c'.servers[m.to], m.to);
    if Advances(c, c') {
      NewBallot(c, c', m, VoteAnswer(m.to, m.args, RequestVoteNext(c.servers[m.to], m.args).1));
      RequestDescribes(c, c', m);
    }
    QuietStep(c, c', m.to);
  }

  lemma StepDownBacked(c: Cluster, a: Server, b: Server, s: nat)
    requires BackedOk(c, a, s) && (b.role == Candidate ==> a.role == Candidate && b.currentTerm == a.currentTerm)
    ensures BackedOk(c, b, s)
  {
  }

  lemma RequestDescribes(c: Cluster, c': Cluster, m: VoteMsg)
    requires Safe(c) && m in c.requests && |c'.servers| == |c.servers| && m.to < |c.servers|
    requires forall x :: 0 <= x < |c.servers| && x != m.to ==> c'.servers[x] == c.servers[x]
    ensures DescribesOk(c'.servers, m.args)
  {
    hide ServersOk, RecordsOk, CompleteOk, StampsOk, ServerSafe, BallotOk, PromisesOk;
    assert RequestOk(c.hist, |c.servers|, m);
    assert DescribesOk(c.servers, m.args);
  }

  lemma DeliverVoteAnswerSafe(c: Cluster, a: VoteAnswer)
    requires Safe(c) && Enabled(c, DeliverVoteAnswer(a))
    ensures Safe(Apply(c, DeliverVoteAnswer(a)))
  {
    hide Safe, Inv, Grows, ServerSafe, BackedOk;
    var c', s := Apply(c, DeliverVoteAnswer(a)), a.args.candidateId;
    SafeInv(c);
    DeliverVoteAnswerKeeps(c, a);
    StepGrows(c, DeliverVoteAnswer(a));
    SafeServer(c, s);
    AnswerBacks(c, c', a);
    QuietStep(c, c', s);
  }

  lemma AnswerBacks(c: Cluster, c': Cluster, a: VoteAnswer)
    requires Safe(c) && Enabled(c, DeliverVoteAnswer(a)) && c' == Apply(c, DeliverVoteAnswer(a))
    ensures BackedOk(c', c'.servers[a.args.candidateId], a.args.candidateId)
  {
    hide RecordsOk, CompleteOk, StampsOk, MessagesSafe, KeepsOk, CommitOk, FollowsOk, MatchOk, LogOk, LeaderOk, CandidateOk, AppendOk, AckOk;
    var s := a.args.candidateId;
    SafeServer(c, s);
    assert AnswerOk(c.hist, |c.servers|, a);
    var srv, srv' := c.servers[s], c'.servers[s];
    if srv'.role == Candidate {
      forall g | g in Tally(c'.hist, s) && g != s
        ensures Backed(c', srv'.currentTerm, s, g)
      {
        if g in Tally(c.hist, s) {
          assert Backed(c, srv.currentTerm, s, g);
        } else {
          assert g == a.from && Counts(srv, a);
          assert (s, a.args.term) in c.hist.ballots;
          assert a in c'.answers && a.from == g && a.args.term == srv.currentTerm;
        }
      }
    }
  }

  /** Leader completeness at an election: the winner's log holds everything that can still be chosen. */
  lemma WinnerHolds(c: Cluster, s: nat, t: nat, i: nat)
    requires Safe(c) && s < |c.servers| && Wins(c.servers[s], |c.servers|) && t < c.servers[s].currentTerm && Choosable(c, t, i)
    ensures Has(c.servers[s].log, i, t)
  {
    hide Safe, Has, Below, LogOk, LeaderOk, VoteOk, AckedOk, FollowsOk, BackedOk, CommitOk, MatchOk, LedOk, StillCan;
    SafeServer(c, s);
    StillCanBelow(c, t, i);
    var g := QuorumsMeet(StillCan(c, t, i), Tally(c.hist, s), |c.servers|);
    VoterAcked(c, s, g, t, i);
    if g != s {
      VoterReaches(c, s, g, t, i);
    }
  }

  lemma VoterReaches(c: Cluster, s: nat, g: nat, t: nat, i: nat)
    requires Safe(c) && s < |c.servers| && c.servers[s].role == Candidate && t < c.servers[s].currentTerm && Choosable(c, t, i)
    requires g in Tally(c.hist, s) && g != s && g < |c.servers| && Acked(c.hist, g, t) >= i
    ensures Has(c.servers[s].log, i, t)
  {
    hide Safe, Has, Below, LeaderOk, VoteOk, CandidateOk, AckedOk, FollowsOk, KeepsOk, CommitOk, MatchOk, LedOk, Choosable, Reaches, AnswerOk;
    SafeServer(c, s);
    var srv := c.servers[s];
    assert Backed(c, srv.currentTerm, s, g);
    var a :| a in c.answers && a.from == g && a.args.term == srv.currentTerm && a.args.candidateId == s && a.reply.voteGranted;
    AnswerFacts(c, a);
    ChoosableTerm(c, t, i);
    ReachedByLog(c, srv, a.args, t, i);
  }

  lemma ChoosableTerm(c: Cluster, t: nat, i: nat)
    requires Safe(c) && Choosable(c, t, i)
    ensures t >= 1
  {
    hide ServersOk, MessagesOk, CompleteOk, StampsOk, ServerSafe, MessagesSafe, StillCan;
    RecordFacts(c.hist, |c.servers|, t);
  }

  lemma StillCanBelow(c: Cluster, t: nat, i: nat)
    ensures StillCan(c, t, i) <= Below(|c.servers|)
  {
  }

  lemma VoterAcked(c: Cluster, s: nat, g: nat, t: nat, i: nat)
    requires Safe(c) && s < |c.servers| && c.servers[s].role == Candidate && t < c.servers[s].currentTerm
    requires g in Tally(c.hist, s) && g in StillCan(c, t, i)
    ensures g < |c.servers| && Acked(c.hist, g, t) >= i
  {
    hide RecordsOk, CompleteOk, StampsOk, MessagesSafe, MessagesOk, ServerSafe, LogOk, LeaderOk, Below;
    SafeServer(c, s);
    assert Voted(c.hist, g, c.servers[s].currentTerm) == s;
    SafeServer(c, g);
    assert (g, c.servers[s].currentTerm) in c.hist.ballots;
  }

  lemma AnswerFacts(c: Cluster, a: VoteAnswer)
    requires Safe(c) && a in c.answers
    ensures AnswerOk(c.hist, |c.servers|, a) && DescribesOk(c.servers, a.args) && BallotOk(c, a)
  {
    hide ServersOk, RecordsOk, CompleteOk, StampsOk, ServerSafe, AppendOk, AckOk;
  }

  lemma ReachedByLog(c: Cluster, srv: Server, args: VoteArgs, t: nat, i: nat)
    requires LogOk(c.hist, srv) && Reaches(c.hist, args.lastLogIndex, args.lastLogTerm, t, i)
    requires args.lastLogIndex == |srv.log| - 1 && args.lastLogTerm == LastTerm(srv) && t >= 1
    ensures Has(srv.log, i, t)
  {
    var last := |srv.log| - 1;
    assert srv.log[i] == c.hist.logs[srv.log[last].term][i];
  }

  lemma ElectSafe(c: Cluster, s: nat)
    requires Safe(c) && Enabled(c, Elect(s))
    ensures Safe(Apply(c, Elect(s)))
  {
    hide Safe, Inv, Grows, ServerOk, ServerSafe, CompleteOk, MessagesSafe, StampsOk, Advances, RecordsOk, MessagesOk;
    var c' := Apply(c, Elect(s));
    SafeInv(c);
    ElectKeeps(c, s);
    StepGrows(c, Elect(s));
    ElectAdvances(c, c');
    ElectedServer(c, c', s);
    ElectedComplete(c, c', s);
    SafeParts(c);
    StampsCarry(c, c');
    Resettle(c, c', s);
  }

  lemma SafeParts(c: Cluster)
    requires Safe(c)
    ensures CompleteOk(c) && MessagesSafe(c) && StampsOk(c) && RecordsOk(c.hist, |c.servers|) && MessagesOk(c)
  {
  }

  /** With terms and acknowledgements as they were, only the history needs to grow. */
  lemma ElectAdvances(c: Cluster, c': Cluster)
    requires Grows(c.hist, c'.hist) && c'.hist.acked == c.hist.acked && |c'.servers| == |c.servers|
    requires forall g :: 0 <= g < |c.servers| ==> c.servers[g].currentTerm <= c'.servers[g].currentTerm
    ensures Advances(c, c')
  {
  }

  lemma ElectedServer(c: Cluster, c': Cluster, s: nat)
    requires Safe(c) && Enabled(c, Elect(s)) && c' == Apply(c, Elect(s)) && Advances(c, c')
    ensures |c'.servers[s].log| >= 1 && ServerSafe(c', s)
  {
    hide Safe, Choosable, Chosen, Grows, Advances, Below, RecordsOk, MessagesOk, CompleteOk, StampsOk, MessagesSafe, LeaderOk;
    SafeServer(c, s);
    SafeParts(c);
    var srv := c.servers[s];
    ElectsOnce(c.hist, |c.servers|, srv, s);
    KeepsCarries(c, c', srv, srv.log, s);
    CommitCarries(c, c', srv.log, srv.log, srv.currentTerm, srv.currentTerm, srv.commitIndex);
    hide KeepsOk, CommitOk;
    ElectedFollows(c.hist, c'.hist, srv, c'.servers[s], s);
  }

  /** A server elected in a new term has acknowledged nothing of it. */
  lemma ElectedFollows(h: History, h': History, a: Server, b: Server, s: nat)
    requires LogOk(h, a) && AckedOk(h, a, s) && FollowsOk(h, a, s) && b.log == a.log && b.currentTerm == a.currentTerm
    requires a.currentTerm !in h.logs && h'.logs == h.logs[a.currentTerm := a.log] && SameAcks(h, h', s)
    ensures AckedOk(h', b, s) && FollowsOk(h', b, s)
  {
    hide Origin;
    assert Acked(h, s, a.currentTerm) == 0;
    forall t: nat | Acked(h', s, t) > 0
      ensures t in h'.logs && Acked(h', s, t) < |h'.logs[t]| && t <= b.currentTerm
    {
      assert Acked(h, s, t) > 0;
    }
  }

  lemma ElectedComplete(c: Cluster, c': Cluster, s: nat)
    requires Safe(c) && Enabled(c, Elect(s)) && c' == Apply(c, Elect(s)) && Advances(c, c')
    ensures CompleteOk(c')
  {
    hide Safe, ServerSafe, ServerOk, Advances, Has, StillCan, MessagesSafe, StampsOk, RecordsOk, MessagesOk, Choosable, Own;
    SafeServer(c, s);
    SafeParts(c);
    var srv := c.servers[s];
    ElectsOnce(c.hist, |c.servers|, srv, s);
    forall t: nat, i: nat, u: nat | Choosable(c', t, i) && u in c'.hist.logs && t < u
      ensures Has(c'.hist.logs[u], i, t)
    {
      ChoosablePositive(c', t, i);
      NoOwnYet(c.hist, |c.servers|, srv, s, t, i, c'.hist);
      ChoosableBefore(c, c', t, i);
      if u == srv.currentTerm {
        WinnerHolds(c, s, t, i);
      }
    }
  }

  /** A new leader has no entry of its own term yet. */
  lemma NoOwnYet(h: History, n: nat, srv: Server, s: nat, t: nat, i: nat, h': History)
    requires ServerOk(h, n, srv, s) && srv.currentTerm !in h.logs && h'.logs == h.logs[srv.currentTerm := srv.log]
    requires Own(h', t, i) && Wins(srv, n)
    ensures t != srv.currentTerm && t in h.logs && i < |h.logs[t]|
  {
    OriginTerms(h, srv);
  }

  // ----- replication -----

  lemma SubmitAdvances(c: Cluster, c': Cluster, s: nat, command: Command)
    requires Safe(c) && Enabled(c, Submit(s, command)) && c' == Apply(c, Submit(s, command)) && Grows(c.hist, c'.hist)
    ensures Advances(c, c') && OthersUntouched(c, c', s)
    ensures Acked(c'.hist, s, c.servers[s].currentTerm) == |c.servers[s].log|
    ensures forall g: nat, t: nat :: g != s || t != c.servers[s].currentTerm ==> Acked(c'.hist, g, t) == Acked(c.hist, g, t)
  {
    hide Safe, Grows, FollowsOk, KeepsOk, BackedOk, CommitOk, MatchOk, LedOk, Origin, Below;
    SafeServer(c, s);
  }

  lemma SubmitServerSafe(c: Cluster, c': Cluster, s: nat, command: Command)
    requires Safe(c) && Enabled(c, Submit(s, command)) && c' == Apply(c, Submit(s, command)) && Advances(c, c') && Inv(c')
    requires Acked(c'.hist, s, c.servers[s].currentTerm) == |c.servers[s].log|
    requires forall g: nat, t: nat :: g != s || t != c.servers[s].currentTerm ==> Acked(c'.hist, g, t) == Acked(c.hist, g, t)
    ensures |c'.servers[s].log| >= 1 && ServerSafe(c', s)
  {
    hide Safe, Inv, Choosable, Advances, Origin, Below, Has, CommitOk, Chosen;
    SafeServer(c, s);
    var srv, srv', t0 := c.servers[s], c'.servers[s], c.servers[s].currentTerm;
    CommitCarries(c, c', srv.log, srv'.log, t0, t0, srv.commitIndex);
    SubmitKeepsSafe(c, c', s, command);
    assert AckedOk(c'.hist, srv', s) by {
      forall t: nat | Acked(c'.hist, s, t) > 0
        ensures t in c'.hist.logs && Acked(c'.hist, s, t) < |c'.hist.logs[t]| && t <= t0
      {
        assert t != t0 ==> Acked(c.hist, s, t) > 0;
      }
    }
    assert MatchOk(c'.hist, srv', s) by {
      hide AckedOk, KeepsOk, BackedOk;
      forall j | 0 <= j < |srv'.matchIndex|
        ensures srv'.matchIndex[j] <= Acked(c'.hist, j, t0) && srv'.matchIndex[j] <= srv'.matchIndex[s]
        ensures srv'.matchIndex[j] > 0 ==> c'.hist.elected[t0] <= srv'.matchIndex[j]
      {
        assert srv.startAppend ==> srv.matchIndex[j] <= srv.matchIndex[s];
      }
    }
  }

  lemma SubmitKeepsSafe(c: Cluster, c': Cluster, s: nat, command: Command)
    requires Safe(c) && Enabled(c, Submit(s, command)) && c' == Apply(c, Submit(s, command)) && Advances(c, c')
    requires forall g: nat, t: nat :: g != s || t != c.servers[s].currentTerm ==> Acked(c'.hist, g, t) == Acked(c.hist, g, t)
    ensures KeepsOk(c', c'.servers[s].log, s)
  {
    hide Safe, Advances, Origin, Below, StillCan, BackedOk, CommitOk, MatchOk, FollowsOk, VoteOk, CandidateOk;
    SafeServer(c, s);
    var srv, t0 := c.servers[s], c.servers[s].currentTerm;
    forall t: nat, i: nat | Choosable(c', t, i) && Acked(c'.hist, s, t) >= i
      ensures Has(c'.servers[s].log, i, t)
    {
      ChoosablePositive(c', t, i);
      if t != t0 {
        ChoosableBefore(c, c', t, i);
        assert Has(srv.log, i, t);
      }
    }
  }

  /** A new entry of an outdated leader cannot be chosen: the later leader's voters have moved on. */
  lemma TooLate(c: Cluster, c': Cluster, s: nat, u: nat)
    requires Safe(c) && Advances(c, c') && s < |c.servers| && c.servers[s].role == Leader
    requires forall g: nat, t: nat :: g != s || t != c.servers[s].currentTerm ==> Acked(c'.hist, g, t) == Acked(c.hist, g, t)
    requires u in c.hist.logs && c.servers[s].currentTerm < u
    ensures !Choosable(c', c.servers[s].currentTerm, |c.servers[s].log|)
  {
    hide Safe, Origin, Below, CandidateOk, KeepsOk, BackedOk, CommitOk, MatchOk, FollowsOk, MessagesSafe, StampsOk, CompleteOk;
    SafeServer(c, s);
    SafeParts(c);
    RecordFacts(c.hist, |c.servers|, u);
    var t0, i := c.servers[s].currentTerm, |c.servers[s].log|;
    if Choosable(c', t0, i) {
      StillCanBelow(c', t0, i);
      var g := QuorumsMeet(StillCan(c', t0, i), c.hist.quorums[u], |c.servers|);
      VoterMovedOn(c, g, u);
    }
  }

  lemma VoterMovedOn(c: Cluster, g: nat, u: nat)
    requires Safe(c) && u in c.hist.logs && u in c.hist.quorums && g in c.hist.quorums[u]
    ensures g < |c.servers| && c.servers[g].currentTerm >= u && AckedOk(c.hist, c.servers[g], g)
  {
    hide Safe, Origin, CandidateOk, LeaderOk, KeepsOk, BackedOk, CommitOk, MatchOk, FollowsOk, MessagesSafe, StampsOk, CompleteOk;
    SafeParts(c);
    RecordFacts(c.hist, |c.servers|, u);
    assert g in Below(|c.servers|);
    SafeServer(c, g);
    assert (g, u) in c.hist.ballots;
  }

  lemma SubmitComplete(c: Cluster, c': Cluster, s: nat, command: Command)
    requires Safe(c) && Enabled(c, Submit(s, command)) && c' == Apply(c, Submit(s, command)) && Advances(c, c')
    requires forall g: nat, t: nat :: g != s || t != c.servers[s].currentTerm ==> Acked(c'.hist, g, t) == Acked(c.hist, g, t)
    ensures CompleteOk(c')
  {
    hide Safe, ServerSafe, Advances, StillCan, MessagesSafe, StampsOk, RecordsOk, MessagesOk, VoteOk, CandidateOk, LogOk;
    SafeServer(c, s);
    SafeParts(c);
    var srv, t0 := c.servers[s], c.servers[s].currentTerm;
    forall t: nat, i: nat, u: nat | Choosable(c', t, i) && u in c'.hist.logs && t < u
      ensures Has(c'.hist.logs[u], i, t)
    {
      ChoosablePositive(c', t, i);
      if t == t0 && i == |srv.log| {
        TooLate(c, c', s, u);
      } else {
        ChoosableBefore(c, c', t, i);
        assert Has(c.hist.logs[u], i, t);
      }
    }
  }

  lemma SubmitSafe(c: Cluster, s: nat, command: Command)
    requires Safe(c) && Enabled(c, Submit(s, command))
    ensures Safe(Apply(c, Submit(s, command)))
  {
    hide Safe, Inv, Grows, ServerSafe, CompleteOk, MessagesSafe, StampsOk, Advances, VoteOk, CandidateOk, LogOk, OthersUntouched, RecordsOk;
    var c' := Apply(c, Submit(s, command));
    SafeInv(c);
    SubmitKeeps(c, s, command);
    StepGrows(c, Submit(s, command));
    SubmitAdvances(c, c', s, command);
    SubmitServerSafe(c, c', s, command);
    SubmitComplete(c, c', s, command);
    SafeServer(c, s);
    SafeParts(c);
    forall m | m in c.appends
      ensures Acked(c'.hist, m.to, m.args.term) == Acked(c.hist, m.to, m.args.term)
    {
      assert AppendOk(c.hist, |c.servers|, m);
    }
    StampsCarry(c, c');
    Resettle(c, c', s);
  }

  lemma SendAppendSafe(c: Cluster, s: nat, to: nat)
    requires Safe(c) && Enabled(c, SendAppend(s, to))
    ensures Safe(Apply(c, SendAppend(s, to)))
  {
    hide Safe, Inv, Grows, ServerSafe, ServerOk, CompleteOk, MessagesSafe, StampsOk, Advances, RecordsOk, MessagesOk, AppendOf, PromisesOk,
      BackedOk;
    var c' := Apply(c, SendAppend(s, to));
    SafeInv(c);
    SendAppendKeeps(c, s, to);
    StepGrows(c, SendAppend(s, to));
    ElectAdvances(c, c');
    SafeServer(c, s);
    SafeParts(c);
    ServerParts(c, s);
    SafeUntouched(c, c', s);
    CompleteCarries(c, c');
    SentPromises(c, c', s, to);
    SentStamps(c, c', s, to);
    Resettle(c, c', s);
  }

  lemma ServerParts(c: Cluster, s: nat)
    requires Safe(c) && s < |c.servers|
    ensures LogOk(c.hist, c.servers[s]) && |c.servers[s].matchIndex| == |c.servers|
  {
    hide ServerSafe, CompleteOk, MessagesSafe, StampsOk, RecordsOk, MessagesOk, Origin;
    SafeServer(c, s);
  }

  lemma SentPromises(c: Cluster, c': Cluster, s: nat, to: nat)
    requires Safe(c) && Enabled(c, SendAppend(s, to)) && c' == Apply(c, SendAppend(s, to)) && Advances(c, c')
    ensures PromisesOk(c', AppendOf(c.servers[s], to))
  {
    hide Safe, Advances, Origin, Below, KeepsOk, BackedOk, MatchOk, FollowsOk, Chosen;
    SafeServer(c, s);
    PieceOfLeader(c.hist, |c.servers|, c.servers[s], s, to);
    var srv := c.servers[s];
    CommitCarries(c, c', srv.log, srv.log, srv.currentTerm, srv.currentTerm, srv.commitIndex);
  }

  lemma SentStamps(c: Cluster, c': Cluster, s: nat, to: nat)
    requires Safe(c) && Enabled(c, SendAppend(s, to)) && c' == Apply(c, SendAppend(s, to))
    ensures StampsOk(c')
  {
    hide Safe, Origin, Below, KeepsOk, BackedOk, MatchOk, FollowsOk, Chosen, CompleteOk, MessagesSafe, RecordsOk, CommitOk, VoteOk,
      CandidateOk, LogOk;
    SafeServer(c, s);
    SafeServer(c, to);
    SafeParts(c);
    var srv := c.servers[s];
    PieceOfLeader(c.hist, |c.servers|, srv, s, to);
    forall m | m in c.appends && m.args.term == srv.currentTerm
      ensures LastOf(m.args) <= |srv.log| - 1
    {
      assert AppendOk(c.hist, |c.servers|, m);
    }
    assert forall g: nat, t: nat :: Acked(c'.hist, g, t) == Acked(c.hist, g, t);
  }
}
