/** What every step keeps, whatever the network does: at most one leader per term, and logs that
    agree on a term at an index agree on everything up to it. */
module RaftLogs {
  import opened Collections
  import opened Raft
  import opened KvCommands
  import opened RaftCluster

  // ----- what the history says about logs -----

  /** Every entry came, with all that precedes it, from the leader of its term. */
  ghost predicate Origin(h: History, log: Log) {
    && WellShaped(log)
    && (forall i :: 1 <= i < |log| ==> log[i].term in h.logs && i < |h.logs[log[i].term]|)
    && (forall i, k :: 1 <= k <= i < |log| ==> log[k] == h.logs[log[i].term][k])
  }

  ghost predicate RecordOk(h: History, n: nat, t: nat)
    requires t in h.logs
  {
    && t >= 1
    && t in h.leaders && h.leaders[t] < n
    && t in h.elected && 1 <= h.elected[t] <= |h.logs[t]|
    && t in h.quorums && h.quorums[t] <= Below(n) && 2 * |h.quorums[t]| > n
    && (forall g :: g in h.quorums[t] ==> Voted(h, g, t) == h.leaders[t])
    && Origin(h, h.logs[t])
    && (forall i :: 0 <= i < |h.logs[t]| ==> if i < h.elected[t] then h.logs[t][i].term < t else h.logs[t][i].term == t)
  }

  ghost predicate RecordsOk(h: History, n: nat) {
    && h.leaders.Keys == h.logs.Keys
    && (forall t :: t in h.logs ==> RecordOk(h, n, t))
  }

  // ----- servers -----

  ghost predicate VoteOk(h: History, n: nat, srv: Server, s: nat) {
    && -1 <= srv.votedFor < n
    && Voted(h, s, srv.currentTerm) == srv.votedFor
    && (forall t :: (s, t) in h.ballots ==> 1 <= t <= srv.currentTerm)
    && (forall t :: t in h.leaders && h.leaders[t] == s ==> t <= srv.currentTerm)
  }

  ghost predicate CandidateOk(h: History, n: nat, srv: Server, s: nat) {
    srv.role == Candidate ==>
      && srv.votedFor == s && srv.currentTerm >= 1
      && srv.voteCount == |Tally(h, s)| && Tally(h, s) <= Below(n)
      && (forall g :: g in Tally(h, s) ==> Voted(h, g, srv.currentTerm) == s)
      && (srv.currentTerm in h.leaders ==> h.leaders[srv.currentTerm] != s)
  }

  ghost predicate LeaderOk(h: History, srv: Server, s: nat) {
    srv.role == Leader ==>
      var t := srv.currentTerm;
      && t in h.leaders && h.leaders[t] == s && t in h.elected
      && t in h.logs && h.logs[t] == srv.log
      && (forall j :: 0 <= j < |srv.nextIndex| ==> 1 <= srv.nextIndex[j] <= |srv.log|)
      && (!srv.startAppend ==> h.elected[t] == |srv.log| && forall j :: 0 <= j < |srv.nextIndex| ==> srv.nextIndex[j] == |srv.log|)
      && (srv.startAppend ==> h.elected[t] < |srv.log|)
      && (forall j :: 0 <= j < |srv.matchIndex| && srv.matchIndex[j] > 0 ==> h.elected[t] <= srv.matchIndex[j] < |srv.log|)
  }

  ghost predicate LogOk(h: History, srv: Server) {
    && srv.snapshotIndex == 0 && srv.snapshotTerm == 0
    && Origin(h, srv.log)
    && forall i :: 0 <= i < |srv.log| ==> srv.log[i].term <= srv.currentTerm
  }

  ghost predicate ServerOk(h: History, n: nat, srv: Server, s: nat) {
    && Sized(srv, s, n)
    && VoteOk(h, n, srv, s)
    && CandidateOk(h, n, srv, s)
    && LeaderOk(h, srv, s)
    && LogOk(h, srv)
  }

  // ----- messages -----

  /** The position a vote request names is the end of some leader's log prefix. */
  ghost predicate PositionOk(h: History, index: nat, term: nat) {
    if term == 0 then index == 0 else term in h.logs && index < |h.logs[term]| && h.logs[term][index].term == term
  }

  ghost predicate RequestOk(h: History, n: nat, m: VoteMsg) {
    && Voted(h, m.args.candidateId, m.args.term) == m.args.candidateId && m.args.term >= 1
    && m.to < n && m.args.candidateId < n && m.to != m.args.candidateId
    && PositionOk(h, m.args.lastLogIndex, m.args.lastLogTerm)
  }

  ghost predicate AnswerOk(h: History, n: nat, a: VoteAnswer) {
    && Voted(h, a.args.candidateId, a.args.term) == a.args.candidateId
    && a.from < n && a.args.candidateId < n && a.from != a.args.candidateId
    && PositionOk(h, a.args.lastLogIndex, a.args.lastLogTerm)
    && (a.reply.voteGranted ==> Voted(h, a.from, a.args.term) == a.args.candidateId)
  }

  /** The append is a piece of its term's leader's log that ends where that log ended when it was sent. */
  ghost predicate PieceOk(h: History, n: nat, a: AppendArgs) {
    && a.term in h.logs && a.term in h.leaders && a.term in h.elected
    && a.leaderId == h.leaders[a.term] < n
    && LastOf(a) < |h.logs[a.term]|
    && a.prevLogTerm == h.logs[a.term][a.prevLogIndex].term
    && (forall k :: 0 <= k < |a.entries| ==> a.entries[k] == h.logs[a.term][a.prevLogIndex + 1 + k])
    && h.elected[a.term] <= LastOf(a) + 1
    && (a.entries != [] ==> h.elected[a.term] <= LastOf(a))
  }

  ghost predicate AppendOk(h: History, n: nat, m: AppendMsg) {
    m.to < n && m.to != m.args.leaderId && PieceOk(h, n, m.args)
  }

  /** A rejection names an index to retry at, at least 1 and at most the rejected one. */
  ghost predicate RetryOk(a: AppendArgs, r: AppendReply) {
    !r.success && r.term <= a.term ==>
      if r.miss then 1 <= r.len <= a.prevLogIndex
      else 1 <= r.termStart <= a.prevLogIndex && r.termConflict >= 1 && r.termConflict != a.prevLogTerm
  }

  ghost predicate AckOk(h: History, n: nat, a: AppendAnswer) {
    a.from < n && a.from != a.args.leaderId && PieceOk(h, n, a.args) && RetryOk(a.args, a.reply)
  }

  // ----- the invariant -----

  ghost predicate MessagesOk(c: Cluster) {
    var n := |c.servers|;
    && (forall m :: m in c.requests ==> RequestOk(c.hist, n, m))
    && (forall a :: a in c.answers ==> AnswerOk(c.hist, n, a))
    && (forall m :: m in c.appends ==> AppendOk(c.hist, n, m))
    && (forall a :: a in c.acks ==> AckOk(c.hist, n, a))
  }

  ghost predicate ServersOk(c: Cluster) {
    var n := |c.servers|;
    n >= 1 && forall s :: 0 <= s < n ==> ServerOk(c.hist, n, c.servers[s], s)
  }

  ghost predicate Inv(c: Cluster) {
    KeysAgree(c.hist) && ServersOk(c) && RecordsOk(c.hist, |c.servers|) && MessagesOk(c)
  }

  // ----- history only grows -----

  ghost predicate Grows(h: History, h': History) {
    && (forall t :: t in h.logs ==> t in h'.logs && h.logs[t] <= h'.logs[t])
    && (forall t :: t in h.leaders ==> t in h'.leaders && h'.leaders[t] == h.leaders[t])
    && (forall t :: t in h.elected ==> t in h'.elected && h'.elected[t] == h.elected[t])
    && (forall t :: t in h.quorums ==> t in h'.quorums && h'.quorums[t] == h.quorums[t])
    && (forall b :: b in h.ballots ==> b in h'.ballots && h'.ballots[b] == h.ballots[b])
  }

  /** Nothing in the history that concerns server x changes. */
  ghost predicate Quiet(h: History, h': History, x: nat) {
    && Grows(h, h')
    && (forall t :: (x, t) in h'.ballots ==> (x, t) in h.ballots)
    && (forall t :: t in h'.leaders && h'.leaders[t] == x ==> t in h.leaders)
    && (forall t :: t in h.leaders && h.leaders[t] == x && t in h.logs ==> h'.logs[t] == h.logs[t])
    && Tally(h', x) == Tally(h, x)
  }

  lemma OriginGrows(h: History, h': History, log: Log)
    requires Grows(h, h') && Origin(h, log)
    ensures Origin(h', log)
  {
    forall i, k | 1 <= k <= i < |log|
      ensures log[k] == h'.logs[log[i].term][k]
    {
      assert log[k] == h.logs[log[i].term][k];
      assert h.logs[log[i].term] <= h'.logs[log[i].term];
    }
  }

  lemma ServerQuiet(h: History, h': History, n: nat, srv: Server, x: nat)
    requires Quiet(h, h', x) && ServerOk(h, n, srv, x)
    ensures ServerOk(h', n, srv, x)
  {
    OriginGrows(h, h', srv.log);
  }

  lemma MessagesGrow(c: Cluster, h': History)
    requires Grows(c.hist, h') && MessagesOk(c)
    ensures MessagesOk(c.(hist := h'))
  {
    var h, n := c.hist, |c.servers|;
    forall m | m in c.appends
      ensures AppendOk(h', n, m)
    {
      PieceGrows(h, h', n, m.args);
    }
    forall a | a in c.acks
      ensures AckOk(h', n, a)
    {
      PieceGrows(h, h', n, a.args);
    }
    forall a | a in c.answers
      ensures AnswerOk(h', n, a)
    {
      PositionGrows(h, h', a.args.lastLogIndex, a.args.lastLogTerm);
    }
    forall m | m in c.requests
      ensures RequestOk(h', n, m)
    {
      PositionGrows(h, h', m.args.lastLogIndex, m.args.lastLogTerm);
    }
  }

  lemma PieceGrows(h: History, h': History, n: nat, a: AppendArgs)
    requires Grows(h, h') && PieceOk(h, n, a)
    ensures PieceOk(h', n, a)
  {
    assert h.logs[a.term] <= h'.logs[a.term];
  }

  lemma PositionGrows(h: History, h': History, index: nat, term: nat)
    requires Grows(h, h') && PositionOk(h, index, term)
    ensures PositionOk(h', index, term)
  {
    if term > 0 {
      assert h.logs[term] <= h'.logs[term];
    }
  }

  lemma RecordGrows(h: History, h': History, n: nat, t: nat)
    requires Grows(h, h') && t in h.logs && RecordOk(h, n, t) && h'.logs[t] == h.logs[t]
    ensures RecordOk(h', n, t)
  {
    OriginGrows(h, h', h.logs[t]);
  }

  /** Changing only server s, with a history that is quiet for the others. */
  lemma OneServer(c: Cluster, c': Cluster, s: nat)
    requires ServersOk(c) && s < |c.servers| == |c'.servers| && c'.servers == c.servers[s := c'.servers[s]]
    requires forall x :: 0 <= x < |c.servers| && x != s ==> Quiet(c.hist, c'.hist, x)
    requires ServerOk(c'.hist, |c.servers|, c'.servers[s], s)
    ensures ServersOk(c')
  {
    forall x | 0 <= x < |c.servers|
      ensures ServerOk(c'.hist, |c.servers|, c'.servers[x], x)
    {
      if x != s {
        ServerQuiet(c.hist, c'.hist, |c.servers|, c.servers[x], x);
      }
    }
  }

  /** A history with the same terms led and the same logs. */
  lemma RecordsSame(h: History, h': History, n: nat)
    requires RecordsOk(h, n) && Grows(h, h') && h'.logs == h.logs && h'.leaders == h.leaders
    ensures RecordsOk(h', n)
  {
    hide RecordOk;
    forall t | t in h'.logs
      ensures RecordOk(h', n, t)
    {
      RecordGrows(h, h', n, t);
    }
  }

  ghost predicate NewMessagesOk(c: Cluster, c': Cluster) {
    var n := |c.servers|;
    && (forall m :: m in c'.requests && m !in c.requests ==> RequestOk(c'.hist, n, m))
    && (forall a :: a in c'.answers && a !in c.answers ==> AnswerOk(c'.hist, n, a))
    && (forall m :: m in c'.appends && m !in c.appends ==> AppendOk(c'.hist, n, m))
    && (forall a :: a in c'.acks && a !in c.acks ==> AckOk(c'.hist, n, a))
  }

  /** Putting the pieces of a step back together. */
  lemma Reassemble(c: Cluster, c': Cluster, s: nat)
    requires Inv(c) && s < |c.servers| == |c'.servers| && c'.servers == c.servers[s := c'.servers[s]] && KeysAgree(c'.hist)
    requires Grows(c.hist, c'.hist) && RecordsOk(c'.hist, |c.servers|) && NewMessagesOk(c, c')
    requires forall x :: 0 <= x < |c.servers| && x != s ==> Quiet(c.hist, c'.hist, x)
    requires ServerOk(c'.hist, |c.servers|, c'.servers[s], s)
    ensures Inv(c')
  {
    hide RequestOk, AnswerOk, AppendOk, AckOk, ServerOk, RecordsOk, Grows, Quiet;
    OneServer(c, c', s);
    MessagesGrow(c, c'.hist);
    assert MessagesOk(c');
  }

  // ----- elections -----

  lemma BallotGrows(h: History, s: nat, t: nat, v: nat, tally: map<nat, set<nat>>)
    requires Voted(h, s, t) == -1 || Voted(h, s, t) == v
    ensures Grows(h, h.(ballots := h.ballots[(s, t) := v], tally := tally))
  {
  }

  lemma {:induction false} SingletonBelow(s: nat, n: nat)
    requires s < n
    ensures {s} <= Below(n)
  {
  }

  lemma TimeoutServer(h: History, h': History, n: nat, srv: Server, s: nat)
    requires ServerOk(h, n, srv, s)
    requires h' == h.(ballots := h.ballots[(s, srv.currentTerm + 1) := s], tally := h.tally[s := {s}])
    ensures Grows(h, h') && ServerOk(h', n, StartElectionNext(srv), s)
  {
    hide Origin, Grows, Below;
    BallotGrows(h, s, srv.currentTerm + 1, s, h.tally[s := {s}]);
    OriginGrows(h, h', srv.log);
    SingletonBelow(s, n);
    assert Tally(h', s) == {s};
  }

  lemma TimeoutKeeps(c: Cluster, s: nat)
    requires Inv(c) && Enabled(c, Timeout(s))
    ensures Inv(Apply(c, Timeout(s)))
  {
    hide ServerOk, RecordOk, RequestOk, AnswerOk, AppendOk, AckOk;
    var c' := Apply(c, Timeout(s));
    TimeoutServer(c.hist, c'.hist, |c.servers|, c.servers[s], s);
    RecordsSame(c.hist, c'.hist, |c.servers|);
    Reassemble(c, c', s);
  }

  lemma PositionOfLog(h: History, n: nat, srv: Server)
    requires LogOk(h, srv) && RecordsOk(h, n)
    ensures PositionOk(h, LastIndex(srv), LastTerm(srv))
  {
    var last := |srv.log| - 1;
    if last > 0 {
      assert srv.log[last] == h.logs[srv.log[last].term][last];
      assert RecordOk(h, n, srv.log[last].term);
    }
  }

  lemma SendVoteKeeps(c: Cluster, s: nat, term: nat, to: nat)
    requires Inv(c) && Enabled(c, SendVote(s, term, to))
    ensures Inv(Apply(c, SendVote(s, term, to)))
  {
    hide RecordsOk, CandidateOk, LeaderOk, PositionOk, AnswerOk, AppendOk, AckOk;
    PositionOfLog(c.hist, |c.servers|, c.servers[s]);
    Reassemble(c, Apply(c, SendVote(s, term, to)), s);
  }

  lemma RequestVoteServer(h: History, h': History, n: nat, srv: Server, s: nat, args: VoteArgs)
    requires ServerOk(h, n, srv, s) && args.candidateId < n && args.candidateId != s && args.term >= 1
    requires h' == if RequestVoteNext(srv, args).1.voteGranted then h.(ballots := h.ballots[(s, args.term) := args.candidateId]) else h
    ensures Grows(h, h') && ServerOk(h', n, RequestVoteNext(srv, args).0, s)
    ensures RequestVoteNext(srv, args).1.voteGranted ==> Voted(h', s, args.term) == args.candidateId
  {
    hide Origin, Grows, Below, UpToDate;
    if RequestVoteNext(srv, args).1.voteGranted {
      assert Voted(h, s, args.term) == -1 || Voted(h, s, args.term) == args.candidateId;
      BallotGrows(h, s, args.term, args.candidateId, h.tally);
    } else {
      GrowsSelf(h);
    }
    OriginGrows(h, h', srv.log);
  }

  lemma GrowsSelf(h: History)
    ensures Grows(h, h)
  {
  }

  lemma DeliverVoteKeeps(c: Cluster, m: VoteMsg)
    requires Inv(c) && Enabled(c, DeliverVote(m))
    ensures Inv(Apply(c, DeliverVote(m)))
  {
    hide ServerOk, RecordOk, AppendOk, AckOk, PositionOk, RequestVoteNext;
    var c' := Apply(c, DeliverVote(m));
    assert RequestOk(c.hist, |c.servers|, m);
    RequestVoteServer(c.hist, c'.hist, |c.servers|, c.servers[m.to], m.to, m.args);
    PositionGrows(c.hist, c'.hist, m.args.lastLogIndex, m.args.lastLogTerm);
    RecordsSame(c.hist, c'.hist, |c.servers|);
    Reassemble(c, c', m.to);
  }

  lemma TallyGrows(h: History, tally: map<nat, set<nat>>)
    ensures Grows(h, h.(tally := tally))
  {
  }

  lemma VoteReplyServer(h: History, h': History, n: nat, srv: Server, s: nat, a: VoteAnswer)
    requires ServerOk(h, n, srv, s) && AnswerOk(h, n, a) && a.args.candidateId == s
    requires Counts(srv, a) ==> a.from !in Tally(h, s)
    requires h' == if Counts(srv, a) then h.(tally := h.tally[s := Tally(h, s) + {a.from}]) else h
    ensures Grows(h, h') && ServerOk(h', n, VoteReplyNext(srv, a.args.term, a.reply), s)
  {
    hide Origin, Grows, Below, PositionOk;
    GrowsSelf(h);
    TallyGrows(h, h.tally[s := Tally(h, s) + {a.from}]);
    OriginGrows(h, h', srv.log);
    SingletonBelow(a.from, n);
    assert (s, a.args.term) in h.ballots;
  }

  lemma DeliverVoteAnswerKeeps(c: Cluster, a: VoteAnswer)
    requires Inv(c) && Enabled(c, DeliverVoteAnswer(a))
    ensures Inv(Apply(c, DeliverVoteAnswer(a)))
  {
    hide ServerOk, RecordOk, AppendOk, AckOk, RequestOk, AnswerOk;
    var c', s := Apply(c, DeliverVoteAnswer(a)), a.args.candidateId;
    VoteReplyServer(c.hist, c'.hist, |c.servers|, c.servers[s], s, a);
    RecordsSame(c.hist, c'.hist, |c.servers|);
    Reassemble(c, c', s);
  }

  /** A majority shares a server with any half. */
  lemma QuorumsMeet(a: set<nat>, b: set<nat>, n: nat) returns (g: nat)
    requires a <= Below(n) && b <= Below(n) && 2 * |a| >= n && 2 * |b| > n
    ensures g in a && g in b
  {
    if a * b == {} {
      assert |a + b| == |a| + |b|;
      SubsetCardinality(a + b, Below(n));
    }
    g :| g in a * b;
  }

  /** A candidate with a majority leads a term nobody has led. */
  lemma ElectsOnce(h: History, n: nat, srv: Server, s: nat)
    requires ServerOk(h, n, srv, s) && RecordsOk(h, n) && Wins(srv, n)
    ensures srv.currentTerm !in h.leaders && srv.currentTerm !in h.logs
  {
    hide Origin, Below;
    var t := srv.currentTerm;
    if t in h.leaders {
      assert RecordOk(h, n, t);
      var g := QuorumsMeet(h.quorums[t], Tally(h, s), n);
    }
  }

  lemma ElectGrows(h: History, s: nat, t: nat, log: Log, quorum: set<nat>)
    requires t !in h.logs && t !in h.leaders && t !in h.elected && t !in h.quorums
    ensures Grows(h, h.(logs := h.logs[t := log], leaders := h.leaders[t := s], elected := h.elected[t := |log|],
                        quorums := h.quorums[t := quorum], led := h.led[s := t]))
  {
  }

  lemma ElectServer(h: History, h': History, n: nat, srv: Server, s: nat)
    requires ServerOk(h, n, srv, s) && RecordsOk(h, n) && Wins(srv, n) && KeysAgree(h)
    requires var t := srv.currentTerm; h' == h.(logs := h.logs[t := srv.log], leaders := h.leaders[t := s],
      elected := h.elected[t := |srv.log|], quorums := h.quorums[t := Tally(h, s)], led := h.led[s := t])
    ensures Grows(h, h') && ServerOk(h', n, BecomeLeaderNext(srv), s) && RecordOk(h', n, srv.currentTerm)
  {
    hide Origin, Grows, Below, RecordsOk;
    ElectsOnce(h, n, srv, s);
    ElectGrows(h, s, srv.currentTerm, srv.log, Tally(h, s));
    OriginGrows(h, h', srv.log);
    assert forall g, t :: Voted(h', g, t) == Voted(h, g, t);
    OriginTerms(h, srv);
  }

  /** No entry carries a term nobody has led. */
  lemma OriginTerms(h: History, srv: Server)
    requires LogOk(h, srv) && srv.currentTerm !in h.logs && srv.currentTerm >= 1
    ensures forall i :: 0 <= i < |srv.log| ==> srv.log[i].term < srv.currentTerm
  {
  }

  /** The four records of a term come together. */
  ghost predicate KeysAgree(h: History) {
    h.elected.Keys == h.logs.Keys && h.quorums.Keys == h.logs.Keys && h.leaders.Keys == h.logs.Keys
  }

  lemma ElectKeeps(c: Cluster, s: nat)
    requires Inv(c) && Enabled(c, Elect(s))
    ensures Inv(Apply(c, Elect(s)))
  {
    hide ServerOk, RecordOk, MessagesOk, Grows, Quiet;
    var c', t := Apply(c, Elect(s)), c.servers[s].currentTerm;
    ElectsOnce(c.hist, |c.servers|, c.servers[s], s);
    ElectServer(c.hist, c'.hist, |c.servers|, c.servers[s], s);
    forall u | u in c'.hist.logs
      ensures RecordOk(c'.hist, |c.servers|, u)
    {
      if u != t {
        RecordGrows(c.hist, c'.hist, |c.servers|, u);
      }
    }
    ElectQuiet(c.hist, c'.hist, s, t);
    Reassemble(c, c', s);
  }

  lemma ElectQuiet(h: History, h': History, s: nat, t: nat)
    requires Grows(h, h') && t !in h.leaders && h'.leaders == h.leaders[t := s] && h'.ballots == h.ballots && h'.tally == h.tally
    requires forall u :: u in h.logs && u != t ==> u in h'.logs && h'.logs[u] == h.logs[u]
    ensures forall x :: x != s ==> Quiet(h, h', x)
  {
    hide Grows;
  }

  // ----- replication -----

  lemma SubmitServer(h: History, h': History, n: nat, srv: Server, s: nat, command: Command)
    requires ServerOk(h, n, srv, s) && srv.role == Leader && RecordOk(h, n, srv.currentTerm)
    requires h'.logs == h.logs[srv.currentTerm := StartNext(srv, command).log]
    requires h' == h.(logs := h'.logs, acked := h'.acked)
    ensures Grows(h, h') && ServerOk(h', n, StartNext(srv, command), s) && RecordOk(h', n, srv.currentTerm)
  {
    hide Below;
    var t, longer := srv.currentTerm, StartNext(srv, command).log;
    assert h.logs[t] <= h'.logs[t];
    assert Grows(h, h');
    OriginGrows(h, h', srv.log);
    OriginSnoc(h', srv.log, LogEntry(command, t));
  }

  lemma OriginSnoc(h: History, log: Log, e: LogEntry)
    requires Origin(h, log) && e.term in h.logs && h.logs[e.term] == log + [e]
    ensures Origin(h, log + [e])
  {
  }

  lemma SubmitKeeps(c: Cluster, s: nat, command: Command)
    requires Inv(c) && Enabled(c, Submit(s, command))
    ensures Inv(Apply(c, Submit(s, command)))
  {
    hide RecordOk, AppendOk, AckOk, RequestOk, AnswerOk, Grows, VoteOk, CandidateOk, LogOk;
    var c', t := Apply(c, Submit(s, command)), c.servers[s].currentTerm;
    SubmitServer(c.hist, c'.hist, |c.servers|, c.servers[s], s, command);
    forall u | u in c'.hist.logs
      ensures RecordOk(c'.hist, |c.servers|, u)
    {
      if u != t {
        RecordGrows(c.hist, c'.hist, |c.servers|, u);
      }
    }
    Reassemble(c, c', s);
  }

  lemma PieceOfLeader(h: History, n: nat, srv: Server, s: nat, to: nat)
    requires ServerOk(h, n, srv, s) && CanSend(srv, to)
    ensures PieceOk(h, n, AppendOf(srv, to)) && LastOf(AppendOf(srv, to)) == |srv.log| - 1
  {
  }

  /** Acknowledgements, stamps and deliveries are no server's concern. */
  lemma BookkeepingQuiet(h: History, h': History)
    requires h' == h.(acked := h'.acked, seen := h'.seen, clock := h'.clock)
    ensures Grows(h, h') && forall x :: Quiet(h, h', x)
  {
  }

  lemma SendAppendKeeps(c: Cluster, s: nat, to: nat)
    requires Inv(c) && Enabled(c, SendAppend(s, to))
    ensures Inv(Apply(c, SendAppend(s, to)))
  {
    hide RecordOk, AckOk, RequestOk, AnswerOk, ServerOk, PieceOk, Grows, Quiet;
    var c' := Apply(c, SendAppend(s, to));
    PieceOfLeader(c.hist, |c.servers|, c.servers[s], s, to);
    BookkeepingQuiet(c.hist, c'.hist);
    PieceGrows(c.hist, c'.hist, |c.servers|, AppendOf(c.servers[s], to));
    RecordsSame(c.hist, c'.hist, |c.servers|);
    ServerQuiet(c.hist, c'.hist, |c.servers|, c.servers[s], s);
    Reassemble(c, c', s);
  }

  /** Terms agreeing at an index makes everything below agree. */
  lemma SameTermSamePrefix(h: History, a: Log, b: Log, i: nat)
    requires Origin(h, a) && Origin(h, b) && 1 <= i < |a| && i < |b| && a[i].term == b[i].term
    ensures a[..i + 1] == b[..i + 1]
  {
    forall k | 0 <= k < i + 1
      ensures a[k] == b[k]
    {
      if k > 0 {
        assert a[k] == h.logs[a[i].term][k] && b[k] == h.logs[b[i].term][k];
      }
    }
  }

  /** What accepting an append leaves: the log as it was, or the leader's log up to the append's end. */
  lemma SpliceResult(h: History, n: nat, srv: Server, a: AppendArgs)
    requires LogOk(h, srv) && PieceOk(h, n, a) && RecordOk(h, n, a.term) && Accepts(srv, a)
    ensures var log := SplicedLog(srv, a);
      if AlreadyHas(srv, a) || LastOf(a) == 0 then log == srv.log else log == h.logs[a.term][..LastOf(a) + 1]
  {
    var log := SplicedLog(srv, a);
    if a.prevLogIndex > 0 {
      SameTermSamePrefix(h, srv.log, h.logs[a.term], a.prevLogIndex);
      assert srv.log[..a.prevLogIndex + 1] == h.logs[a.term][..a.prevLogIndex + 1];
    } else {
      assert srv.log[..1] == [PLACEHOLDER] == h.logs[a.term][..1];
    }
    assert h.logs[a.term][..LastOf(a) + 1] == h.logs[a.term][..a.prevLogIndex + 1] + a.entries;
  }

  lemma OriginPrefix(h: History, log: Log, k: nat)
    requires Origin(h, log) && 1 <= k <= |log|
    ensures Origin(h, log[..k])
  {
  }

  lemma RejectionRetry(h: History, n: nat, srv: Server, oldTerm: nat, a: AppendArgs)
    requires LogOk(h, srv) && RecordsOk(h, n) && !Accepts(srv, a)
    ensures RetryOk(a, Rejection(srv, oldTerm, a))
  {
    if a.prevLogIndex < |srv.log| {
      assert RecordOk(h, n, srv.log[a.prevLogIndex].term);
      var start := TermStart(srv.log, a.prevLogIndex);
      assert srv.log[start].term == srv.log[a.prevLogIndex].term;
    }
  }

  lemma RecogniseServer(h: History, n: nat, srv: Server, s: nat, term: nat)
    requires ServerOk(h, n, srv, s) && term >= srv.currentTerm && term >= 1
    requires term in h.leaders ==> h.leaders[term] != s
    ensures ServerOk(h, n, Recognise(srv, term), s) && Recognise(srv, term).role == Follower && Recognise(srv, term).currentTerm == term
  {
    hide Origin, Below;
  }

  lemma AppendServer(h: History, n: nat, srv: Server, s: nat, a: AppendArgs)
    requires ServerOk(h, n, srv, s) && RecordsOk(h, n) && PieceOk(h, n, a) && a.leaderId != s
    ensures ServerOk(h, n, AppendNext(srv, a).0, s) && RetryOk(a, AppendNext(srv, a).1)
  {
    hide Below, Origin, TermStart, RecordOk, PieceOk;
    if a.term >= srv.currentTerm {
      PieceTerm(h, n, a);
      RecogniseServer(h, n, srv, s, a.term);
      var t := Recognise(srv, a.term);
      if Accepts(t, a) {
        SplicedServer(h, n, t, a);
      } else {
        RejectionRetry(h, n, t, srv.currentTerm, a);
      }
    }
  }

  lemma PieceTerm(h: History, n: nat, a: AppendArgs)
    requires RecordsOk(h, n) && PieceOk(h, n, a)
    ensures a.term >= 1 && a.term in h.leaders && h.leaders[a.term] == a.leaderId && a.term in h.logs && RecordOk(h, n, a.term)
  {
  }

  lemma SplicedServer(h: History, n: nat, srv: Server, a: AppendArgs)
    requires LogOk(h, srv) && PieceOk(h, n, a) && a.term in h.logs && RecordOk(h, n, a.term) && Accepts(srv, a) && a.term == srv.currentTerm
    ensures LogOk(h, srv.(log := SplicedLog(srv, a)))
  {
    SpliceResult(h, n, srv, a);
    OriginPrefix(h, h.logs[a.term], LastOf(a) + 1);
  }

  lemma DeliverAppendKeeps(c: Cluster, m: AppendMsg)
    requires Inv(c) && Enabled(c, DeliverAppend(m))
    ensures Inv(Apply(c, DeliverAppend(m)))
  {
    hide RecordOk, RequestOk, AnswerOk, ServerOk, PieceOk, RetryOk, AppendNext, Confirms, Grows, Quiet;
    var c', n := Apply(c, DeliverAppend(m)), |c.servers|;
    AppendServer(c.hist, n, c.servers[m.to], m.to, m.args);
    BookkeepingQuiet(c.hist, c'.hist);
    ServerQuiet(c.hist, c'.hist, n, c'.servers[m.to], m.to);
    PieceGrows(c.hist, c'.hist, n, m.args);
    RecordsSame(c.hist, c'.hist, n);
    Reassemble(c, c', m.to);
  }

  /** Scanning down a leader's log for a conflicting term never reaches the placeholder. */
  lemma {:induction false} ScanRange(log: Log, t: nat, i: nat)
    requires WellShaped(log) && i < |log| && t >= 1
    ensures ScanForTerm(log, t, i) == -1 || 1 <= ScanForTerm(log, t, i) <= i
    ensures ScanForTerm(log, t, i) >= 1 ==> log[ScanForTerm(log, t, i)].term == t
  {
    if i > 0 && log[i].term > t {
      ScanRange(log, t, i - 1);
    }
  }

  /** Fast rollback: a rejected probe strictly lowers the next index and keeps it at least 1. */
  lemma RollBackRange(h: History, n: nat, srv: Server, a: AppendArgs, r: AppendReply)
    requires LogOk(h, srv) && a.term in h.logs && h.logs[a.term] == srv.log && PieceOk(h, n, a)
    requires RetryOk(a, r) && !r.success && r.term <= a.term
    ensures 1 <= RollBack(srv, a, r) <= a.prevLogIndex
  {
    if !r.miss {
      ScanRange(srv.log, r.termConflict, a.prevLogIndex);
    }
  }

  lemma BookedServer(h: History, n: nat, srv: Server, s: nat, a: AppendAnswer, termTemp: nat)
    requires ServerOk(h, n, srv, s) && AckOk(h, n, a) && a.args.leaderId == s && termTemp <= a.args.term && srv.startAppend
    ensures ServerOk(h, n, Booked(srv, a.from, termTemp, a.args, a.reply), s)
  {
    hide Below, Origin, RetryOk, RollBack;
    if srv.role == Leader && termTemp >= srv.currentTerm && a.reply.term <= srv.currentTerm && !a.reply.success {
      RollBackRange(h, n, srv, a.args, a.reply);
    }
  }

  lemma AckServer(h: History, n: nat, srv: Server, s: nat, a: AppendAnswer, termTemp: nat)
    requires ServerOk(h, n, srv, s) && AckOk(h, n, a) && a.args.leaderId == s && termTemp <= a.args.term
    ensures ServerOk(h, n, AppendReplyNext(srv, a.from, termTemp, a.args, a.reply), s)
  {
    hide Below, Origin, RetryOk, Median, IsMedian, Booked, PieceOk;
    if srv.startAppend {
      BookedServer(h, n, srv, s, a, termTemp);
    }
  }

  lemma DeliverAckKeeps(c: Cluster, a: AppendAnswer, termTemp: nat)
    requires Inv(c) && Enabled(c, DeliverAck(a, termTemp))
    ensures Inv(Apply(c, DeliverAck(a, termTemp)))
  {
    hide RecordOk, RequestOk, AnswerOk, AppendOk, AckOk, ServerOk, AppendReplyNext;
    var c', n, s := Apply(c, DeliverAck(a, termTemp)), |c.servers|, a.args.leaderId;
    AckLeader(c.hist, n, a);
    AckServer(c.hist, n, c.servers[s], s, a, termTemp);
    GrowsSelf(c.hist);
    Reassemble(c, c', s);
  }

  lemma AckLeader(h: History, n: nat, a: AppendAnswer)
    requires AckOk(h, n, a)
    ensures a.args.leaderId < n
  {
  }

  lemma LoseAckKeeps(c: Cluster, s: nat)
    requires Inv(c) && Enabled(c, LoseAck(s))
    ensures Inv(Apply(c, LoseAck(s)))
  {
    hide RecordOk, RequestOk, AnswerOk, AppendOk, AckOk, Origin, Below, Median, IsMedian;
    GrowsSelf(c.hist);
    Reassemble(c, Apply(c, LoseAck(s)), s);
  }

  lemma RestartKeeps(c: Cluster, s: nat)
    requires Inv(c) && Enabled(c, Restart(s))
    ensures Inv(Apply(c, Restart(s)))
  {
    hide RecordOk, RequestOk, AnswerOk, AppendOk, AckOk, Origin, Below;
    GrowsSelf(c.hist);
    Reassemble(c, Apply(c, Restart(s)), s);
  }

  lemma StepKeeps(c: Cluster, step: Step)
    requires Inv(c) && Enabled(c, step)
    ensures Inv(Apply(c, step))
  {
    hide Inv;
    match step
    case Timeout(s) => TimeoutKeeps(c, s);
    case SendVote(s, term, to) => SendVoteKeeps(c, s, term, to);
    case DeliverVote(m) => DeliverVoteKeeps(c, m);
    case DeliverVoteAnswer(a) => DeliverVoteAnswerKeeps(c, a);
    case Elect(s) => ElectKeeps(c, s);
    case Submit(s, command) => SubmitKeeps(c, s, command);
    case SendAppend(s, to) => SendAppendKeeps(c, s, to);
    case DeliverAppend(m) => DeliverAppendKeeps(c, m);
    case DeliverAck(a, termTemp) => DeliverAckKeeps(c, a, termTemp);
    case LoseAck(s) => LoseAckKeeps(c, s);
    case Restart(s) => RestartKeeps(c, s);
  }

  lemma InitInv(c: Cluster)
    requires Init(c)
    ensures Inv(c)
  {
    hide Below;
    forall s | 0 <= s < |c.servers|
      ensures ServerOk(c.hist, |c.servers|, c.servers[s], s)
    {
      assert c.servers[s] == Fresh(s, |c.servers|);
    }
  }

  /** The invariant holds at every state of every run, whatever the network does. */
  lemma {:induction false} RunInv(run: seq<Cluster>, ordered: bool, i: nat)
    requires Run(run, ordered) && i < |run|
    ensures Inv(run[i])
  {
    hide Inv, Apply, Enabled;
    if i == 0 {
      InitInv(run[0]);
    } else {
      RunInv(run, ordered, i - 1);
      assert Next(run[i - 1], run[i - 1 + 1], ordered);
      var step :| Enabled(run[i - 1], step) && run[i] == Apply(run[i - 1], step);
      StepKeeps(run[i - 1], step);
    }
  }

  lemma TimeoutGrows(c: Cluster, s: nat)
    requires Inv(c) && Enabled(c, Timeout(s))
    ensures Grows(c.hist, Apply(c, Timeout(s)).hist)
  {
    hide RecordsOk, MessagesOk, Grows, VoteOk, CandidateOk, LeaderOk, LogOk;
    TimeoutServer(c.hist, Apply(c, Timeout(s)).hist, |c.servers|, c.servers[s], s);
  }

  lemma DeliverVoteGrows(c: Cluster, m: VoteMsg)
    requires Inv(c) && Enabled(c, DeliverVote(m))
    ensures Grows(c.hist, Apply(c, DeliverVote(m)).hist)
  {
    hide RecordsOk, RequestOk, AnswerOk, AppendOk, AckOk, Grows, ServerOk, RequestVoteNext;
    RequestBasics(c.hist, |c.servers|, m);
    RequestVoteServer(c.hist, Apply(c, DeliverVote(m)).hist, |c.servers|, c.servers[m.to], m.to, m.args);
  }

  lemma ElectStepGrows(c: Cluster, s: nat)
    requires Inv(c) && Enabled(c, Elect(s))
    ensures Grows(c.hist, Apply(c, Elect(s)).hist)
  {
    hide RecordsOk, MessagesOk, Grows, ServerOk;
    ElectServer(c.hist, Apply(c, Elect(s)).hist, |c.servers|, c.servers[s], s);
  }

  lemma SubmitGrows(c: Cluster, s: nat, command: Command)
    requires Inv(c) && Enabled(c, Submit(s, command))
    ensures Grows(c.hist, Apply(c, Submit(s, command)).hist)
  {
    hide RecordOk, MessagesOk, Grows, VoteOk, CandidateOk, LogOk;
    SubmitServer(c.hist, Apply(c, Submit(s, command)).hist, |c.servers|, c.servers[s], s, command);
  }

  lemma VoteAnswerGrows(c: Cluster, a: VoteAnswer)
    requires Enabled(c, DeliverVoteAnswer(a))
    ensures Grows(c.hist, Apply(c, DeliverVoteAnswer(a)).hist)
  {
    hide VoteReplyNext;
  }

  lemma SendAppendGrows(c: Cluster, s: nat, to: nat)
    requires Enabled(c, SendAppend(s, to))
    ensures Grows(c.hist, Apply(c, SendAppend(s, to)).hist)
  {
  }

  lemma DeliverAppendGrows(c: Cluster, m: AppendMsg)
    requires Enabled(c, DeliverAppend(m))
    ensures Grows(c.hist, Apply(c, DeliverAppend(m)).hist)
  {
    hide AppendNext, AppendSeen, Grows;
    SeenGrows(c.hist, c.servers[m.to], m);
  }

  lemma SeenGrows(h: History, srv: Server, m: AppendMsg)
    ensures Grows(h, AppendSeen(h, srv, m))
  {
    hide Confirms;
  }

  lemma RestGrows(c: Cluster, step: Step)
    requires Enabled(c, step) && (step.SendVote? || step.DeliverAck? || step.LoseAck? || step.Restart?)
    ensures Grows(c.hist, Apply(c, step).hist)
  {
    hide AppendReplyNext, NoReplyNext, RestartNext;
  }

  /** Terms led, logs of leaders and votes are never forgotten or changed. */
  lemma StepGrows(c: Cluster, step: Step)
    requires Inv(c) && Enabled(c, step)
    ensures Grows(c.hist, Apply(c, step).hist)
  {
    hide Inv, Grows, Apply, Enabled;
    match step
    case Timeout(s) => TimeoutGrows(c, s);
    case DeliverVote(m) => DeliverVoteGrows(c, m);
    case DeliverVoteAnswer(a) => VoteAnswerGrows(c, a);
    case Elect(s) => ElectStepGrows(c, s);
    case Submit(s, command) => SubmitGrows(c, s, command);
    case SendAppend(s, to) => SendAppendGrows(c, s, to);
    case DeliverAppend(m) => DeliverAppendGrows(c, m);
    case _ => RestGrows(c, step);
  }

  lemma RequestBasics(h: History, n: nat, m: VoteMsg)
    requires RequestOk(h, n, m)
    ensures m.args.candidateId < n && m.args.candidateId != m.to && m.args.term >= 1
  {
  }

  lemma GrowsTransitive(h: History, h1: History, h2: History)
    requires Grows(h, h1) && Grows(h1, h2)
    ensures Grows(h, h2)
  {
  }

  lemma {:induction false} RunGrows(run: seq<Cluster>, ordered: bool, i: nat, j: nat)
    requires Run(run, ordered) && i <= j < |run|
    ensures Grows(run[i].hist, run[j].hist)
  {
    hide Inv, Grows, Apply, Enabled, Init;
    if i == j {
      GrowsSelf(run[i].hist);
    } else {
      RunGrows(run, ordered, i, j - 1);
      assert Next(run[j - 1], run[j - 1 + 1], ordered);
      var step :| Enabled(run[j - 1], step) && run[j] == Apply(run[j - 1], step);
      RunInv(run, ordered, j - 1);
      StepGrows(run[j - 1], step);
      GrowsTransitive(run[i].hist, run[j - 1].hist, run[j].hist);
    }
  }

  // ----- the theorems -----

  /** Election safety: over a whole run, with crashes and restarts, at most one server ever leads a term. */
  lemma ElectionSafety(run: seq<Cluster>, ordered: bool, i: nat, j: nat, a: nat, b: nat)
    requires Run(run, ordered) && i < |run| && j < |run|
    requires a < |run[i].servers| && b < |run[j].servers|
    requires run[i].servers[a].role == Leader && run[j].servers[b].role == Leader
    requires run[i].servers[a].currentTerm == run[j].servers[b].currentTerm
    ensures a == b
  {
    hide Run;
    RunInv(run, ordered, i);
    RunInv(run, ordered, j);
    assert LeaderOk(run[i].hist, run[i].servers[a], a);
    assert LeaderOk(run[j].hist, run[j].servers[b], b);
    if i <= j {
      RunGrows(run, ordered, i, j);
    } else {
      RunGrows(run, ordered, j, i);
    }
  }

  /** Log matching, with any loss, delay, duplication and reordering: logs that have the same term at
      an index are identical up to it, even when they are taken at different moments. */
  lemma LogMatching(run: seq<Cluster>, ordered: bool, i: nat, j: nat, a: nat, b: nat, k: nat)
    requires Run(run, ordered) && i < |run| && j < |run|
    requires a < |run[i].servers| && b < |run[j].servers|
    requires k < |run[i].servers[a].log| && k < |run[j].servers[b].log|
    requires run[i].servers[a].log[k].term == run[j].servers[b].log[k].term
    ensures run[i].servers[a].log[..k + 1] == run[j].servers[b].log[..k + 1]
  {
    hide Run;
    RunInv(run, ordered, i);
    RunInv(run, ordered, j);
    var x, y := run[i].servers[a], run[j].servers[b];
    assert LogOk(run[i].hist, x) && LogOk(run[j].hist, y);
    var later := if i <= j then j else i;
    if i <= j {
      RunGrows(run, ordered, i, j);
      OriginGrows(run[i].hist, run[j].hist, x.log);
    } else {
      RunGrows(run, ordered, j, i);
      OriginGrows(run[j].hist, run[i].hist, y.log);
    }
    if k > 0 {
      SameTermSamePrefix(run[later].hist, x.log, y.log, k);
    }
  }
}
