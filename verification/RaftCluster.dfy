/** A cluster of Raft servers as a step system: every lock-held handler body of src/raft/raft.go is
    one atomic step, messages may be lost, delayed, duplicated and reordered, and servers may crash
    and restart from what they persisted.  The `History` records what the proofs talk about. */
module RaftCluster {
  import opened Collections
  import opened Raft
  import opened KvCommands

  datatype VoteMsg = VoteMsg(to: nat, args: VoteArgs)
  datatype VoteAnswer = VoteAnswer(from: nat, args: VoteArgs, reply: VoteReply)
  datatype AppendMsg = AppendMsg(to: nat, args: AppendArgs, stamp: nat)
  datatype AppendAnswer = AppendAnswer(from: nat, args: AppendArgs, reply: AppendReply)

  datatype History = History(
    logs: map<nat, Log>,             // for every term with a leader, that leader's log
    leaders: map<nat, nat>,          // who led the term
    elected: map<nat, nat>,          // the length of the leader's log when it was elected
    quorums: map<nat, set<nat>>,     // whose votes elected it
    ballots: map<(nat, nat), nat>,   // (server, term) to the candidate it voted for
    tally: map<nat, set<nat>>,       // for every server, whose votes its latest election has counted
    acked: map<(nat, nat), nat>,     // (server, term) to the last index it accepted from that term's leader
    led: map<nat, nat>,              // for every server, the latest term it led
    seen: map<(nat, nat), nat>,      // (server, term) to one past the last append stamp delivered
    clock: nat)                      // the next append stamp

  datatype Cluster = Cluster(
    servers: seq<Server>, requests: set<VoteMsg>, answers: set<VoteAnswer>,
    appends: set<AppendMsg>, acks: set<AppendAnswer>, hist: History)

  function Acked(h: History, s: nat, t: nat): nat {
    if (s, t) in h.acked then h.acked[(s, t)] else 0
  }

  function Seen(h: History, s: nat, t: nat): nat {
    if (s, t) in h.seen then h.seen[(s, t)] else 0
  }

  function Tally(h: History, s: nat): set<nat> {
    if s in h.tally then h.tally[s] else {}
  }

  function Voted(h: History, s: nat, t: nat): int {
    if (s, t) in h.ballots then h.ballots[(s, t)] else -1
  }

  function Fresh(me: nat, n: nat): Server {
    Server(me, Follower, 0, -1, [PLACEHOLDER], 0, seq(n, _ => 1), seq(n, _ => 0), 0, false, 0, 0)
  }

  ghost predicate Init(c: Cluster) {
    && |c.servers| >= 1
    && (forall s :: 0 <= s < |c.servers| ==> c.servers[s] == Fresh(s, |c.servers|))
    && c.requests == {} && c.answers == {} && c.appends == {} && c.acks == {}
    && c.hist == History(map[], map[], map[], map[], map[], map[], map[], map[], map[], 0)
  }

  datatype Step =
    | Timeout(s: nat)
    | SendVote(s: nat, term: nat, to: nat)
    | DeliverVote(request: VoteMsg)
    | DeliverVoteAnswer(answer: VoteAnswer)
    | Elect(s: nat)
    | Submit(s: nat, command: Command)
    | SendAppend(s: nat, to: nat)
    | DeliverAppend(append: AppendMsg)
    | DeliverAck(ack: AppendAnswer, termTemp: nat)
    | LoseAck(s: nat)
    | Restart(s: nat)

  /** Every peer is asked once per election, so its answer is counted once. */
  predicate Counts(srv: Server, a: VoteAnswer) {
    srv.currentTerm <= a.args.term && a.reply.term <= srv.currentTerm && a.reply.voteGranted
  }

  /** The append is not rejected for its term or its previous entry, and carries or confirms something. */
  predicate Confirms(srv: Server, a: AppendArgs) {
    a.term >= srv.currentTerm && Accepts(Recognise(srv, a.term), a) && LastOf(a) > 0
  }

  /** The history once server srv has handled append m. */
  function AppendSeen(h: History, srv: Server, m: AppendMsg): History {
    var at := (m.to, m.args.term);
    h.(seen := h.seen[at := Max(Seen(h, at.0, at.1), m.stamp + 1)],
       acked := if Confirms(srv, m.args) then h.acked[at := Max(Acked(h, at.0, at.1), LastOf(m.args))] else h.acked)
  }

  /** What step `step` makes of the cluster. */
  ghost function Apply(c: Cluster, step: Step): Cluster
    requires Enabled(c, step)
  {
    var h := c.hist;
    match step
    case Timeout(s) =>
      var srv := StartElectionNext(c.servers[s]);
      c.(servers := c.servers[s := srv],
         hist := h.(ballots := h.ballots[(s, srv.currentTerm) := s], tally := h.tally[s := {s}]))
    case SendVote(s, term, to) =>
      c.(requests := c.requests + {VoteMsg(to, VoteRequestOf(c.servers[s], term))})
    case DeliverVote(m) =>
      var (srv, reply) := RequestVoteNext(c.servers[m.to], m.args);
      c.(servers := c.servers[m.to := srv], answers := c.answers + {VoteAnswer(m.to, m.args, reply)},
         hist := if reply.voteGranted then h.(ballots := h.ballots[(m.to, m.args.term) := m.args.candidateId]) else h)
    case DeliverVoteAnswer(a) =>
      var s := a.args.candidateId;
      c.(servers := c.servers[s := VoteReplyNext(c.servers[s], a.args.term, a.reply)],
         hist := if Counts(c.servers[s], a) then h.(tally := h.tally[s := Tally(h, s) + {a.from}]) else h)
    case Elect(s) =>
      var t, log := c.servers[s].currentTerm, c.servers[s].log;
      c.(servers := c.servers[s := BecomeLeaderNext(c.servers[s])],
         hist := h.(logs := h.logs[t := log], leaders := h.leaders[t := s], elected := h.elected[t := |log|],
                    quorums := h.quorums[t := Tally(h, s)], led := h.led[s := t]))
    case Submit(s, command) =>
      var srv := StartNext(c.servers[s], command);
      var t := srv.currentTerm;
      c.(servers := c.servers[s := srv],
         hist := h.(logs := h.logs[t := srv.log], acked := h.acked[(s, t) := Max(Acked(h, s, t), |srv.log| - 1)]))
    case SendAppend(s, to) =>
      c.(appends := c.appends + {AppendMsg(to, AppendOf(c.servers[s], to), h.clock)}, hist := h.(clock := h.clock + 1))
    case DeliverAppend(m) =>
      var (srv, reply) := AppendNext(c.servers[m.to], m.args);
      c.(servers := c.servers[m.to := srv], acks := c.acks + {AppendAnswer(m.to, m.args, reply)},
         hist := AppendSeen(h, c.servers[m.to], m))
    case DeliverAck(a, termTemp) =>
      var s := a.args.leaderId;
      c.(servers := c.servers[s := AppendReplyNext(c.servers[s], a.from, termTemp, a.args, a.reply)])
    case LoseAck(s) =>
      c.(servers := c.servers[s := NoReplyNext(c.servers[s])])
    case Restart(s) =>
      c.(servers := c.servers[s := RestartNext(c.servers[s])])
  }

  /** When a step can happen. */
  ghost predicate Enabled(c: Cluster, step: Step) {
    var n := |c.servers|;
    && (forall s :: 0 <= s < n ==> Sized(c.servers[s], s, n))
    && match step
       case Timeout(s) => s < n
       case SendVote(s, term, to) => s < n && to < n && to != s && Voted(c.hist, s, term) == s
       case DeliverVote(m) => m in c.requests && m.to < n
       case DeliverVoteAnswer(a) =>
         a in c.answers && a.args.candidateId < n
         && (Counts(c.servers[a.args.candidateId], a) ==> a.from !in Tally(c.hist, a.args.candidateId))
       case Elect(s) => s < n && Wins(c.servers[s], n)
       case Submit(s, _) => s < n && c.servers[s].role == Leader
       case SendAppend(s, to) => s < n && to < n && to != s && CanSend(c.servers[s], to)
       case DeliverAppend(m) => m in c.appends && m.to < n
       case DeliverAck(a, termTemp) => a in c.acks && a.args.leaderId < n && a.from < n && termTemp <= a.args.term
       case LoseAck(s) => s < n
       case Restart(s) => s < n
  }

  predicate Sized(srv: Server, s: nat, n: nat) {
    srv.me == s < n && |srv.log| >= 1 && |srv.nextIndex| == |srv.matchIndex| == n
  }

  /** Handling the append changes nothing the receiver has acknowledged to the same leader: it is refused or
      says nothing, or reaches as far, or ends at an entry of its own term. */
  predicate Harmless(h: History, srv: Server, m: AppendMsg) {
    || !Confirms(srv, m.args)
    || LastOf(m.args) >= Acked(h, m.to, m.args.term)
    || (LastOf(m.args) < |srv.log| && srv.log[LastOf(m.args)].term == m.args.term)
  }

  /** Appends of one leader and term reach a follower in the order they were sent; some may be lost, and one
      that has been overtaken is harmless. */
  ghost predicate InOrder(c: Cluster, step: Step) {
    step.DeliverAppend? && step.append.to < |c.servers| ==>
      var m := step.append;
      m.stamp >= Seen(c.hist, m.to, m.args.term) || Harmless(c.hist, c.servers[m.to], m)
  }

  ghost predicate Next(c: Cluster, c': Cluster, ordered: bool) {
    exists step :: Enabled(c, step) && (ordered ==> InOrder(c, step)) && c' == Apply(c, step)
  }

  /** A run: a finite sequence of states from an initial one, each a step from the one before. */
  ghost predicate Run(run: seq<Cluster>, ordered: bool) {
    && run != []
    && Init(run[0])
    && forall i :: 0 <= i < |run| - 1 ==> Next(run[i], run[i + 1], ordered)
  }
}
