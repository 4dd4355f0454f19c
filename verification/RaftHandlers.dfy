/** What the handlers of src/raft/raft.go do, in the protocol's own words: absolute indexes, whether or not part
    of the log has gone into a snapshot, and both when something happens and when it does not. */
module RaftHandlers {
  import opened Collections
  import opened Raft
  import opened Compaction
  import opened KvCommands

  // ----- votes -----

  /** Position (term, index) is at least (term', index'): the later term wins, then the longer log. */
  predicate AtLeast(term: nat, index: int, term': nat, index': int) {
    term > term' || (term == term' && index >= index')
  }

  /** Of any two servers, at least one may vote for the other: the up-to-date test is total. */
  lemma UpToDateTotal(s: Server, t: Server, term: nat)
    requires |s.log| >= 1 && |t.log| >= 1
    ensures UpToDate(s, VoteRequestOf(t, term)) || UpToDate(t, VoteRequestOf(s, term))
  {
  }

  lemma UpToDateTransitive(s: Server, t: Server, u: Server, term: nat)
    requires |s.log| >= 1 && |t.log| >= 1 && |u.log| >= 1
    requires UpToDate(s, VoteRequestOf(t, term)) && UpToDate(t, VoteRequestOf(u, term))
    ensures UpToDate(s, VoteRequestOf(u, term))
  {
  }

  /** The last entry's absolute index and term, or the snapshot's when nothing follows it. */
  lemma PositionMeaning(s: Server)
    requires |s.log| >= 1
    ensures (forall i: nat :: InLog(s, i) ==> i <= LastIndex(s)) && LastIndex(s) >= s.snapshotIndex
    ensures LastIndex(s) > s.snapshotIndex ==> InLog(s, LastIndex(s)) && LastTerm(s) == EntryAt(s, LastIndex(s)).term
    ensures LastIndex(s) == s.snapshotIndex ==> LastTerm(s) == s.snapshotTerm
    ensures forall term: nat :: VoteRequestOf(s, term) == VoteArgs(term, s.me, LastIndex(s), LastTerm(s))
  {
  }

  /** When a vote is given, and when it is not: the request is not of an older term, no other candidate has the
      vote in that term, and the candidate's log is at least as far on. */
  lemma VoteGrantedIff(s: Server, args: VoteArgs)
    requires |s.log| >= 1
    ensures var free := args.term > s.currentTerm || s.votedFor == -1 || s.votedFor == args.candidateId;
      RequestVoteNext(s, args).1.voteGranted
      <==> args.term >= s.currentTerm && free && AtLeast(args.lastLogTerm, args.lastLogIndex, LastTerm(s), LastIndex(s))
  {
  }

  /** What is left of the server after a vote request: only term, vote and role can have changed. */
  lemma VoteEffect(s: Server, args: VoteArgs)
    requires |s.log| >= 1
    ensures var (s', reply) := RequestVoteNext(s, args); var newer := args.term > s.currentTerm;
      && s' == s.(currentTerm := s'.currentTerm, votedFor := s'.votedFor, role := s'.role)
      && s'.currentTerm == Max(s.currentTerm, args.term)
      && s'.votedFor == (if reply.voteGranted then args.candidateId else if newer then -1 else s.votedFor)
      && s'.role == (if newer then Follower else s.role)
      && reply.term == s.currentTerm
  {
  }

  /** Starting an election: the next term, with one's own vote and nobody else's; asking oneself would succeed. */
  lemma CampaignEffect(s: Server)
    requires |s.log| >= 1
    ensures var s' := StartElectionNext(s);
      && s' == s.(currentTerm := s.currentTerm + 1, votedFor := s.me, role := Candidate, voteCount := 1)
      && RequestVoteNext(s', VoteRequestOf(s', s'.currentTerm)).1.voteGranted
      && forall t: Server :: |t.log| >= 1 && t.me != s.me ==> !RequestVoteNext(s', VoteRequestOf(t, s'.currentTerm)).1.voteGranted
  {
  }

  /** A vote is counted exactly when it belongs to the running term or a later one and no newer term is known. */
  lemma VoteCounted(s: Server, termTemp: nat, reply: VoteReply)
    ensures var s' := VoteReplyNext(s, termTemp, reply); var late, newer := termTemp < s.currentTerm, reply.term > s.currentTerm;
      && s'.voteCount == s.voteCount + (if !late && !newer && reply.voteGranted then 1 else 0)
      && s'.currentTerm == (if !late && newer then reply.term else s.currentTerm)
      && s'.votedFor == (if !late && newer then -1 else s.votedFor)
      && s'.role == (if !late && newer then Follower else s.role)
      && s' == s.(voteCount := s'.voteCount, currentTerm := s'.currentTerm, votedFor := s'.votedFor, role := s'.role)
  {
  }

  /** A candidate wins exactly with more than half of the votes. */
  lemma WinsIffMajority(s: Server, peers: nat)
    ensures Wins(s, peers) <==> s.role == Candidate && 2 * s.voteCount > peers
  {
  }

  lemma LeaderEffect(s: Server)
    ensures var s' := BecomeLeaderNext(s);
      && s' == s.(role := Leader, nextIndex := s'.nextIndex, matchIndex := s'.matchIndex, startAppend := false)
      && |s'.nextIndex| == |s.nextIndex| && (forall j :: 0 <= j < |s.nextIndex| ==> s'.nextIndex[j] + s'.snapshotIndex == LastIndex(s) + 1)
      && |s'.matchIndex| == |s.matchIndex| && (forall j :: 0 <= j < |s.matchIndex| ==> s'.matchIndex[j] == 0)
  {
  }

  // ----- appends -----

  /** What a leader sends a follower: everything after the entry it takes the follower to hold, and that
      entry's term; it can send exactly when it leads and that entry is its snapshot's last or later. */
  lemma SentMeaning(s: Server, server: nat)
    requires |s.log| >= 1 && server < |s.nextIndex| && s.nextIndex[server] <= |s.log|
    ensures CanSend(s, server) <==> s.role == Leader && s.nextIndex[server] + s.snapshotIndex > s.snapshotIndex
    ensures CanSend(s, server) ==>
      var a := AppendOf(s, server);
      && a.term == s.currentTerm && a.leaderId == s.me && a.leaderCommit == s.commitIndex
      && a.prevLogIndex + 1 == s.nextIndex[server] + s.snapshotIndex && LastOf(a) == LastIndex(s)
      && a.prevLogTerm == (if a.prevLogIndex == s.snapshotIndex then s.snapshotTerm else EntryAt(s, a.prevLogIndex).term)
      && forall i: nat :: a.prevLogIndex < i <= LastOf(a) ==> InLog(s, i) && a.entries[i - a.prevLogIndex - 1] == EntryAt(s, i)
  {
  }

  /** An append matches when the entry before it is covered by the snapshot or has the same term here. */
  lemma AcceptsIff(s: Server, a: AppendArgs)
    requires |s.log| >= 1
    ensures Accepts(s, a)
      <==> a.prevLogIndex <= s.snapshotIndex || (InLog(s, a.prevLogIndex) && EntryAt(s, a.prevLogIndex).term == a.prevLogTerm)
  {
  }

  /** The log goes on beyond the append, which ends at an entry of its own term. */
  predicate Held(s: Server, a: AppendArgs) {
    InLog(s, LastOf(a)) && LastOf(a) < LastIndex(s) && EntryAt(s, LastOf(a)).term == a.term
  }

  /** After a matching append: unless it is held already or ends within the snapshot, the log ends where the
      append does, holds the append's entries above its previous index, and is as it was below. */
  lemma SpliceMeaning(s: Server, a: AppendArgs)
    requires |s.log| >= 1 && Accepts(s, a)
    ensures var s' := s.(log := SplicedLog(s, a));
      if Held(s, a) || LastOf(a) <= s.snapshotIndex then s' == s
      else
        && LastIndex(s') == LastOf(a)
        && (forall i: nat :: InLog(s', i) && i > a.prevLogIndex ==> EntryAt(s', i) == a.entries[i - a.prevLogIndex - 1])
        && (forall i: nat :: InLog(s', i) && i <= a.prevLogIndex ==> InLog(s, i) && EntryAt(s', i) == EntryAt(s, i))
        && (s.log[0] == PLACEHOLDER ==> s'.log[0] == PLACEHOLDER)
  {
    var s' := s.(log := SplicedLog(s, a));
    assert LastOf(a) > s.snapshotIndex ==> (AlreadyHas(s, a) <==> Held(s, a));
    if !Held(s, a) && LastOf(a) > s.snapshotIndex {
      if a.prevLogIndex > s.snapshotIndex {
        assert s'.log == s.log[..a.prevLogIndex + 1 - s.snapshotIndex] + a.entries;
      } else {
        assert s'.log == [PLACEHOLDER] + a.entries[s.snapshotIndex - a.prevLogIndex..];
      }
    }
  }

  /** The follower's commit index: as far as the leader's, but no further than its own log. */
  lemma CommitMeaning(s: Server, leaderCommit: nat)
    requires |s.log| >= 1
    ensures var s' := FollowCommit(s, leaderCommit);
      && s' == s.(commitIndex := s'.commitIndex)
      && s'.commitIndex == (if leaderCommit <= s.commitIndex then s.commitIndex
                            else if leaderCommit <= LastIndex(s) then leaderCommit else LastIndex(s))
  {
  }

  /** The hints of a refusal: the log's length when it is too short, otherwise the term found and the first
      index from which on it stands. */
  ghost predicate Hints(s: Server, a: AppendArgs, reply: AppendReply) {
    if a.prevLogIndex > LastIndex(s) then reply.miss && reply.len == LastIndex(s) + 1
    else
      && InLog(s, a.prevLogIndex) && !reply.miss && reply.termConflict == EntryAt(s, a.prevLogIndex).term
      && s.snapshotIndex <= reply.termStart <= a.prevLogIndex
      && (forall i: nat :: InLog(s, i) && reply.termStart <= i <= a.prevLogIndex ==> EntryAt(s, i).term == reply.termConflict)
      && (reply.termStart > 0 && InLog(s, reply.termStart - 1) ==> EntryAt(s, reply.termStart - 1).term != reply.termConflict)
  }

  lemma RejectionMeaning(s: Server, oldTerm: nat, a: AppendArgs)
    requires |s.log| >= 1 && !Accepts(s, a)
    ensures var reply := Rejection(s, oldTerm, a); !reply.success && reply.term == oldTerm && Hints(s, a, reply)
  {
    if a.prevLogIndex <= LastIndex(s) {
      var p := a.prevLogIndex - s.snapshotIndex;
      var start := TermStart(s.log, p);
      var reply := Rejection(s, oldTerm, a);
      forall i: nat | InLog(s, i) && reply.termStart <= i <= a.prevLogIndex
        ensures EntryAt(s, i).term == reply.termConflict
      {
        assert s.log[i - s.snapshotIndex].term == s.log[p].term;
      }
    }
  }

  /** AppendEntries as a whole: what it answers, and everything it changes. */
  lemma AppendEffect(s: Server, a: AppendArgs)
    requires |s.log| >= 1
    ensures var (s', reply) := AppendNext(s, a);
      var matches := a.prevLogIndex <= s.snapshotIndex || (InLog(s, a.prevLogIndex) && EntryAt(s, a.prevLogIndex).term == a.prevLogTerm);
      && reply.term == s.currentTerm
      && (reply.success <==> a.term >= s.currentTerm && matches)
      && s' == s.(currentTerm := s'.currentTerm, votedFor := s'.votedFor, role := s'.role, log := s'.log, commitIndex := s'.commitIndex)
      && s'.currentTerm == Max(s.currentTerm, a.term)
      && s'.votedFor == (if a.term > s.currentTerm then -1 else s.votedFor)
      && s'.role == (if a.term > s.currentTerm || (a.term == s.currentTerm && s.role == Candidate) then Follower else s.role)
      && (!reply.success ==> s'.log == s.log && s'.commitIndex == s.commitIndex)
      && (!reply.success && a.term >= s.currentTerm ==> Hints(s, a, reply))
      && (reply.success ==> s'.log == SplicedLog(s, a) && s'.commitIndex == FollowCommit(s.(log := s'.log), a.leaderCommit).commitIndex)
  {
    hide SplicedLog, Rejection;
    AcceptsIff(s, a);
    if a.term >= s.currentTerm {
      var t := Recognise(s, a.term);
      SameLogSplice(s, t, a);
      if !Accepts(t, a) {
        RejectionMeaning(t, s.currentTerm, a);
        SameHints(t, s, a, Rejection(t, s.currentTerm, a));
      }
    }
  }

  lemma SameLogSplice(s: Server, t: Server, a: AppendArgs)
    requires t.log == s.log && t.snapshotIndex == s.snapshotIndex && |s.log| >= 1
    ensures (Accepts(t, a) <==> Accepts(s, a)) && (Accepts(s, a) ==> SplicedLog(t, a) == SplicedLog(s, a))
  {
  }

  lemma SameHints(s: Server, t: Server, a: AppendArgs, reply: AppendReply)
    requires t.log == s.log && t.snapshotIndex == s.snapshotIndex && Hints(s, a, reply)
    ensures Hints(t, a, reply)
  {
    assert forall i: nat :: InLog(t, i) ==> InLog(s, i) && EntryAt(t, i) == EntryAt(s, i);
  }

  // ----- answers -----

  /** Index i holds an entry of the term, at or below `prev`. */
  predicate HoldsTerm(s: Server, term: nat, prev: nat, i: nat) {
    InLog(s, i) && i <= prev && EntryAt(s, i).term == term
  }

  /** Where the leader probes next after a refusal, in absolute indexes: the follower's length, or the last index
      of the conflicting term that the leader has, or else where that term starts in the follower's log. */
  lemma RollBackMeaning(s: Server, a: AppendArgs, reply: AppendReply)
    requires WellShaped(s.log) && Monotone(s.log[1..]) && reply.termConflict >= 1
    requires s.snapshotIndex <= a.prevLogIndex <= LastIndex(s)
    ensures var next := RollBack(s, a, reply) + s.snapshotIndex;
      && (reply.miss ==> next == reply.len)
      && (!reply.miss && next >= 0 && HoldsTerm(s, reply.termConflict, a.prevLogIndex, next) ==>
            forall i: nat :: HoldsTerm(s, reply.termConflict, a.prevLogIndex, i) ==> i <= next)
      && (!reply.miss && !(next >= 0 && HoldsTerm(s, reply.termConflict, a.prevLogIndex, next)) ==>
            next == reply.termStart && forall i: nat :: !HoldsTerm(s, reply.termConflict, a.prevLogIndex, i))
  {
    if !reply.miss {
      MonotoneWhole(s.log);
      ScanMeaning(s.log, reply.termConflict, a.prevLogIndex - s.snapshotIndex);
    }
  }

  lemma MonotoneWhole(log: Log)
    requires WellShaped(log) && Monotone(log[1..])
    ensures Monotone(log)
  {
    forall i, j | 0 <= i <= j < |log|
      ensures log[i].term <= log[j].term
    {
      if i > 0 {
        assert log[1..][i - 1] == log[i] && log[1..][j - 1] == log[j];
      }
    }
  }

  /** The leader's bookkeeping for an answer: what it takes the follower to hold, and nothing else. */
  lemma AnswerEffect(s: Server, server: nat, termTemp: nat, a: AppendArgs, reply: AppendReply)
    requires server < |s.nextIndex| == |s.matchIndex|
    ensures var s' := Booked(s, server, termTemp, a, reply);
      var newer := reply.term > s.currentTerm;
      var current := termTemp >= s.currentTerm && !newer && s.nextIndex[server] + s.snapshotIndex == a.prevLogIndex + 1;
      && |s'.nextIndex| == |s.nextIndex| == |s'.matchIndex|
      && (termTemp < s.currentTerm ==> s' == s)
      && (termTemp >= s.currentTerm && newer ==> s' == s.(currentTerm := reply.term, role := Follower, votedFor := -1))
      && (termTemp >= s.currentTerm && !newer ==> s' == s.(nextIndex := s'.nextIndex, matchIndex := s'.matchIndex))
      && (termTemp >= s.currentTerm && !newer && !current ==> s' == s)
      && (forall j :: 0 <= j < |s.nextIndex| && j != server ==> s'.nextIndex[j] == s.nextIndex[j] && s'.matchIndex[j] == s.matchIndex[j])
      && (current && reply.success && a.entries != [] ==>
            s'.nextIndex[server] + s.snapshotIndex == LastOf(a) + 1 && s'.matchIndex[server] == Max(s.matchIndex[server], LastOf(a)))
      && (current && reply.success && a.entries == [] ==> s' == s)
      && (current && !reply.success ==> s'.matchIndex == s.matchIndex && s'.nextIndex[server] == RollBack(s, a, reply))
  {
    hide RollBack;
  }

  // ----- crashes -----

  /** A crash forgets nothing the protocol relies on: the restarted server answers every vote request and every
      append as it would have before, and ends up with the same term, vote and log. */
  lemma RestartKeepsPromises(s: Server, args: VoteArgs, a: AppendArgs)
    requires |s.log| >= 1 && (s.currentTerm == 0 ==> s.votedFor == -1)
    ensures var r := RestartNext(s);
      && r.currentTerm == s.currentTerm && r.votedFor == s.votedFor && r.log == s.log
      && r.snapshotIndex == s.snapshotIndex && r.snapshotTerm == s.snapshotTerm && r.me == s.me
      && r.role == Follower && r.commitIndex == s.snapshotIndex && !r.startAppend && r.voteCount == 0
      && RequestVoteNext(r, args).1 == RequestVoteNext(s, args).1
      && RequestVoteNext(r, args).0.votedFor == RequestVoteNext(s, args).0.votedFor
      && AppendNext(r, a).1 == AppendNext(s, a).1
      && AppendNext(r, a).0.log == AppendNext(s, a).0.log
  {
    hide SplicedLog, Rejection;
    SameLogSplice(s, RestartNext(s), a);
    if a.term >= s.currentTerm {
      SameLogSplice(Recognise(s, a.term), Recognise(RestartNext(s), a.term), a);
      SameRejection(Recognise(s, a.term), Recognise(RestartNext(s), a.term), s.currentTerm, a);
    }
  }

  lemma SameRejection(s: Server, t: Server, oldTerm: nat, a: AppendArgs)
    requires t.log == s.log && t.snapshotIndex == s.snapshotIndex
    ensures (Accepts(t, a) <==> Accepts(s, a)) && (!Accepts(s, a) ==> Rejection(t, oldTerm, a) == Rejection(s, oldTerm, a))
  {
  }
}
