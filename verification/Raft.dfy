/** One Raft server (src/raft/raft.go).  `Server` is the value of its fields; the functions below say
    what each lock-held handler body does to them, and the class carries the handlers themselves. */
module Raft {
  import opened Collections
  import opened KvCommands

  datatype LogEntry = LogEntry(command: Command, term: nat)

  /** Index 0 always holds a placeholder of term 0. */
  type Log = seq<LogEntry>

  const PLACEHOLDER := LogEntry(NoOp(""), 0)

  datatype Role = Follower | Candidate | Leader

  datatype Server = Server(
    me: nat, role: Role, currentTerm: nat, votedFor: int, log: Log,
    commitIndex: nat, nextIndex: seq<int>, matchIndex: seq<nat>, voteCount: nat, startAppend: bool,
    snapshotIndex: nat, snapshotTerm: nat)

  datatype VoteArgs = VoteArgs(term: nat, candidateId: nat, lastLogIndex: nat, lastLogTerm: nat)
  datatype VoteReply = VoteReply(term: nat, voteGranted: bool)

  datatype AppendArgs = AppendArgs(term: nat, leaderId: nat, prevLogIndex: nat, prevLogTerm: nat, entries: Log, leaderCommit: nat)
  datatype AppendReply = AppendReply(term: nat, success: bool, miss: bool, termConflict: nat, termStart: nat, len: nat)

  // ----- logs -----

  predicate WellShaped(log: Log) {
    |log| >= 1 && log[0] == PLACEHOLDER
  }

  /** Terms do not decrease along the log. */
  ghost predicate Monotone(log: Log) {
    forall i, j :: 0 <= i <= j < |log| ==> log[i].term <= log[j].term
  }

  function LastIndex(s: Server): int {
    |s.log| - 1 + s.snapshotIndex
  }

  function LastTerm(s: Server): nat
    requires |s.log| >= 1
  {
    if |s.log| == 1 then s.snapshotTerm else s.log[|s.log| - 1].term
  }

  /** The first index of the run of equal terms that ends at p. */
  function TermStart(log: Log, p: nat): (start: nat)
    requires p < |log|
    ensures start <= p
    ensures forall k :: start <= k <= p ==> log[k].term == log[p].term
    ensures start > 0 ==> log[start - 1].term != log[p].term
  {
    if p > 0 && log[p - 1].term == log[p].term then TermStart(log, p - 1) else p
  }

  /** The scan of findLast: down from i until term t, or something older, is met. */
  function ScanForTerm(log: Log, t: nat, i: int): int
    requires i < |log|
    decreases i + 1
  {
    if i < 0 then 0
    else if log[i].term == t then i
    else if log[i].term < t then -1
    else ScanForTerm(log, t, i - 1)
  }

  /** What findLast promises, which rests on terms not decreasing: the last index up to `start` that
      holds term t, or -1 exactly when there is none. */
  lemma {:induction false} ScanMeaning(log: Log, t: nat, start: nat)
    requires WellShaped(log) && Monotone(log) && start < |log|
    ensures var r := ScanForTerm(log, t, start);
      && (r == -1 <==> forall k :: 0 <= k <= start ==> log[k].term != t)
      && (r != -1 ==> 0 <= r <= start && log[r].term == t && forall k :: r < k <= start ==> log[k].term != t)
  {
    if log[start].term > t {
      ScanMeaning(log, t, start - 1);
    }
  }

  // ----- elections -----

  function StepDown(s: Server, term: nat): Server {
    s.(currentTerm := term, role := Follower, votedFor := -1)
  }

  /** The candidate's log is at least as up to date as ours. */
  predicate UpToDate(s: Server, args: VoteArgs)
    requires |s.log| >= 1
  {
    args.lastLogTerm > LastTerm(s) || (args.lastLogTerm == LastTerm(s) && args.lastLogIndex >= LastIndex(s))
  }

  function RequestVoteNext(s: Server, args: VoteArgs): (Server, VoteReply)
    requires |s.log| >= 1
  {
    if args.term < s.currentTerm then (s, VoteReply(s.currentTerm, false)) else
      var t := if args.term > s.currentTerm then StepDown(s, args.term) else s;
      if (t.votedFor == -1 || t.votedFor == args.candidateId) && UpToDate(t, args) then
        (t.(votedFor := args.candidateId), VoteReply(s.currentTerm, true))
      else
        (t, VoteReply(s.currentTerm, false))
  }

  function StartElectionNext(s: Server): Server {
    s.(currentTerm := s.currentTerm + 1, votedFor := s.me, role := Candidate, voteCount := 1)
  }

  /** The request for an election of term `term`, with the log as it is when the request is built. */
  function VoteRequestOf(s: Server, term: nat): VoteArgs
    requires |s.log| >= 1
  {
    VoteArgs(term, s.me, LastIndex(s), LastTerm(s))
  }

  function VoteReplyNext(s: Server, termTemp: nat, reply: VoteReply): Server {
    if s.currentTerm > termTemp then s
    else if reply.term > s.currentTerm then StepDown(s, reply.term)
    else if reply.voteGranted then s.(voteCount := s.voteCount + 1)
    else s
  }

  predicate Wins(s: Server, peers: nat) {
    s.role == Candidate && s.voteCount > peers / 2
  }

  function BecomeLeaderNext(s: Server): Server {
    s.(role := Leader, nextIndex := seq(|s.nextIndex|, _ => |s.log|), matchIndex := seq(|s.matchIndex|, _ => 0), startAppend := false)
  }

  // ----- the log -----

  function StartNext(s: Server, command: Command): Server
    requires s.me < |s.matchIndex|
  {
    if s.role != Leader then s else
      var log := s.log + [LogEntry(command, s.currentTerm)];
      s.(log := log, matchIndex := s.matchIndex[s.me := |log| - 1 + s.snapshotIndex], startAppend := true)
  }

  predicate CanSend(s: Server, server: nat) {
    server < |s.nextIndex| && 0 < s.nextIndex[server] <= |s.log| && s.role == Leader
  }

  function AppendOf(s: Server, server: nat): AppendArgs
    requires CanSend(s, server)
  {
    var next := s.nextIndex[server];
    AppendArgs(s.currentTerm, s.me, next - 1 + s.snapshotIndex,
               if next == 1 then s.snapshotTerm else s.log[next - 1].term, s.log[next..], s.commitIndex)
  }

  function Recognise(s: Server, term: nat): Server {
    if term > s.currentTerm then StepDown(s, term)
    else if s.role == Candidate then s.(role := Follower)
    else s
  }

  /** The probe agrees with our log at its previous index, or reaches below our snapshot. */
  predicate Accepts(s: Server, a: AppendArgs) {
    || a.prevLogIndex <= s.snapshotIndex
    || (a.prevLogIndex < |s.log| + s.snapshotIndex && a.prevLogTerm == s.log[a.prevLogIndex - s.snapshotIndex].term)
  }

  /** Index of the last entry a message carries, or of its previous entry when it carries none. */
  function LastOf(a: AppendArgs): nat {
    a.prevLogIndex + |a.entries|
  }

  /** Our log is longer than the message and already has an entry of the sender's term at its end. */
  predicate AlreadyHas(s: Server, a: AppendArgs) {
    s.snapshotIndex <= LastOf(a) < |s.log| - 1 + s.snapshotIndex && s.log[LastOf(a) - s.snapshotIndex].term == a.term
  }

  function SplicedLog(s: Server, a: AppendArgs): (log: Log)
    requires Accepts(s, a) && |s.log| >= 1
    ensures |log| >= 1
  {
    if a.prevLogIndex > s.snapshotIndex then
      if AlreadyHas(s, a) then s.log else s.log[..a.prevLogIndex + 1 - s.snapshotIndex] + a.entries
    else if s.snapshotIndex - a.prevLogIndex > |a.entries| - 1 || AlreadyHas(s, a) then s.log
    else [PLACEHOLDER] + a.entries[s.snapshotIndex - a.prevLogIndex..]
  }

  function FollowCommit(s: Server, leaderCommit: nat): Server
    requires |s.log| >= 1
  {
    if leaderCommit <= s.commitIndex then s
    else if leaderCommit <= LastIndex(s) then s.(commitIndex := leaderCommit)
    else s.(commitIndex := LastIndex(s))
  }

  function Rejection(s: Server, oldTerm: nat, a: AppendArgs): AppendReply
    requires !Accepts(s, a)
  {
    if a.prevLogIndex >= |s.log| + s.snapshotIndex then
      AppendReply(oldTerm, false, true, 0, 0, |s.log| + s.snapshotIndex)
    else
      var p := a.prevLogIndex - s.snapshotIndex;
      AppendReply(oldTerm, false, false, s.log[p].term, TermStart(s.log, p) + s.snapshotIndex, 0)
  }

  function AppendNext(s: Server, a: AppendArgs): (Server, AppendReply)
    requires |s.log| >= 1
  {
    if a.term < s.currentTerm then (s, AppendReply(s.currentTerm, false, false, 0, 0, 0)) else
      var t := Recognise(s, a.term);
      if Accepts(t, a) then
        (FollowCommit(t.(log := SplicedLog(t, a)), a.leaderCommit), AppendReply(s.currentTerm, true, false, 0, 0, 0))
      else
        (t, Rejection(t, s.currentTerm, a))
  }

  // ----- replies to the leader -----

  /** Where to probe next after a rejection. */
  function RollBack(s: Server, a: AppendArgs, reply: AppendReply): int {
    if reply.miss then reply.len - s.snapshotIndex
    else if a.prevLogIndex - s.snapshotIndex >= |s.log| then reply.termStart - s.snapshotIndex
    else
      var index := ScanForTerm(s.log, reply.termConflict, a.prevLogIndex - s.snapshotIndex);
      if index != -1 then index else reply.termStart - s.snapshotIndex
  }

  function Acknowledge(s: Server, server: nat, a: AppendArgs): Server
    requires server < |s.nextIndex| && server < |s.matchIndex|
    requires s.nextIndex[server] + s.snapshotIndex >= 1
  {
    var matched := s.nextIndex[server] - 1 + |a.entries| + s.snapshotIndex;
    s.(matchIndex := if matched > s.matchIndex[server] then s.matchIndex[server := matched] else s.matchIndex,
       nextIndex := s.nextIndex[server := s.nextIndex[server] + |a.entries|])
  }

  /** The servers known to hold everything up to index v. */
  ghost function Holders(matchIndex: seq<nat>, v: nat): set<nat> {
    set j: nat | j < |matchIndex| && matchIndex[j] >= v
  }

  /** v is the element at position n/2 of the ascending order. */
  ghost predicate IsMedian(matchIndex: seq<nat>, v: nat) {
    var n := |matchIndex|;
    v in matchIndex && |Holders(matchIndex, v)| >= n - n / 2 && |Holders(matchIndex, v + 1)| < n - n / 2
  }

  lemma HoldersMonotone(matchIndex: seq<nat>, v: nat, w: nat)
    requires v <= w
    ensures |Holders(matchIndex, w)| <= |Holders(matchIndex, v)|
  {
    SubsetCardinality(Holders(matchIndex, w), Holders(matchIndex, v));
  }

  lemma MedianUnique(matchIndex: seq<nat>, v: nat, w: nat)
    requires IsMedian(matchIndex, v) && IsMedian(matchIndex, w)
    ensures v == w
  {
    if v < w {
      HoldersMonotone(matchIndex, v + 1, w);
    } else if w < v {
      HoldersMonotone(matchIndex, w + 1, v);
    }
  }

  ghost predicate Ascending(matchIndex: seq<nat>, ps: seq<nat>) {
    && Permutation(ps, |matchIndex|)
    && forall i, j :: 0 <= i < j < |ps| ==> matchIndex[ps[i]] <= matchIndex[ps[j]]
  }

  lemma UpperHolders(matchIndex: seq<nat>, ps: seq<nat>, k: nat)
    requires Ascending(matchIndex, ps) && k < |ps|
    ensures |Holders(matchIndex, matchIndex[ps[k]])| >= |ps| - k
  {
    var upper := ps[k..];
    MembersCardinality(upper);
    forall x | x in Members(upper)
      ensures x in Holders(matchIndex, matchIndex[ps[k]])
    {
      var i :| 0 <= i < |upper| && upper[i] == x;
      assert ps[k + i] == x;
    }
    SubsetCardinality(Members(upper), Holders(matchIndex, matchIndex[ps[k]]));
  }

  lemma LowerHolders(matchIndex: seq<nat>, ps: seq<nat>, k: nat)
    requires Ascending(matchIndex, ps) && k < |ps|
    ensures |Holders(matchIndex, matchIndex[ps[k]] + 1)| < |ps| - k
  {
    var lower, above := ps[..k + 1], Holders(matchIndex, matchIndex[ps[k]] + 1);
    MembersCardinality(lower);
    forall x | x in Members(lower)
      ensures x < |ps| && x !in above
    {
      var i :| 0 <= i < |lower| && lower[i] == x;
      assert ps[i] == x && (i < k ==> matchIndex[ps[i]] <= matchIndex[ps[k]]);
    }
    assert |Members(lower) + above| == |Members(lower)| + |above|;
    SubsetCardinality(Members(lower) + above, Below(|ps|));
  }

  /** The element at position n/2 of an ascending arrangement is the median. */
  lemma SortedMedian(matchIndex: seq<nat>, ps: seq<nat>)
    requires matchIndex != [] && Ascending(matchIndex, ps)
    ensures IsMedian(matchIndex, matchIndex[ps[|ps| / 2]])
  {
    UpperHolders(matchIndex, ps, |ps| / 2);
    LowerHolders(matchIndex, ps, |ps| / 2);
  }

  ghost function Largest(matchIndex: seq<nat>): (m: nat)
    ensures forall j :: 0 <= j < |matchIndex| ==> matchIndex[j] <= m
  {
    if matchIndex == [] then 0 else
      var rest := Largest(matchIndex[..|matchIndex| - 1]);
      var last := matchIndex[|matchIndex| - 1];
      if rest < last then last else rest
  }

  lemma HoldersGap(matchIndex: seq<nat>, v: nat)
    ensures v !in matchIndex ==> Holders(matchIndex, v) == Holders(matchIndex, v + 1)
    ensures v >= Largest(matchIndex) ==> Holders(matchIndex, v + 1) == {}
  {
  }

  /** Climbs from v to the largest index that enough servers hold. */
  ghost function Climb(matchIndex: seq<nat>, v: nat): (m: nat)
    requires matchIndex != [] && |Holders(matchIndex, v)| >= |matchIndex| - |matchIndex| / 2
    ensures IsMedian(matchIndex, m)
    decreases Largest(matchIndex) - v
  {
    HoldersGap(matchIndex, v);
    if |Holders(matchIndex, v + 1)| < |matchIndex| - |matchIndex| / 2 then v else Climb(matchIndex, v + 1)
  }

  ghost function Median(matchIndex: seq<nat>): (m: nat)
    requires matchIndex != []
    ensures IsMedian(matchIndex, m)
  {
    assert Holders(matchIndex, 0) == Below(|matchIndex|);
    Climb(matchIndex, 0)
  }

  /** What updateCommit does: the commit index rises to the median of the match indexes. */
  ghost function AdvanceCommit(s: Server): Server
    requires s.matchIndex != []
  {
    var m := Median(s.matchIndex);
    if m > s.commitIndex then s.(commitIndex := m) else s
  }

  /** The answer is a conflict that makes the leader look for the conflicting term in its own log. */
  predicate Scans(s: Server, server: nat, termTemp: nat, a: AppendArgs, reply: AppendReply)
    requires server < |s.nextIndex|
  {
    && s.startAppend && termTemp >= s.currentTerm && reply.term <= s.currentTerm && !reply.success && !reply.miss
    && s.nextIndex[server] + s.snapshotIndex == a.prevLogIndex + 1
  }

  /** The leader's bookkeeping for an answer, before the commit rule runs. */
  function Booked(s: Server, server: nat, termTemp: nat, a: AppendArgs, reply: AppendReply): Server
    requires server < |s.nextIndex| == |s.matchIndex|
  {
    if termTemp < s.currentTerm then s
    else if reply.term > s.currentTerm then StepDown(s, reply.term)
    else if s.nextIndex[server] + s.snapshotIndex != a.prevLogIndex + 1 then s
    else if !reply.success then s.(nextIndex := s.nextIndex[server := RollBack(s, a, reply)])
    else if |a.entries| > 0 then Acknowledge(s, server, a)
    else s
  }

  ghost function AppendReplyNext(s: Server, server: nat, termTemp: nat, a: AppendArgs, reply: AppendReply): Server
    requires server < |s.nextIndex| == |s.matchIndex|
  {
    if s.startAppend then AdvanceCommit(Booked(s, server, termTemp, a, reply)) else s
  }

  /** When an append gets no answer, the commit rule still runs. */
  ghost function NoReplyNext(s: Server): Server
    requires s.matchIndex != []
  {
    if s.startAppend then AdvanceCommit(s) else s
  }

  /** What Make rebuilds from the persisted term, vote, log and snapshot position. */
  function RestartNext(s: Server): Server
    requires |s.log| >= 1
  {
    var zeros: seq<nat> := seq(|s.matchIndex|, _ => 0);
    Server(s.me, Follower, s.currentTerm, if s.currentTerm == 0 then -1 else s.votedFor, s.log, s.snapshotIndex,
           seq(|s.nextIndex|, _ => |s.log|), if s.me < |zeros| then zeros[s.me := |s.log| - 1] else zeros,
           0, false, s.snapshotIndex, s.snapshotTerm)
  }

  // ----- the commit rule -----

  ghost predicate Majority(matchIndex: seq<nat>, i: nat) {
    2 * |Holders(matchIndex, i)| > |matchIndex|
  }

  /** The rule updateCommit replaced: the largest index above the commit index, up to i, that a
      majority holds and whose entry is of the current term. */
  ghost function CountingCommit(s: Server, i: nat): nat
    requires i <= LastIndex(s)
  {
    if i <= s.commitIndex || i <= s.snapshotIndex then s.commitIndex
    else if Majority(s.matchIndex, i) && s.log[i - s.snapshotIndex].term == s.currentTerm then i
    else CountingCommit(s, i - 1)
  }

  /** Every match index is zero or the index of a current-term entry: what the startAppend gate keeps. */
  ghost predicate MatchesCurrentTerm(s: Server) {
    forall j :: 0 <= j < |s.matchIndex| && s.matchIndex[j] > 0 ==>
      s.snapshotIndex < s.matchIndex[j] <= LastIndex(s) && s.log[s.matchIndex[j] - s.snapshotIndex].term == s.currentTerm
  }

  lemma {:induction false} CountingStops(s: Server, i: nat, m: nat)
    requires s.matchIndex != [] && |s.log| >= 1 && i <= LastIndex(s) && IsMedian(s.matchIndex, m) && m <= i && MatchesCurrentTerm(s)
    requires s.snapshotIndex <= s.commitIndex
    ensures m > s.commitIndex && Majority(s.matchIndex, m) ==> CountingCommit(s, i) == m
    ensures m <= s.commitIndex || !Majority(s.matchIndex, m) ==> CountingCommit(s, i) <= s.commitIndex || CountingCommit(s, i) < m
  {
    if i > m {
      HoldersMonotone(s.matchIndex, m + 1, i);
      CountingStops(s, i - 1, m);
    } else {
      CountingBound(s, i);
    }
  }

  lemma {:induction false} CountingBound(s: Server, i: nat)
    requires i <= LastIndex(s) && s.snapshotIndex <= s.commitIndex
    ensures CountingCommit(s, i) == s.commitIndex || s.commitIndex < CountingCommit(s, i) <= i
    ensures !Majority(s.matchIndex, i) && i > 0 ==> CountingCommit(s, i) == s.commitIndex || CountingCommit(s, i) < i
  {
    if i > s.commitIndex {
      CountingBound(s, i - 1);
    }
  }

  /** The median rule commits exactly what counting would, unless the median lies above the commit
      index without a majority behind it, which an odd number of servers rules out. */
  lemma MedianIsCounting(s: Server)
    requires s.matchIndex != [] && |s.log| >= 1 && MatchesCurrentTerm(s) && s.snapshotIndex <= s.commitIndex
    ensures AdvanceCommit(s).commitIndex == CountingCommit(s, LastIndex(s))
       <==> Median(s.matchIndex) <= s.commitIndex || Majority(s.matchIndex, Median(s.matchIndex))
    ensures |s.matchIndex| % 2 == 1 ==> AdvanceCommit(s).commitIndex == CountingCommit(s, LastIndex(s))
  {
    var m := Median(s.matchIndex);
    CountingStops(s, LastIndex(s), m);
    CountingBound(s, LastIndex(s));
  }
}
