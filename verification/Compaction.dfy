/** Log compaction (src/raft/raft.go, persistV2 and InstallSnapshot): what a snapshot removes from the
    log cannot be told from outside, in absolute indexes. */
module Compaction {
  import opened Raft
  import opened KvCommands

  /** What the service hands over: its database and client table after entry lastIndex. */
  datatype Snapshot = Snapshot(db: map<string, string>, lastIndex: nat, lastTerm: nat, clients: map<int, int>)

  /** What Raft hands to the service: a committed command, or a snapshot to install. */
  datatype ApplyMsg = Committed(command: Command, index: nat) | Installed(snapshot: Snapshot)

  datatype SnapArgs = SnapArgs(term: nat, leaderId: nat, lastIncludedIndex: nat, lastIncludedTerm: nat, data: Snapshot)

  /** Absolute index i lies in the log proper, above the snapshot. */
  predicate InLog(s: Server, i: nat) {
    s.snapshotIndex < i <= LastIndex(s)
  }

  function EntryAt(s: Server, i: nat): LogEntry
    requires InLog(s, i)
  {
    s.log[i - s.snapshotIndex]
  }

  /** Entry `last` exists and is not covered by a snapshot yet. */
  predicate CanCompact(s: Server, last: nat) {
    s.snapshotIndex < last && last - s.snapshotIndex <= |s.log| - 1
  }

  function CutLog(s: Server, last: nat): Log
    requires CanCompact(s, last)
  {
    [PLACEHOLDER] + s.log[last - s.snapshotIndex + 1..]
  }

  /** What persistV2 does to the server. */
  function CompactNext(s: Server, last: nat): Server {
    if CanCompact(s, last) then
      s.(log := CutLog(s, last), nextIndex := seq(|s.nextIndex|, j requires 0 <= j < |s.nextIndex| => s.nextIndex[j] + s.snapshotIndex - last),
         snapshotIndex := last, snapshotTerm := s.log[last - s.snapshotIndex].term)
    else s
  }

  /** The entry the snapshot ends with is in the log. */
  predicate Retains(s: Server, last: nat, lastTerm: nat) {
    CanCompact(s, last) && s.log[last - s.snapshotIndex].term == lastTerm
  }

  /** A snapshot that reaches further than the present one takes over. */
  function TakeOver(t: Server, last: nat, lastTerm: nat): Server {
    t.(commitIndex := if t.commitIndex < last then last else t.commitIndex,
       log := if Retains(t, last, lastTerm) then CutLog(t, last) else [PLACEHOLDER],
       snapshotIndex := last, snapshotTerm := lastTerm)
  }

  /** What InstallSnapshot does to the server. */
  function InstallNext(s: Server, term: nat, last: nat, lastTerm: nat): Server {
    if term < s.currentTerm then s else
      var t := Recognise(s, term);
      if last <= t.snapshotIndex then t else TakeOver(t, last, lastTerm)
  }

  // ----- nothing above the snapshot changes -----

  /** The two servers hold the same entries above the later snapshot, and end at the same index and term. */
  ghost predicate SameAbove(s: Server, s': Server) {
    && s.snapshotIndex <= s'.snapshotIndex
    && |s.log| >= 1 && |s'.log| >= 1
    && LastIndex(s') == LastIndex(s) && LastTerm(s') == LastTerm(s)
    && forall i: nat :: InLog(s', i) ==> InLog(s, i) && EntryAt(s', i) == EntryAt(s, i)
  }

  lemma CutKeeps(s: Server, last: nat, s': Server)
    requires CanCompact(s, last) && s'.log == CutLog(s, last) && s'.snapshotIndex == last && s'.snapshotTerm == s.log[last - s.snapshotIndex].term
    ensures SameAbove(s, s')
  {
    forall i: nat | InLog(s', i)
      ensures InLog(s, i) && EntryAt(s', i) == EntryAt(s, i)
    {
      assert s'.log[i - last] == s.log[last - s.snapshotIndex + 1..][i - last - 1];
    }
    if |s'.log| > 1 {
      assert InLog(s', LastIndex(s'));
      assert EntryAt(s', LastIndex(s')) == EntryAt(s, LastIndex(s'));
    }
  }

  /** Compaction is invisible: the same entries above the snapshot, the same last index and term, the same
      answer to every candidate, the same requests for votes, and the same absolute next indexes. */
  lemma CompactInvisible(s: Server, last: nat)
    requires |s.log| >= 1
    ensures var s' := CompactNext(s, last);
      && SameAbove(s, s')
      && (forall args: VoteArgs :: UpToDate(s', args) <==> UpToDate(s, args))
      && (forall t: nat :: VoteRequestOf(s', t) == VoteRequestOf(s, t))
      && |s'.nextIndex| == |s.nextIndex|
      && (forall j :: 0 <= j < |s.nextIndex| ==> s'.nextIndex[j] + s'.snapshotIndex == s.nextIndex[j] + s.snapshotIndex)
  {
    if CanCompact(s, last) {
      CutKeeps(s, last, CompactNext(s, last));
    }
  }

  /** What compaction changes: it happens exactly when the last covered entry is in the log, remembers that
      entry's index and term, and leaves role, term, vote, votes counted, commit index, match indexes and the
      append gate alone. */
  lemma CompactEffect(s: Server, last: nat)
    requires |s.log| >= 1
    ensures var s' := CompactNext(s, last);
      && s' == s.(log := s'.log, nextIndex := s'.nextIndex, snapshotIndex := s'.snapshotIndex, snapshotTerm := s'.snapshotTerm)
      && (InLog(s, last) ==> s'.snapshotIndex == last && s'.snapshotTerm == EntryAt(s, last).term && s'.log[0] == PLACEHOLDER)
      && (!InLog(s, last) ==> s' == s)
  {
  }

  /** A vote request meets the same answer and leaves the same vote whether it comes before or after compaction. */
  lemma CompactVotesSame(s: Server, last: nat, args: VoteArgs)
    requires |s.log| >= 1
    ensures RequestVoteNext(CompactNext(s, last), args).1 == RequestVoteNext(s, args).1
    ensures RequestVoteNext(CompactNext(s, last), args).0 == CompactNext(RequestVoteNext(s, args).0, last)
  {
    hide CutLog;
    if CanCompact(s, last) {
      CutKeeps(s, last, CompactNext(s, last));
      SameCut(s, RequestVoteNext(s, args).0, last);
    }
  }

  lemma SameCut(s: Server, t: Server, last: nat)
    requires t.log == s.log && t.snapshotIndex == s.snapshotIndex
    ensures (CanCompact(t, last) <==> CanCompact(s, last)) && (CanCompact(s, last) ==> CutLog(t, last) == CutLog(s, last))
  {
  }

  /** So do campaigns, counted votes and submitted commands. */
  lemma CompactStepsSame(s: Server, last: nat, termTemp: nat, reply: VoteReply, command: Command)
    requires |s.log| >= 1 && s.me < |s.matchIndex|
    ensures StartElectionNext(CompactNext(s, last)) == CompactNext(StartElectionNext(s), last)
    ensures VoteReplyNext(CompactNext(s, last), termTemp, reply) == CompactNext(VoteReplyNext(s, termTemp, reply), last)
    ensures InLog(s, last) ==> StartNext(CompactNext(s, last), command) == CompactNext(StartNext(s, command), last)
  {
    if CanCompact(s, last) {
      var e := LogEntry(command, s.currentTerm);
      assert (s.log + [e])[last - s.snapshotIndex + 1..] == s.log[last - s.snapshotIndex + 1..] + [e];
      assert CutLog(s.(log := s.log + [e]), last) == CutLog(s, last) + [e];
    }
  }

  /** A compacted leader that still can send to a follower sends what it would have sent. */
  lemma CompactSendsSame(s: Server, last: nat, server: nat)
    requires |s.log| >= 1 && CanSend(CompactNext(s, last), server)
    ensures CanSend(s, server) && AppendOf(CompactNext(s, last), server) == AppendOf(s, server)
  {
    if CanCompact(s, last) {
      var s' := CompactNext(s, last);
      var next', next := s'.nextIndex[server], s.nextIndex[server];
      assert next' == next + s.snapshotIndex - last;
      assert s'.log[next'..] == s.log[next..];
      if next' > 1 {
        assert s'.log[next' - 1] == s.log[next - 1];
      }
    }
  }

  /** An append above the snapshot is accepted as before, and compacting before or after it is the same. */
  lemma CompactCommutes(s: Server, last: nat, a: AppendArgs)
    requires CanCompact(s, last) && a.prevLogIndex > last
    ensures Accepts(CompactNext(s, last), a) <==> Accepts(s, a)
    ensures Accepts(s, a) ==>
      && SplicedLog(CompactNext(s, last), a) == [PLACEHOLDER] + SplicedLog(s, a)[last - s.snapshotIndex + 1..]
      && CanCompact(s.(log := SplicedLog(s, a)), last)
  {
    CompactAccepts(s, last, a);
    if Accepts(s, a) && !AlreadyHas(s, a) {
      CutThenSplice(s.log, a.entries, last - s.snapshotIndex + 1, a.prevLogIndex - s.snapshotIndex + 1);
    }
  }

  /** So it is for an append that starts within the new snapshot and reaches beyond it, such as a retry sent
      before the follower compacted. */
  lemma CompactCommutesBelow(s: Server, last: nat, a: AppendArgs)
    requires CanCompact(s, last) && a.prevLogIndex <= last < LastOf(a) && Accepts(s, a)
    ensures Accepts(CompactNext(s, last), a) && CanCompact(s.(log := SplicedLog(s, a)), last)
    ensures SplicedLog(CompactNext(s, last), a) == [PLACEHOLDER] + SplicedLog(s, a)[last - s.snapshotIndex + 1..]
  {
    var cut := last - s.snapshotIndex + 1;
    HeldAlike(s, last, a);
    if !AlreadyHas(s, a) {
      if a.prevLogIndex > s.snapshotIndex {
        CutAbove(s.log[..a.prevLogIndex + 1 - s.snapshotIndex], a.entries, cut);
      } else {
        var kept := a.entries[s.snapshotIndex - a.prevLogIndex..];
        CutAbove([PLACEHOLDER], kept, cut);
        assert kept[cut - 1..] == a.entries[last - a.prevLogIndex..];
      }
    }
  }

  lemma HeldAlike(s: Server, last: nat, a: AppendArgs)
    requires CanCompact(s, last) && last < LastOf(a)
    ensures AlreadyHas(CompactNext(s, last), a) <==> AlreadyHas(s, a)
  {
    CutAt(s, last, LastOf(a));
  }

  lemma CutAbove(low: Log, high: Log, cut: nat)
    requires |low| <= cut <= |low| + |high|
    ensures (low + high)[cut..] == high[cut - |low|..]
  {
  }

  lemma CompactAccepts(s: Server, last: nat, a: AppendArgs)
    requires CanCompact(s, last) && a.prevLogIndex > last
    ensures var s' := CompactNext(s, last); (Accepts(s', a) <==> Accepts(s, a)) && (AlreadyHas(s', a) <==> AlreadyHas(s, a))
  {
    CutAt(s, last, a.prevLogIndex);
    CutAt(s, last, LastOf(a));
  }

  lemma CutAt(s: Server, last: nat, i: nat)
    requires CanCompact(s, last) && last < i
    ensures LastIndex(CompactNext(s, last)) == LastIndex(s)
    ensures i <= LastIndex(s) ==> CompactNext(s, last).log[i - last] == s.log[i - s.snapshotIndex]
  {
  }

  lemma CutThenSplice(log: Log, entries: Log, cut: nat, p: nat)
    requires 1 <= cut <= p <= |log|
    ensures ([PLACEHOLDER] + log[cut..])[..p + 1 - cut] + entries == [PLACEHOLDER] + (log[..p] + entries)[cut..]
  {
    assert ([PLACEHOLDER] + log[cut..])[..p + 1 - cut] == [PLACEHOLDER] + log[cut..p];
    assert (log[..p] + entries)[cut..] == log[cut..p] + entries;
  }

  /** What installing changes: term, vote and role as for any message of that term; the log, the snapshot
      position and the commit index exactly when the snapshot is not of an older term and reaches further;
      nothing else. */
  lemma InstallEffect(s: Server, term: nat, last: nat, lastTerm: nat)
    requires |s.log| >= 1
    ensures var s' := InstallNext(s, term, last, lastTerm);
      var installs := term >= s.currentTerm && last > s.snapshotIndex;
      && s' == s.(currentTerm := s'.currentTerm, votedFor := s'.votedFor, role := s'.role, log := s'.log, commitIndex := s'.commitIndex,
                  snapshotIndex := s'.snapshotIndex, snapshotTerm := s'.snapshotTerm)
      && s'.currentTerm == (if term > s.currentTerm then term else s.currentTerm)
      && s'.votedFor == (if term > s.currentTerm then -1 else s.votedFor)
      && s'.role == (if term > s.currentTerm || (term == s.currentTerm && s.role == Candidate) then Follower else s.role)
      && (installs ==> s'.snapshotIndex == last && s'.snapshotTerm == lastTerm && s'.log[0] == PLACEHOLDER)
      && (installs ==> s'.commitIndex == if s.commitIndex < last then last else s.commitIndex)
      && (!installs ==> s'.log == s.log && s'.snapshotIndex == s.snapshotIndex && s'.snapshotTerm == s.snapshotTerm
                        && s'.commitIndex == s.commitIndex)
  {
  }

  /** The snapshot's last entry is in the log, with the same term. */
  lemma RetainsIff(s: Server, last: nat, lastTerm: nat)
    ensures Retains(s, last, lastTerm) <==> InLog(s, last) && EntryAt(s, last).term == lastTerm
  {
  }

  /** Installing a snapshot whose last entry the follower holds keeps everything above it. */
  lemma InstallInvisible(s: Server, term: nat, last: nat, lastTerm: nat)
    requires |s.log| >= 1 && term >= s.currentTerm && Retains(s, last, lastTerm)
    ensures var s' := InstallNext(s, term, last, lastTerm);
      && SameAbove(s, s')
      && (forall args: VoteArgs :: UpToDate(s', args) <==> UpToDate(s, args))
      && s'.commitIndex >= last && (s'.commitIndex == s.commitIndex || s.commitIndex < last)
  {
    CutKeeps(s, last, InstallNext(s, term, last, lastTerm));
  }

  /** Otherwise the log is discarded, and the server ends exactly where the snapshot does. */
  lemma InstallReplaces(s: Server, term: nat, last: nat, lastTerm: nat)
    requires |s.log| >= 1 && term >= s.currentTerm && s.snapshotIndex < last && !Retains(s, last, lastTerm)
    ensures var s' := InstallNext(s, term, last, lastTerm);
      && LastIndex(s') == last && LastTerm(s') == lastTerm && (forall i: nat :: !InLog(s', i)) && s'.commitIndex >= last
  {
  }
}
