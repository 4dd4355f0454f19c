/** The handlers of src/raft/raft.go on the fields they change.  Each lock-held body is one method,
    and its contract says which transition of the step system it makes, that the disk afterwards
    holds what the server may not forget, and what it sends on the apply channel. */
module RaftServer {
  import opened Collections
  import opened Raft
  import opened KvCommands
  import opened RaftCluster
  import opened Compaction

  /** What the persister holds. */
  datatype HardState = HardState(currentTerm: nat, votedFor: int, log: Log)
  datatype Disk = Disk(state: Option<HardState>, snapshot: Option<Snapshot>)

  /** The disk holds the term, vote, log and snapshot position of server s. */
  ghost predicate Durable(s: Server, disk: Disk) {
    && disk.state == Some(HardState(s.currentTerm, s.votedFor, s.log))
    && SnapshotPosition(disk) == (s.snapshotIndex, s.snapshotTerm)
  }

  function SnapshotPosition(disk: Disk): (nat, nat) {
    if disk.snapshot.Some? then (disk.snapshot.value.lastIndex, disk.snapshot.value.lastTerm) else (0, 0)
  }

  /** The messages for the entries above `low` up to `high`, in order, each sent `copies` times. */
  ghost function Deliveries(s: Server, low: int, high: int, copies: nat): seq<ApplyMsg>
    requires s.snapshotIndex <= low && (low < high ==> high <= LastIndex(s))
    decreases high - low
  {
    if high <= low then [] else
      Deliveries(s, low, high - 1, copies) + seq(copies, _ => Committed(s.log[high - s.snapshotIndex].command, high))
  }

  class RaftPeer {
    const me: nat
    const peers: nat
    var role: Role
    var currentTerm: nat
    var votedFor: int
    var log: Log
    var commitIndex: nat
    var nextIndex: seq<int>
    var matchIndex: seq<nat>
    var voteCount: nat
    var startAppend: bool
    var snapshotIndex: nat
    var snapshotTerm: nat
    var disk: Disk
    var applied: seq<ApplyMsg>

    ghost function State(): Server
      reads this
    {
      Server(me, role, currentTerm, votedFor, log, commitIndex, nextIndex, matchIndex, voteCount, startAppend, snapshotIndex, snapshotTerm)
    }

    ghost predicate Shaped()
      reads this
    {
      me < peers && |log| >= 1 && |nextIndex| == |matchIndex| == peers && snapshotIndex <= commitIndex
    }

    ghost predicate Valid()
      reads this
    {
      Shaped() && Durable(State(), disk)
    }

    /** Make: a server on an empty disk is fresh; on a disk it left behind, it is the restarted server. */
    constructor (me: nat, peers: nat, disk: Disk)
      requires me < peers && (disk.state.Some? ==> |disk.state.value.log| >= 1)
      ensures this.me == me && this.peers == peers && Valid() && applied == []
      ensures disk.snapshot == this.disk.snapshot
      ensures disk == Disk(None, None) ==> State() == Fresh(me, peers)
      ensures forall s: Server :: Durable(s, disk) && s.me == me && |s.nextIndex| == |s.matchIndex| == peers ==> State() == RestartNext(s)
    {
      this.me, this.peers := me, peers;
      role, voteCount, startAppend, applied := Follower, 0, false, [];
      var hard := if disk.state.Some? then disk.state.value else HardState(0, 0, []);
      var vote := if hard.currentTerm == 0 then -1 else hard.votedFor;
      var entries := if |hard.log| == 0 then [PLACEHOLDER] else hard.log;
      currentTerm, votedFor, log := hard.currentTerm, vote, entries;
      this.disk := Disk(Some(HardState(hard.currentTerm, vote, entries)), disk.snapshot);
      nextIndex := seq(peers, _ => |entries|);
      var zeros: seq<nat> := seq(peers, _ => 0);
      matchIndex := zeros[me := |entries| - 1];
      var position := SnapshotPosition(disk);
      snapshotIndex, snapshotTerm := position.0, position.1;
      commitIndex := position.0;
    }

    method Persist()
      modifies this`disk
      ensures disk == Disk(Some(HardState(currentTerm, votedFor, log)), old(disk.snapshot))
    {
      disk := Disk(Some(HardState(currentTerm, votedFor, log)), disk.snapshot);
    }

    method TermUpdate(newTerm: nat)
      requires Valid()
      modifies this
      ensures Valid() && State() == StepDown(old(State()), newTerm) && applied == old(applied) && disk.snapshot == old(disk.snapshot)
    {
      currentTerm, role, votedFor := newTerm, Follower, -1;
      Persist();
    }

    // ----- elections -----

    method RequestVote(args: VoteArgs) returns (reply: VoteReply)
      requires Valid()
      modifies this
      ensures Valid() && (State(), reply) == RequestVoteNext(old(State()), args) && applied == old(applied)
    {
      reply := VoteReply(currentTerm, false);
      if args.term < currentTerm {
        return;
      }
      if args.term > currentTerm {
        TermUpdate(args.term);
      }
      if votedFor == -1 || votedFor == args.candidateId {
        var termLast := if |log| == 1 then snapshotTerm else log[|log| - 1].term;
        if args.lastLogTerm > termLast || (args.lastLogTerm == termLast && args.lastLogIndex >= |log| - 1 + snapshotIndex) {
          reply := reply.(voteGranted := true);
          votedFor := args.candidateId;
          Persist();
        }
      }
    }

    method StartElection() returns (termTemp: nat)
      requires Valid()
      modifies this
      ensures Valid() && State() == StartElectionNext(old(State())) && termTemp == currentTerm && applied == old(applied)
    {
      currentTerm, votedFor := currentTerm + 1, me;
      Persist();
      role, voteCount := Candidate, 1;
      termTemp := currentTerm;
    }

    method MakeVoteRequest(termTemp: nat) returns (args: VoteArgs)
      requires Valid()
      ensures args == VoteRequestOf(State(), termTemp)
    {
      var termLast := if |log| == 1 then snapshotTerm else log[|log| - 1].term;
      args := VoteArgs(termTemp, me, |log| - 1 + snapshotIndex, termLast);
    }

    method OnVoteReply(termTemp: nat, reply: VoteReply)
      requires Valid()
      modifies this
      ensures Valid() && State() == VoteReplyNext(old(State()), termTemp, reply) && applied == old(applied)
    {
      if currentTerm > termTemp {
      } else if reply.term > currentTerm {
        TermUpdate(reply.term);
      } else if reply.voteGranted {
        voteCount := voteCount + 1;
      }
    }

    method TryBecomeLeader(termTemp: nat) returns (won: bool)
      requires Valid()
      modifies this
      ensures Valid() && won == (old(currentTerm) == termTemp && Wins(old(State()), peers)) && applied == old(applied)
      ensures State() == if won then BecomeLeaderNext(old(State())) else old(State())
    {
      won := currentTerm == termTemp && role == Candidate && voteCount > peers / 2;
      if won {
        role := Leader;
        var i := 0;
        while i < |nextIndex|
          invariant 0 <= i <= |nextIndex| == |matchIndex| == peers
          invariant forall j :: 0 <= j < i ==> nextIndex[j] == |log| && matchIndex[j] == 0
          invariant State() == old(State()).(role := Leader, nextIndex := nextIndex, matchIndex := matchIndex)
          invariant disk == old(disk) && applied == old(applied)
        {
          nextIndex, matchIndex := nextIndex[i := |log|], matchIndex[i := 0];
          i := i + 1;
        }
        startAppend := false;
        assert nextIndex == BecomeLeaderNext(old(State())).nextIndex;
        assert matchIndex == BecomeLeaderNext(old(State())).matchIndex;
      }
    }

    // ----- replication -----

    method Start(command: Command) returns (index: int, term: int, isLeader: bool)
      requires Valid()
      modifies this
      ensures Valid() && State() == StartNext(old(State()), command) && applied == old(applied)
      ensures isLeader == (old(role) == Leader)
      ensures isLeader ==> term == currentTerm && index == LastIndex(State()) && log[|log| - 1] == LogEntry(command, currentTerm)
      ensures !isLeader ==> index == term == -1
    {
      if role != Leader {
        return -1, -1, false;
      }
      log := log + [LogEntry(command, currentTerm)];
      Persist();
      index, term, isLeader := |log| - 1 + snapshotIndex, currentTerm, true;
      matchIndex := matchIndex[me := |log| - 1 + snapshotIndex];
      startAppend := true;
    }

    method PrepareAppend(server: nat) returns (args: Option<AppendArgs>)
      requires Valid() && server < peers && (role == Leader ==> nextIndex[server] <= |log|)
      ensures args.Some? <==> CanSend(State(), server)
      ensures args.Some? ==> args.value == AppendOf(State(), server)
    {
      if nextIndex[server] <= 0 || role != Leader {
        return None;
      }
      var next := nextIndex[server];
      var argTerm := if next == 1 then snapshotTerm else log[next - 1].term;
      args := Some(AppendArgs(currentTerm, me, next - 1 + snapshotIndex, argTerm, log[next..], commitIndex));
    }

    method FindEntry(p: nat) returns (res: nat)
      requires p < |log|
      ensures res == TermStart(log, p)
    {
      var term, q := log[p].term, p as int;
      res := 0;
      while q >= 0 && log[q].term == term
        invariant -1 <= q <= p
        invariant q < p ==> res == q + 1 && log[res].term == term && TermStart(log, res) == TermStart(log, p)
        decreases q
      {
        res := q;
        q := q - 1;
      }
    }

    method FindLast(t: nat, start: int) returns (res: int)
      requires start < |log|
      ensures res == ScanForTerm(log, t, start)
    {
      var index := start;
      while index >= 0
        invariant index <= start
        invariant ScanForTerm(log, t, index) == ScanForTerm(log, t, start)
        decreases index
      {
        if log[index].term == t {
          return index;
        } else if log[index].term < t {
          return -1;
        }
        index := index - 1;
      }
      return 0;
    }

    /** The log part of AppendEntries. */
    method Splice(a: AppendArgs)
      requires Valid() && Accepts(State(), a)
      modifies this
      ensures Valid() && State() == old(State()).(log := SplicedLog(old(State()), a)) && applied == old(applied)
    {
      var lastIndex := a.prevLogIndex + |a.entries|;
      if a.prevLogIndex > snapshotIndex {
        if lastIndex >= |log| - 1 + snapshotIndex {
          log := log[..a.prevLogIndex + 1 - snapshotIndex] + a.entries;
          Persist();
        } else if log[lastIndex - snapshotIndex].term == a.term {
        } else {
          log := log[..a.prevLogIndex + 1 - snapshotIndex] + a.entries;
          Persist();
        }
      } else {
        if snapshotIndex - a.prevLogIndex > |a.entries| - 1 {
        } else if lastIndex >= |log| - 1 + snapshotIndex {
          log := [PLACEHOLDER] + a.entries[snapshotIndex - a.prevLogIndex..];
          Persist();
        } else if log[lastIndex - snapshotIndex].term == a.term {
        } else {
          log := [PLACEHOLDER] + a.entries[snapshotIndex - a.prevLogIndex..];
          Persist();
        }
        Persist();
      }
    }

    /** The commit part of AppendEntries: every newly committed entry goes to the service twice. */
    method FollowLeaderCommit(leaderCommit: nat)
      requires Valid()
      modifies this
      ensures Valid() && State() == FollowCommit(old(State()), leaderCommit)
      ensures old(commitIndex) < commitIndex ==> commitIndex <= LastIndex(State())
      ensures applied == old(applied) + Deliveries(State(), old(commitIndex), commitIndex, 2)
    {
      if leaderCommit > commitIndex {
        var pre := commitIndex;
        commitIndex := if leaderCommit <= |log| - 1 + snapshotIndex then leaderCommit else |log| - 1 + snapshotIndex;
        DeliverTwice(pre);
      }
    }

    /** Sends the entries above `pre` up to the commit index. */
    method DeliverTwice(pre: nat)
      requires Shaped() && snapshotIndex <= pre && (pre < commitIndex ==> commitIndex <= LastIndex(State()))
      modifies this`applied
      ensures applied == old(applied) + Deliveries(State(), pre, commitIndex, 2)
    {
      var i := pre + 1 - snapshotIndex;
      while i <= commitIndex - snapshotIndex
        invariant pre + 1 - snapshotIndex <= i && (i <= commitIndex + 1 - snapshotIndex || i == pre + 1 - snapshotIndex)
        invariant applied == old(applied) + Deliveries(State(), pre, i - 1 + snapshotIndex, 2)
      {
        var msg := Committed(log[i].command, i + snapshotIndex);
        applied := applied + [msg];
        applied := applied + [msg];
        assert [msg] + [msg] == seq(2, _ => msg);
        i := i + 1;
      }
    }

    /** A message of the current or a later term makes the server follow its sender. */
    method RecogniseSender(term: nat)
      requires Valid() && term >= currentTerm
      modifies this
      ensures Valid() && State() == Recognise(old(State()), term) && applied == old(applied) && disk.snapshot == old(disk.snapshot)
    {
      if term > currentTerm {
        TermUpdate(term);
      } else if role == Candidate {
        role := Follower;
      }
    }

    method AppendEntries(a: AppendArgs) returns (reply: AppendReply)
      requires Valid()
      modifies this
      ensures Valid() && (State(), reply) == AppendNext(old(State()), a)
      ensures old(commitIndex) < commitIndex ==> commitIndex <= LastIndex(State())
      ensures applied == old(applied) + Deliveries(State(), old(commitIndex), commitIndex, 2)
    {
      hide Durable, SplicedLog, FollowCommit, TermStart;
      reply := AppendReply(currentTerm, false, false, 0, 0, 0);
      if a.term < currentTerm {
        return;
      }
      RecogniseSender(a.term);
      if a.prevLogIndex <= snapshotIndex
         || (a.prevLogIndex < |log| + snapshotIndex && a.prevLogTerm == log[a.prevLogIndex - snapshotIndex].term) {
        reply := reply.(success := true);
        Splice(a);
        FollowLeaderCommit(a.leaderCommit);
      } else if a.prevLogIndex >= |log| + snapshotIndex {
        reply := reply.(miss := true, len := |log| + snapshotIndex);
      } else {
        var start := FindEntry(a.prevLogIndex - snapshotIndex);
        reply := reply.(termConflict := log[a.prevLogIndex - snapshotIndex].term, termStart := start + snapshotIndex);
      }
    }

    // ----- commitment -----

    /** The peers ordered by match index, lower numbers first among equals. */
    method SortByMatch() returns (ps: seq<nat>)
      requires |matchIndex| == peers
      ensures Ascending(matchIndex, ps)
    {
      ps := [];
      var next := 0;
      while next < peers
        invariant 0 <= next <= peers == |matchIndex| && Arranged(matchIndex, ps, next)
      {
        var k := |ps|;
        while k > 0 && matchIndex[ps[k - 1]] > matchIndex[next]
          invariant 0 <= k <= |ps|
          invariant forall j :: k <= j < |ps| ==> matchIndex[next] < matchIndex[ps[j]]
        {
          k := k - 1;
        }
        InsertArranges(matchIndex, ps, next, k);
        ps := ps[..k] + [next] + ps[k..];
        next := next + 1;
      }
    }

    /** The commit index rises to the median of the match indexes, and the new entries go to the service. */
    method UpdateCommit()
      requires Valid() && Median(matchIndex) <= LastIndex(State())
      modifies this`commitIndex, this`applied
      ensures Valid() && State() == AdvanceCommit(old(State()))
      ensures old(commitIndex) < commitIndex ==> commitIndex <= LastIndex(State())
      ensures applied == old(applied) + Deliveries(State(), old(commitIndex), commitIndex, 1)
    {
      hide Durable, Median;
      var pre := commitIndex;
      var ps := SortByMatch();
      SortedMedian(matchIndex, ps);
      var temp := matchIndex[ps[peers / 2]];
      MedianUnique(matchIndex, temp, Median(matchIndex));
      if temp > pre {
        commitIndex := temp;
      }
      KeepsDisk(old(State()), State(), disk);
      if pre >= snapshotIndex {
        DeliverOnce(pre);
      }
    }

    method DeliverOnce(pre: nat)
      requires Shaped() && snapshotIndex <= pre && (pre < commitIndex ==> commitIndex <= LastIndex(State()))
      modifies this`applied
      ensures applied == old(applied) + Deliveries(State(), pre, commitIndex, 1)
    {
      var k := pre + 1 - snapshotIndex;
      while k <= commitIndex - snapshotIndex
        invariant pre + 1 - snapshotIndex <= k && (k <= commitIndex + 1 - snapshotIndex || k == pre + 1 - snapshotIndex)
        invariant applied == old(applied) + Deliveries(State(), pre, k - 1 + snapshotIndex, 1)
      {
        var msg := Committed(log[k].command, k + snapshotIndex);
        applied := applied + [msg];
        assert [msg] == seq(1, _ => msg);
        k := k + 1;
      }
    }

    /** The bookkeeping for an answer. */
    method Book(server: nat, termTemp: nat, a: AppendArgs, reply: AppendReply)
      requires Valid() && server < peers && startAppend && (Scans(State(), server, termTemp, a, reply) ==> a.prevLogIndex - snapshotIndex < |log|)
      modifies this
      ensures Valid() && State() == Booked(old(State()), server, termTemp, a, reply) && applied == old(applied)
    {
      hide Durable, ScanForTerm;
      if termTemp < currentTerm {
      } else if reply.term > currentTerm {
        TermUpdate(reply.term);
      } else if !reply.success {
        if nextIndex[server] + snapshotIndex == a.prevLogIndex + 1 {
          if reply.miss {
            nextIndex := nextIndex[server := reply.len - snapshotIndex];
          } else {
            var index := FindLast(reply.termConflict, a.prevLogIndex - snapshotIndex);
            nextIndex := nextIndex[server := if index != -1 then index else reply.termStart - snapshotIndex];
          }
          KeepsDisk(old(State()), State(), disk);
        }
      } else if nextIndex[server] + snapshotIndex == a.prevLogIndex + 1 && |a.entries| > 0 {
        var matched := nextIndex[server] - 1 + |a.entries| + snapshotIndex;
        if matched > matchIndex[server] {
          matchIndex := matchIndex[server := matched];
        }
        nextIndex := nextIndex[server := nextIndex[server] + |a.entries|];
        KeepsDisk(old(State()), State(), disk);
      }
    }

    /** The source runs the commit rule once more after a success; a second run changes nothing. */
    method OnAppendReply(server: nat, termTemp: nat, a: AppendArgs, reply: AppendReply)
      requires Valid() && server < peers && (Scans(State(), server, termTemp, a, reply) ==> a.prevLogIndex - snapshotIndex < |log|)
      requires startAppend ==> Median(Booked(State(), server, termTemp, a, reply).matchIndex) <= LastIndex(State())
      modifies this
      ensures Valid() && State() == AppendReplyNext(old(State()), server, termTemp, a, reply)
      ensures old(commitIndex) < commitIndex ==> commitIndex <= LastIndex(State())
      ensures applied == old(applied) + Deliveries(State(), old(commitIndex), commitIndex, 1)
    {
      hide Durable, Booked, Median;
      if startAppend {
        BookedKeeps(State(), server, termTemp, a, reply);
        Book(server, termTemp, a, reply);
        UpdateCommit();
      }
    }

    /** The send failed: nothing is booked, yet the commit rule runs. */
    method OnAppendFailure()
      requires Valid() && (startAppend ==> Median(matchIndex) <= LastIndex(State()))
      modifies this
      ensures Valid() && State() == NoReplyNext(old(State()))
      ensures old(commitIndex) < commitIndex ==> commitIndex <= LastIndex(State())
      ensures applied == old(applied) + Deliveries(State(), old(commitIndex), commitIndex, 1)
    {
      hide Durable, Median;
      if startAppend {
        UpdateCommit();
      }
    }

    // ----- snapshots -----

    method PersistV2(ss: Snapshot)
      requires Valid() && ss.lastIndex <= commitIndex
      modifies this
      ensures Valid() && State() == CompactNext(old(State()), ss.lastIndex) && applied == old(applied)
      ensures CanCompact(old(State()), ss.lastIndex) ==> disk.snapshot == Some(ss.(lastTerm := snapshotTerm))
      ensures !CanCompact(old(State()), ss.lastIndex) ==> disk.snapshot == old(disk.snapshot)
    {
      if ss.lastIndex <= snapshotIndex || ss.lastIndex - snapshotIndex > |log| - 1 {
        return;
      }
      var lastTerm, dropped := log[ss.lastIndex - snapshotIndex].term, ss.lastIndex - snapshotIndex;
      log := [PLACEHOLDER] + log[dropped + 1..];
      var i := 0;
      while i < peers
        invariant 0 <= i <= peers == |nextIndex|
        invariant State() == old(State()).(log := CutLog(old(State()), ss.lastIndex), nextIndex := nextIndex)
        invariant forall j :: 0 <= j < peers ==> nextIndex[j] == old(nextIndex[j]) - if j < i then dropped else 0
        invariant applied == old(applied)
      {
        nextIndex := nextIndex[i := nextIndex[i] + snapshotIndex - ss.lastIndex];
        i := i + 1;
      }
      assert nextIndex == CompactNext(old(State()), ss.lastIndex).nextIndex;
      snapshotIndex, snapshotTerm := ss.lastIndex, lastTerm;
      disk := Disk(Some(HardState(currentTerm, votedFor, log)), Some(ss.(lastTerm := lastTerm)));
    }

    /** What a leader sends to a follower that needs entries it no longer has. */
    method MakeSnapArgs() returns (args: Option<SnapArgs>)
      requires Valid()
      ensures args.Some? == disk.snapshot.Some?
      ensures args.Some? ==> args.value.term == currentTerm && args.value.leaderId == me && args.value.data == disk.snapshot.value
      ensures args.Some? ==> args.value.data.lastIndex == args.value.lastIncludedIndex && args.value.data.lastTerm == args.value.lastIncludedTerm
    {
      if disk.snapshot.None? {
        return None;
      }
      args := Some(SnapArgs(currentTerm, me, snapshotIndex, snapshotTerm, disk.snapshot.value));
    }

    method InstallSnapshot(args: SnapArgs) returns (replyTerm: nat)
      requires Valid() && args.data.lastIndex == args.lastIncludedIndex && args.data.lastTerm == args.lastIncludedTerm
      modifies this
      ensures Valid() && State() == InstallNext(old(State()), args.term, args.lastIncludedIndex, args.lastIncludedTerm)
      ensures replyTerm == old(currentTerm)
      ensures var installs := args.term >= old(currentTerm) && args.lastIncludedIndex > old(snapshotIndex);
        && applied == old(applied) + (if installs then [Installed(args.data)] else [])
        && disk.snapshot == if installs then Some(args.data) else old(disk.snapshot)
    {
      replyTerm := currentTerm;
      if args.term < currentTerm {
        return;
      }
      RecogniseSender(args.term);
      if args.lastIncludedIndex <= snapshotIndex {
        return;
      }
      InstallData(args.lastIncludedIndex, args.lastIncludedTerm, args.data);
    }

    /** The part of InstallSnapshot that replaces what the snapshot covers. */
    method InstallData(last: nat, lastTerm: nat, data: Snapshot)
      requires Shaped() && last > snapshotIndex && data.lastIndex == last && data.lastTerm == lastTerm
      modifies this
      ensures Valid() && State() == TakeOver(old(State()), last, lastTerm)
      ensures applied == old(applied) + [Installed(data)] && disk.snapshot == Some(data)
    {
      if commitIndex < last {
        commitIndex := last;
      }
      if |log| - 1 + snapshotIndex >= last && log[last - snapshotIndex].term == lastTerm {
        log := log[last + 1 - snapshotIndex..];
        log := [PLACEHOLDER] + log;
      } else {
        log := [PLACEHOLDER];
        Persist();
      }
      disk := Disk(Some(HardState(currentTerm, votedFor, log)), Some(data));
      snapshotIndex, snapshotTerm := last, lastTerm;
      applied := applied + [Installed(data)];
    }
  }

  /** The first n peers in the order of their match indexes. */
  ghost predicate Arranged(matchIndex: seq<nat>, ps: seq<nat>, n: nat) {
    && n <= |matchIndex| && Permutation(ps, n)
    && forall i, j :: 0 <= i < j < |ps| ==> matchIndex[ps[i]] <= matchIndex[ps[j]]
  }

  lemma InsertArranges(matchIndex: seq<nat>, ps: seq<nat>, next: nat, k: nat)
    requires next < |matchIndex| && Arranged(matchIndex, ps, next) && k <= next
    requires forall j :: k <= j < |ps| ==> matchIndex[next] < matchIndex[ps[j]]
    requires k > 0 ==> matchIndex[ps[k - 1]] <= matchIndex[next]
    ensures Arranged(matchIndex, ps[..k] + [next] + ps[k..], next + 1)
  {
    var qs := ps[..k] + [next] + ps[k..];
    forall i, j | 0 <= i < j < |qs|
      ensures qs[i] != qs[j] && matchIndex[qs[i]] <= matchIndex[qs[j]]
    {
      Inserted(ps, next, k, i);
      Inserted(ps, next, k, j);
    }
    forall i | 0 <= i < |qs|
      ensures qs[i] < next + 1
    {
      Inserted(ps, next, k, i);
    }
  }

  lemma KeepsDisk(s: Server, s': Server, disk: Disk)
    requires Durable(s, disk) && s' == s.(nextIndex := s'.nextIndex, matchIndex := s'.matchIndex, commitIndex := s'.commitIndex)
    ensures Durable(s', disk)
  {
  }

  lemma BookedKeeps(s: Server, server: nat, termTemp: nat, a: AppendArgs, reply: AppendReply)
    requires server < |s.nextIndex| == |s.matchIndex|
    ensures var s' := Booked(s, server, termTemp, a, reply);
      s'.log == s.log && s'.snapshotIndex == s.snapshotIndex && s'.commitIndex == s.commitIndex && s'.startAppend == s.startAppend
  {
    hide RollBack;
  }
}
