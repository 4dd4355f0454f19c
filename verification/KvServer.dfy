/** The key/value service on the fields it changes (src/kvraft/server.go): the apply loop, taking a
    snapshot, and starting from one. */
module KvServer {
  import opened Collections
  import opened KvCommands
  import opened KvStore
  import opened Compaction

  class KVServer {
    var mp: map<string, string>
    var cliMap: map<int, int>
    var lastApplied: nat

    ghost function State(): Service
      reads this
    {
      Service(Store(mp, cliMap), lastApplied)
    }

    /** Starts from the persisted snapshot, if there is one. */
    constructor (snapshot: Option<Snapshot>)
      ensures State() == if snapshot.Some? then Restored(snapshot.value) else Service(EMPTY, 0)
    {
      mp, cliMap, lastApplied := map[], map[], 0;
      if snapshot.Some? {
        mp, cliMap, lastApplied := snapshot.value.db, snapshot.value.clients, snapshot.value.lastIndex;
      }
    }

    method InstallSnapshot(ss: Snapshot)
      modifies this
      ensures State() == Receive(old(State()), Installed(ss))
    {
      mp, cliMap := ss.db, ss.clients;
      if ss.lastIndex > lastApplied {
        lastApplied := ss.lastIndex;
      }
    }

    /** Applies one committed command; a Get also yields what it read. */
    method ApplyOne(command: Command, index: nat) returns (read: Option<string>)
      modifies this
      ensures State() == Receive(old(State()), Committed(command, index))
      ensures read == if command.Request? && command.op.kind == Get && command.op.key in old(mp) then Some(old(mp)[command.op.key]) else None
    {
      read := None;
      lastApplied := index;
      match command
      case NoOp(_) =>
      case Request(op) =>
        var known := op.id in cliMap;
        match op.kind {
          case Get =>
            if op.key in mp {
              read := Some(mp[op.key]);
            }
            cliMap := cliMap[op.id := op.num];
          case Put =>
            if known && cliMap[op.id] >= op.num {
            } else {
              mp := mp[op.key := op.value];
              cliMap := cliMap[op.id := op.num];
            }
          case Append =>
            if known && cliMap[op.id] >= op.num {
            } else {
              if op.key !in mp {
                assert "" + op.value == op.value;
                mp := mp[op.key := op.value];
              } else {
                mp := mp[op.key := mp[op.key] + op.value];
              }
              cliMap := cliMap[op.id := op.num];
            }
        }
    }

    /** The apply loop, over the messages it takes from the channel. */
    method Applier(msgs: seq<ApplyMsg>)
      modifies this
      ensures State() == ReceiveAll(old(State()), msgs)
    {
      var i := 0;
      while i < |msgs|
        invariant 0 <= i <= |msgs|
        invariant ReceiveAll(State(), msgs[i..]) == ReceiveAll(old(State()), msgs)
      {
        match msgs[i] {
          case Committed(command, index) =>
            var _ := ApplyOne(command, index);
          case Installed(ss) =>
            InstallSnapshot(ss);
        }
        assert msgs[i..][1..] == msgs[i + 1..];
        i := i + 1;
      }
    }

    /** Copies both maps, entry by entry, into a snapshot of everything applied so far. */
    method TakeSnapshot() returns (ss: Snapshot)
      ensures ss.db == mp && ss.clients == cliMap && ss.lastIndex == lastApplied
      ensures forall log: seq<Command> :: lastApplied <= |log| && State() == After(log, lastApplied) ==> SnapshotOf(log, ss)
    {
      var db := CopyMap(mp);
      var clients := CopyMap(cliMap);
      ss := Snapshot(db, lastApplied, 0, clients);
    }
  }

  method CopyMap<K(==), V>(m: map<K, V>) returns (copy: map<K, V>)
    ensures copy == m
  {
    copy := map[];
    var left := m.Keys;
    while left != {}
      invariant left <= m.Keys && copy.Keys == m.Keys - left
      invariant forall k :: k in copy ==> copy[k] == m[k]
      decreases left
    {
      var k :| k in left;
      copy, left := copy[k := m[k]], left - {k};
    }
  }
}
