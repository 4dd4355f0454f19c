/** What the key/value service makes of the committed log (src/kvraft/server.go, Applier): every client
    request takes effect once, however often it was logged or delivered, and a snapshot stands for the
    part of the log it covers. */
module KvStore {
  import opened Collections
  import opened KvCommands
  import opened Strings
  import opened Compaction

  /** The database, and for every client the number of its latest request. */
  datatype Store = Store(db: map<string, string>, clients: map<int, int>)

  const EMPTY := Store(map[], map[])

  function Write(db: map<string, string>, op: Op): map<string, string> {
    match op.kind
    case Get => db
    case Put => db[op.key := op.value]
    case Append => db[op.key := (if op.key in db then db[op.key] else "") + op.value]
  }

  /** The client table says the request was already executed. */
  predicate Executed(st: Store, op: Op) {
    op.id in st.clients && st.clients[op.id] >= op.num
  }

  function ApplyCommand(st: Store, c: Command): Store {
    match c
    case NoOp(_) => st
    case Request(op) =>
      if op.kind != Get && Executed(st, op) then st else Store(Write(st.db, op), st.clients[op.id := op.num])
  }

  function Replay(st: Store, log: seq<Command>): Store {
    if log == [] then st else ApplyCommand(Replay(st, log[..|log| - 1]), log[|log| - 1])
  }

  lemma {:induction false} ReplayConcat(st: Store, a: seq<Command>, b: seq<Command>)
    ensures Replay(st, a + b) == Replay(Replay(st, a), b)
  {
    if b == [] {
      assert a + b == a;
    } else {
      assert (a + b)[..|a + b| - 1] == a + b[..|b| - 1];
      ReplayConcat(st, a, b[..|b| - 1]);
    }
  }

  // ----- exactly once -----

  /** The two log entries carry the same request. */
  predicate SameRequest(c: Command, d: Command) {
    c.Request? && d.Request? && c.op.id == d.op.id && c.op.num == d.op.num
  }

  ghost predicate Repeats(log: seq<Command>, c: Command) {
    exists i :: 0 <= i < |log| && SameRequest(log[i], c)
  }

  /** Unless it only repeats an earlier write, c's number is no lower than its client's earlier ones.  A retried
      write may come late, even after later requests of its client. */
  ghost predicate MayFollow(log: seq<Command>, c: Command) {
    c.Request? && (c.op.kind == Get || !Repeats(log, c)) ==>
      forall i :: 0 <= i < |log| && log[i].Request? && log[i].op.id == c.op.id ==> log[i].op.num <= c.op.num
  }

  /** Every Get, and every write that is not a repeat, is numbered at least as high as all before it of its client. */
  ghost predicate Sessions(log: seq<Command>) {
    forall k :: 0 <= k < |log| ==> MayFollow(log[..k], log[k])
  }

  /** The log without the repetitions of requests. */
  ghost function Firsts(log: seq<Command>): (firsts: seq<Command>) {
    if log == [] then [] else
      var earlier, c := log[..|log| - 1], log[|log| - 1];
      if Repeats(earlier, c) then Firsts(earlier) else Firsts(earlier) + [c]
  }

  /** No bookkeeping: puts and appends in log order. */
  function PlainDb(log: seq<Command>): map<string, string> {
    if log == [] then map[] else
      var db, c := PlainDb(log[..|log| - 1]), log[|log| - 1];
      if c.Request? then Write(db, c.op) else db
  }

  predicate PutsTo(c: Command, key: string) {
    c.Request? && c.op.kind == Put && c.op.key == key
  }

  predicate AppendsTo(c: Command, key: string) {
    c.Request? && c.op.kind == Append && c.op.key == key
  }

  /** The position of the last Put of a key among the first n commands; -1 when there is none. */
  function LastPut(log: seq<Command>, key: string, n: nat): (p: int)
    requires n <= |log|
    ensures -1 <= p < n
    ensures p >= 0 ==> PutsTo(log[p], key)
    ensures forall j :: p < j < n ==> !PutsTo(log[j], key)
  {
    if n == 0 then -1 else if PutsTo(log[n - 1], key) then n - 1 else LastPut(log, key, n - 1)
  }

  /** What a command appends to a key. */
  function Piece(c: Command, key: string): string {
    if AppendsTo(c, key) then c.op.value else ""
  }

  /** The values appended to a key from position `low` up to position `high`, first to last. */
  function Appended(log: seq<Command>, key: string, low: nat, high: nat): string
    requires high <= |log|
    decreases high - low
  {
    if low >= high then "" else Piece(log[low], key) + Appended(log, key, low + 1, high)
  }

  lemma {:induction false} AppendedSnoc(log: seq<Command>, key: string, low: nat, high: nat)
    requires low <= high < |log|
    ensures Appended(log, key, low, high + 1) == Appended(log, key, low, high) + Piece(log[high], key)
    decreases high - low
  {
    hide Piece;
    if low < high {
      AppendedSnoc(log, key, low + 1, high);
      ConcatAssociative(Piece(log[low], key), Appended(log, key, low + 1, high), Piece(log[high], key));
    } else {
      ConcatEmpty(Piece(log[high], key));
    }
  }

  /** What the last Put of a key among the first n commands wrote, followed by all they appended to it since. */
  function Content(log: seq<Command>, key: string, n: nat): string
    requires n <= |log|
  {
    var p := LastPut(log, key, n);
    (if p >= 0 then log[p].op.value else "") + Appended(log, key, p + 1, n)
  }

  lemma ContentNext(log: seq<Command>, key: string, n: nat)
    requires n < |log|
    ensures Content(log, key, n + 1) == if PutsTo(log[n], key) then log[n].op.value
                                        else if AppendsTo(log[n], key) then Content(log, key, n) + log[n].op.value
                                        else Content(log, key, n)
  {
    var p := LastPut(log, key, n);
    if PutsTo(log[n], key) {
      ConcatEmpty(log[n].op.value);
    } else {
      AppendedSnoc(log, key, p + 1, n);
      ConcatAssociative(if p >= 0 then log[p].op.value else "", Appended(log, key, p + 1, n), Piece(log[n], key));
      ConcatEmpty(Content(log, key, n));
    }
  }

  ghost predicate Written(log: seq<Command>, key: string, n: nat)
    requires n <= |log|
  {
    exists i :: 0 <= i < n && (PutsTo(log[i], key) || AppendsTo(log[i], key))
  }

  function Lookup(db: map<string, string>, key: string): string {
    if key in db then db[key] else ""
  }

  /** What plain puts and appends make of a key: it is there exactly when they write it, and holds what its
      last Put wrote followed by all that was appended to it since. */
  lemma {:induction false} PlainMeaning(log: seq<Command>, key: string, n: nat)
    requires n <= |log|
    ensures key in PlainDb(log[..n]) <==> Written(log, key, n)
    ensures Lookup(PlainDb(log[..n]), key) == Content(log, key, n)
  {
    if n > 0 {
      hide Content, Write;
      PlainMeaning(log, key, n - 1);
      ContentNext(log, key, n - 1);
      assert log[..n][..n - 1] == log[..n - 1];
      if log[n - 1].Request? {
        WriteMeaning(PlainDb(log[..n - 1]), log[n - 1], key);
      }
    }
  }

  lemma WriteMeaning(db: map<string, string>, c: Command, key: string)
    requires c.Request?
    ensures key in Write(db, c.op) <==> key in db || PutsTo(c, key) || AppendsTo(c, key)
    ensures Lookup(Write(db, c.op), key) == if PutsTo(c, key) then c.op.value
                                            else if AppendsTo(c, key) then Lookup(db, key) + c.op.value
                                            else Lookup(db, key)
  {
  }

  /** The entries of Firsts are the log's, each request once. */
  lemma {:induction false} FirstsMeaning(log: seq<Command>)
    ensures forall c :: c in log ==> c in Firsts(log) || Repeats(Firsts(log), c)
    ensures forall c :: c in Firsts(log) ==> c in log
    ensures forall i, j :: 0 <= i < j < |Firsts(log)| ==> !SameRequest(Firsts(log)[i], Firsts(log)[j])
  {
    if log != [] {
      var earlier, c := log[..|log| - 1], log[|log| - 1];
      FirstsMeaning(earlier);
      assert log == earlier + [c];
      RepeatsKept(earlier, c);
      forall d | d in log
        ensures d in Firsts(log) || Repeats(Firsts(log), d)
      {
        if d in earlier && d !in Firsts(earlier) {
          var i :| 0 <= i < |Firsts(earlier)| && SameRequest(Firsts(earlier)[i], d);
          assert SameRequest(Firsts(log)[i], d);
        }
      }
    }
  }

  lemma {:induction false} RepeatsKept(log: seq<Command>, c: Command)
    ensures Repeats(log, c) <==> Repeats(Firsts(log), c)
  {
    if log != [] {
      var earlier, last := log[..|log| - 1], log[|log| - 1];
      RepeatsKept(earlier, c);
      RepeatsKept(earlier, last);
      assert Repeats(log, c) <==> Repeats(earlier, c) || SameRequest(last, c) by {
        assert log == earlier + [last];
        if Repeats(earlier, c) {
          var i :| 0 <= i < |earlier| && SameRequest(earlier[i], c);
          assert SameRequest(log[i], c);
        }
        if SameRequest(last, c) {
          assert SameRequest(log[|log| - 1], c);
        }
      }
      if Repeats(earlier, last) {
        assert SameRequest(last, c) ==> Repeats(earlier, c) by {
          var i :| 0 <= i < |earlier| && SameRequest(earlier[i], last);
          assert SameRequest(last, c) ==> SameRequest(earlier[i], c);
        }
      } else {
        RepeatsSnoc(Firsts(earlier), last, c);
      }
    }
  }

  lemma RepeatsSnoc(log: seq<Command>, last: Command, c: Command)
    ensures Repeats(log + [last], c) <==> Repeats(log, c) || SameRequest(last, c)
  {
    if Repeats(log, c) {
      var i :| 0 <= i < |log| && SameRequest(log[i], c);
      assert SameRequest((log + [last])[i], c);
    }
    if SameRequest(last, c) {
      assert SameRequest((log + [last])[|log|], c);
    }
  }

  /** The client table holds the highest number logged for each client. */
  ghost predicate TableOk(log: seq<Command>, clients: map<int, int>) {
    && (forall i :: 0 <= i < |log| && log[i].Request? ==> log[i].op.id in clients && log[i].op.num <= clients[log[i].op.id])
    && (forall id :: id in clients ==> exists i :: 0 <= i < |log| && log[i].Request? && log[i].op.id == id && log[i].op.num == clients[id])
  }

  lemma ExecutedIffRepeats(log: seq<Command>, c: Command, st: Store)
    requires c.Request? && c.op.kind != Get && MayFollow(log, c) && TableOk(log, st.clients)
    ensures Executed(st, c.op) <==> Repeats(log, c)
  {
    if Executed(st, c.op) {
      var i :| 0 <= i < |log| && log[i].Request? && log[i].op.id == c.op.id && log[i].op.num == st.clients[c.op.id];
      assert log[i].op.num == c.op.num ==> SameRequest(log[i], c);
    }
  }

  lemma TableSnoc(log: seq<Command>, c: Command, st: Store)
    requires MayFollow(log, c) && TableOk(log, st.clients)
    ensures TableOk(log + [c], ApplyCommand(st, c).clients)
  {
    var whole, clients := log + [c], ApplyCommand(st, c).clients;
    assert whole[|log|] == c && forall i :: 0 <= i < |log| ==> whole[i] == log[i];
    if c.Request? && c.op.kind != Get {
      ExecutedIffRepeats(log, c, st);
    }
    forall id | id in clients
      ensures exists i :: 0 <= i < |whole| && whole[i].Request? && whole[i].op.id == id && whole[i].op.num == clients[id]
    {
      if id in st.clients && clients[id] == st.clients[id] {
        var i :| 0 <= i < |log| && log[i].Request? && log[i].op.id == id && log[i].op.num == st.clients[id];
        assert whole[i] == log[i];
      } else {
        assert whole[|log|].Request?;
      }
    }
  }

  lemma SessionsPrefix(log: seq<Command>, n: nat)
    requires Sessions(log) && n <= |log|
    ensures Sessions(log[..n]) && (n < |log| ==> MayFollow(log[..n], log[n]))
  {
    hide MayFollow;
    forall k | 0 <= k < n
      ensures MayFollow(log[..n][..k], log[..n][k])
    {
      assert log[..n][..k] == log[..k];
    }
  }

  lemma {:induction false} ReplayTable(log: seq<Command>)
    requires Sessions(log)
    ensures TableOk(log, Replay(EMPTY, log).clients)
  {
    if log != [] {
      hide Sessions, MayFollow, TableOk, ApplyCommand;
      var earlier, c := log[..|log| - 1], log[|log| - 1];
      assert log == earlier + [c];
      SessionsPrefix(log, |log| - 1);
      ReplayTable(earlier);
      TableSnoc(earlier, c, Replay(EMPTY, earlier));
    }
  }

  /** After k commands the client table is right: every logged request counts as executed, and a write that
      comes next and is new does not. */
  ghost predicate Decides(log: seq<Command>, k: nat)
    requires k <= |log|
  {
    var st := Replay(EMPTY, log[..k]);
    && (forall i :: 0 <= i < k && log[i].Request? ==> Executed(st, log[i].op))
    && (k < |log| && log[k].Request? && log[k].op.kind != Get && !Repeats(log[..k], log[k]) ==> !Executed(st, log[k].op))
  }

  lemma SessionsDecide(log: seq<Command>, k: nat)
    requires Sessions(log) && k <= |log|
    ensures Decides(log, k)
  {
    hide Sessions, Replay;
    SessionsPrefix(log, k);
    ReplayTable(log[..k]);
    var st := Replay(EMPTY, log[..k]);
    forall i | 0 <= i < k && log[i].Request?
      ensures Executed(st, log[i].op)
    {
      assert log[..k][i] == log[i];
    }
    if k < |log| && log[k].Request? && log[k].op.kind != Get {
      ExecutedIffRepeats(log[..k], log[k], st);
    }
  }

  lemma DecidingFollows(log: seq<Command>, k: nat)
    requires k < |log| && Decides(log, k) && Decides(log, k + 1)
    ensures MayFollow(log[..k], log[k])
  {
    var c := log[k];
    assert log[..k + 1][..k] == log[..k];
    assert Replay(EMPTY, log[..k + 1]) == ApplyCommand(Replay(EMPTY, log[..k]), c);
    if c.Request? && (c.op.kind == Get || !Repeats(log[..k], c)) {
      forall i | 0 <= i < k && log[..k][i].Request? && log[..k][i].op.id == c.op.id
        ensures log[..k][i].op.num <= c.op.num
      {
        assert log[..k][i] == log[i];
        if c.op.kind == Get {
          assert Executed(Replay(EMPTY, log[..k + 1]), log[i].op);
        } else {
          assert Executed(Replay(EMPTY, log[..k]), log[i].op);
        }
      }
    }
  }

  /** The sessions the client table needs, exactly: it decides rightly at every point of the log if and only if
      every Get, and every write that is not a repeat, is numbered at least as high as all before it of its client. */
  lemma TableRightIffSessions(log: seq<Command>)
    ensures Sessions(log) <==> forall k :: 0 <= k <= |log| ==> Decides(log, k)
  {
    hide Decides, MayFollow;
    if Sessions(log) {
      forall k | 0 <= k <= |log|
        ensures Decides(log, k)
      {
        SessionsDecide(log, k);
      }
    }
    if forall k :: 0 <= k <= |log| ==> Decides(log, k) {
      forall k | 0 <= k < |log|
        ensures MayFollow(log[..k], log[k])
      {
        DecidingFollows(log, k);
      }
    }
  }

  // ----- what writes alone need -----

  predicate IsWrite(c: Command) {
    c.Request? && c.op.kind != Get
  }

  /** The number of the client's latest request that is a Get or a write not logged before. */
  ghost function Latest(log: seq<Command>, id: int): Option<int> {
    if log == [] then None else
      var earlier, c := log[..|log| - 1], log[|log| - 1];
      if c.Request? && c.op.id == id && (c.op.kind == Get || !Repeats(earlier, c)) then Some(c.op.num) else Latest(earlier, id)
  }

  /** A write at k repeats exactly when its client's latest number has reached its own. */
  ghost predicate RetriesAt(log: seq<Command>, k: nat)
    requires k < |log|
  {
    IsWrite(log[k]) ==>
      var latest := Latest(log[..k], log[k].op.id);
      Repeats(log[..k], log[k]) <==> latest.Some? && latest.value >= log[k].op.num
  }

  ghost predicate Retries(log: seq<Command>) {
    forall k :: 0 <= k < |log| ==> RetriesAt(log, k)
  }

  /** A write at k is skipped exactly when it repeats. */
  ghost predicate RightAt(log: seq<Command>, k: nat)
    requires k < |log|
  {
    IsWrite(log[k]) ==> (Executed(Replay(EMPTY, log[..k]), log[k].op) <==> Repeats(log[..k], log[k]))
  }

  /** The client table holds each client's latest number. */
  ghost predicate HoldsLatest(log: seq<Command>, clients: map<int, int>) {
    forall id :: Latest(log, id) == if id in clients then Some(clients[id]) else None
  }

  lemma LatestSnoc(log: seq<Command>, c: Command, st: Store)
    requires HoldsLatest(log, st.clients) && (IsWrite(c) ==> (Executed(st, c.op) <==> Repeats(log, c)))
    ensures HoldsLatest(log + [c], ApplyCommand(st, c).clients)
  {
    hide Repeats;
    assert (log + [c])[..|log|] == log;
    assert forall id :: Latest(log, id) == Latest((log + [c])[..|log|], id);
  }

  lemma {:induction false} LatestHeld(log: seq<Command>, n: nat)
    requires n <= |log| && forall k :: 0 <= k < n ==> RightAt(log, k) || RetriesAt(log, k)
    ensures HoldsLatest(log[..n], Replay(EMPTY, log[..n]).clients)
    ensures forall k :: 0 <= k < n ==> RightAt(log, k) && RetriesAt(log, k)
  {
    if n > 0 {
      LatestHeld(log, n - 1);
      assert RightAt(log, n - 1) || RetriesAt(log, n - 1);
      assert RightAt(log, n - 1) && RetriesAt(log, n - 1);
      assert log[..n] == log[..n - 1] + [log[n - 1]];
      assert log[..n][..n - 1] == log[..n - 1];
      LatestSnoc(log[..n - 1], log[n - 1], Replay(EMPTY, log[..n - 1]));
    }
  }

  /** Exactly when every write is skipped if and only if it repeats: when a write repeats if and only if its
      client's latest number has reached its own. */
  lemma WritesRightIffRetries(log: seq<Command>)
    ensures Retries(log) <==> forall k :: 0 <= k < |log| ==> RightAt(log, k)
  {
    hide RightAt, RetriesAt;
    if Retries(log) || forall k :: 0 <= k < |log| ==> RightAt(log, k) {
      LatestHeld(log, |log|);
    }
  }

  /** What makes the whole table right makes every write right. */
  lemma SessionsAreRetries(log: seq<Command>)
    requires Sessions(log)
    ensures Retries(log)
  {
    forall k | 0 <= k < |log|
      ensures RightAt(log, k)
    {
      SessionsDecide(log, k);
      if IsWrite(log[k]) && Repeats(log[..k], log[k]) {
        var i :| 0 <= i < k && SameRequest(log[..k][i], log[k]);
        assert log[..k][i] == log[i];
      }
    }
    hide RightAt;
    WritesRightIffRetries(log);
  }

  lemma FirstsStep(log: seq<Command>, c: Command, st: Store)
    requires (IsWrite(c) ==> (Executed(st, c.op) <==> Repeats(log, c))) && st.db == PlainDb(Firsts(log))
    ensures ApplyCommand(st, c).db == PlainDb(Firsts(log + [c]))
  {
    hide Repeats;
    assert (log + [c])[..|log|] == log;
    assert (Firsts(log) + [c])[..|Firsts(log)|] == Firsts(log);
  }

  lemma {:induction false} ReplayFirsts(log: seq<Command>, n: nat)
    requires n <= |log| && forall k :: 0 <= k < n ==> RightAt(log, k)
    ensures Replay(EMPTY, log[..n]).db == PlainDb(Firsts(log[..n]))
  {
    if n > 0 {
      hide Firsts, PlainDb, ApplyCommand;
      ReplayFirsts(log, n - 1);
      assert RightAt(log, n - 1);
      assert log[..n] == log[..n - 1] + [log[n - 1]];
      assert log[..n][..n - 1] == log[..n - 1];
      FirstsStep(log[..n - 1], log[n - 1], Replay(EMPTY, log[..n - 1]));
    } else {
      assert log[..0] == [];
    }
  }

  /** Exactly once: the database after any part of such a log is what plain puts and appends make of that
      part without its repeated requests. */
  lemma ExactlyOnce(log: seq<Command>, n: nat)
    requires Retries(log) && n <= |log|
    ensures Replay(EMPTY, log[..n]).db == PlainDb(Firsts(log[..n]))
    ensures HoldsContent(Replay(EMPTY, log[..n]).db, Firsts(log[..n]))
  {
    hide RetriesAt, RightAt;
    WritesRightIffRetries(log);
    ReplayFirsts(log, n);
    PlainHolds(Firsts(log[..n]));
  }

  /** The database holds the keys the log writes, each with what was last put and since appended. */
  ghost predicate HoldsContent(db: map<string, string>, log: seq<Command>) {
    forall key :: (key in db <==> Written(log, key, |log|)) && Lookup(db, key) == Content(log, key, |log|)
  }

  lemma PlainHolds(log: seq<Command>)
    ensures HoldsContent(PlainDb(log), log)
  {
    hide Content, Written;
    forall key
      ensures (key in PlainDb(log) <==> Written(log, key, |log|)) && Lookup(PlainDb(log), key) == Content(log, key, |log|)
    {
      PlainMeaning(log, key, |log|);
      assert log[..|log|] == log;
    }
  }

  /** Without it exactly-once fails: a late Get lowers the client's number, and a retry runs again. */
  lemma LateGetDefeatsTable() returns (log: seq<Command>)
    ensures !Retries(log) && !Sessions(log) && Replay(EMPTY, log).db != PlainDb(Firsts(log))
  {
    var append, get := Request(Op(7, 2, Append, "k", "x")), Request(Op(7, 1, Get, "k", ""));
    log := [append, get, append];
    var one, two := [append], [append, get];
    assert log[..2] == two && two[..1] == one && one[..0] == [];
    assert "" + "x" == "x";
    assert Replay(EMPTY, []) == EMPTY && PlainDb([]) == map[];
    assert Replay(EMPTY, one) == Store(map["k" := "x"], map[7 := 2]);
    assert Replay(EMPTY, two) == Store(map["k" := "x"], map[7 := 1]);
    assert Replay(EMPTY, log).db["k"] == "xx";
    assert Repeats(two, append) by { assert SameRequest(two[0], append); }
    assert !Repeats(one, get) && !Repeats([], append);
    assert Firsts(one) == [append] && Firsts(two) == [append, get] == Firsts(log);
    assert PlainDb(one) == map["k" := "x"] == PlainDb(two);
    hide Retries, Sessions;
    assert log[..3] == log;
    if Retries(log) {
      ExactlyOnce(log, 3);
    } else if Sessions(log) {
      SessionsAreRetries(log);
    }
  }

  /** A late Get that no retried write follows does no harm, although it leaves the table wrong. */
  lemma LateGetAlone() returns (log: seq<Command>)
    ensures Retries(log) && !Sessions(log)
  {
    log := [Request(Op(7, 2, Append, "k", "x")), Request(Op(7, 1, Get, "k", ""))];
    assert log[..0] == [];
    assert RetriesAt(log, 0) && RetriesAt(log, 1);
    assert !MayFollow(log[..1], log[1]) by { assert log[..1][0].op.num > log[1].op.num; }
  }

  /** Delivering a command again straight away changes nothing. */
  lemma ApplyTwice(st: Store, c: Command)
    ensures ApplyCommand(ApplyCommand(st, c), c) == ApplyCommand(st, c)
  {
  }

  // ----- deliveries and snapshots -----

  /** The service's state: the store, and the index it has applied up to. */
  datatype Service = Service(store: Store, lastApplied: nat)

  function Receive(sv: Service, m: ApplyMsg): Service {
    match m
    case Committed(c, index) => Service(ApplyCommand(sv.store, c), index)
    case Installed(ss) => Service(Store(ss.db, ss.clients), if ss.lastIndex > sv.lastApplied then ss.lastIndex else sv.lastApplied)
  }

  function ReceiveAll(sv: Service, msgs: seq<ApplyMsg>): Service
    decreases |msgs|
  {
    if msgs == [] then sv else ReceiveAll(Receive(sv, msgs[0]), msgs[1..])
  }

  /** What the service holds after the first k commands of the log. */
  function After(log: seq<Command>, k: nat): Service
    requires k <= |log|
  {
    Service(Replay(EMPTY, log[..k]), k)
  }

  /** The snapshot is one of this log. */
  predicate SnapshotOf(log: seq<Command>, ss: Snapshot) {
    ss.lastIndex <= |log| && Store(ss.db, ss.clients) == After(log, ss.lastIndex).store
  }

  /** The message continues a service that stands at `last`: the next command, the same one again, or a
      snapshot that is not behind. */
  predicate Continues(log: seq<Command>, last: nat, m: ApplyMsg) {
    match m
    case Committed(c, index) => 1 <= index <= |log| && c == log[index - 1] && (index == last || index == last + 1)
    case Installed(ss) => SnapshotOf(log, ss) && ss.lastIndex >= last
  }

  function Position(m: ApplyMsg): nat {
    if m.Committed? then m.index else m.snapshot.lastIndex
  }

  predicate Legal(log: seq<Command>, last: nat, msgs: seq<ApplyMsg>)
    decreases |msgs|
  {
    msgs != [] ==> Continues(log, last, msgs[0]) && Legal(log, Position(msgs[0]), msgs[1..])
  }

  function End(last: nat, msgs: seq<ApplyMsg>): nat {
    if msgs == [] then last else Position(msgs[|msgs| - 1])
  }

  lemma AfterNext(log: seq<Command>, k: nat)
    requires k < |log|
    ensures After(log, k + 1).store == ApplyCommand(After(log, k).store, log[k])
  {
    assert log[..k + 1][..k] == log[..k];
  }

  lemma ReceiveContinues(log: seq<Command>, last: nat, m: ApplyMsg)
    requires last <= |log| && Continues(log, last, m)
    ensures Position(m) <= |log| && Receive(After(log, last), m) == After(log, Position(m))
  {
    match m
    case Committed(c, index) =>
      AfterNext(log, index - 1);
      ApplyTwice(After(log, index - 1).store, c);
    case Installed(ss) =>
  }

  /** Whatever mixture of single, repeated and skipped-by-snapshot deliveries the service receives, it
      ends with what the whole log up to that point makes of the empty store. */
  lemma {:induction false} DeliveriesReplay(log: seq<Command>, last: nat, msgs: seq<ApplyMsg>)
    requires last <= |log| && Legal(log, last, msgs)
    ensures End(last, msgs) <= |log| && ReceiveAll(After(log, last), msgs) == After(log, End(last, msgs))
    decreases |msgs|
  {
    if msgs != [] {
      ReceiveContinues(log, last, msgs[0]);
      DeliveriesReplay(log, Position(msgs[0]), msgs[1..]);
    }
  }

  /** And so, in such a log, every request has taken effect exactly once. */
  lemma DeliveriesExactlyOnce(log: seq<Command>, msgs: seq<ApplyMsg>)
    requires Retries(log) && Legal(log, 0, msgs)
    ensures var k := End(0, msgs); k <= |log| && HoldsContent(ReceiveAll(Service(EMPTY, 0), msgs).store.db, Firsts(log[..k]))
  {
    assert log[..0] == [];
    DeliveriesReplay(log, 0, msgs);
    ExactlyOnce(log, End(0, msgs));
  }

  /** A snapshot behind the service, which it would install unchecked, leaves its store and its index apart. */
  lemma StaleInstall() returns (log: seq<Command>, last: nat, ss: Snapshot)
    ensures last <= |log| && SnapshotOf(log, ss) && ss.lastIndex < last
    ensures Receive(After(log, last), Installed(ss)) != After(log, ss.lastIndex)
    ensures Receive(After(log, last), Installed(ss)) != After(log, last)
  {
    log, last, ss := [Request(Op(1, 1, Put, "k", "v"))], 1, Snapshot(map[], 0, 0, map[]);
    assert log[..0] == [] && log[..1] == log;
    assert Replay(EMPTY, log).db["k"] == "v";
  }

  /** Every command from position i up to `last` is a no-op or repeats a request the snapshot at i covers. */
  ghost predicate OnlyRepeats(log: seq<Command>, i: nat, last: nat)
    requires i <= |log| && last <= |log|
  {
    forall k :: i <= k < last ==> log[k].NoOp? || Repeats(log[..i], log[k])
  }

  lemma RepeatsLonger(log: seq<Command>, i: nat, k: nat, c: Command)
    requires i <= k <= |log| && Repeats(log[..i], c)
    ensures Repeats(log[..k], c)
  {
    var p :| 0 <= p < i && SameRequest(log[..i][p], c);
    assert log[..k][p] == log[..i][p];
  }

  /** A covered request finds its number in the table, so it changes nothing. */
  lemma RepeatChangesNothing(log: seq<Command>, c: Command, st: Store)
    requires MayFollow(log, c) && TableOk(log, st.clients) && Repeats(log, c)
    ensures ApplyCommand(st, c) == st
  {
    if IsWrite(c) {
      ExecutedIffRepeats(log, c, st);
    } else {
      var p :| 0 <= p < |log| && SameRequest(log[p], c);
      var q :| 0 <= q < |log| && log[q].Request? && log[q].op.id == c.op.id && log[q].op.num == st.clients[c.op.id];
      assert st.clients[c.op.id := c.op.num] == st.clients;
    }
  }

  lemma {:induction false} RepeatsLeaveStore(log: seq<Command>, i: nat, last: nat)
    requires Sessions(log) && i <= last <= |log| && OnlyRepeats(log, i, last)
    ensures After(log, last).store == After(log, i).store
    decreases last
  {
    if i < last {
      hide Sessions, MayFollow, TableOk, Repeats, Replay;
      RepeatsLeaveStore(log, i, last - 1);
      AfterNext(log, last - 1);
      var c := log[last - 1];
      if c.Request? {
        assert Repeats(log[..i], c);
        RepeatsLonger(log, i, last - 1, c);
        SessionsPrefix(log, last - 1);
        ReplayTable(log[..last - 1]);
        RepeatChangesNothing(log[..last - 1], c, After(log, last - 1).store);
      }
    }
  }

  /** When the table is the same at both positions, what lies between was logged before. */
  lemma {:induction false} SameTableRepeats(log: seq<Command>, i: nat, last: nat, k: nat, clients: map<int, int>)
    requires Sessions(log) && i <= k < last <= |log| && TableOk(log[..i], clients) && TableOk(log[..last], clients) && log[k].Request?
    ensures Repeats(log[..i], log[k])
    decreases k
  {
    var c := log[k];
    assert log[..last][k] == c && c.op.num <= clients[c.op.id];
    var j :| 0 <= j < i && log[..i][j].Request? && log[..i][j].op.id == c.op.id && log[..i][j].op.num == clients[c.op.id];
    assert log[..i][j] == log[j] == log[..k][j];
    SessionsPrefix(log, k);
    if IsWrite(c) && Repeats(log[..k], c) {
      var p :| 0 <= p < k && SameRequest(log[..k][p], c);
      assert log[..k][p] == log[p];
      if p < i {
        assert SameRequest(log[..i][p], c);
      } else {
        SameTableRepeats(log, i, last, p, clients);
        var r :| 0 <= r < i && SameRequest(log[..i][r], log[p]);
        assert SameRequest(log[..i][r], c);
      }
    } else {
      assert SameRequest(log[..i][j], c);
    }
  }

  /** Exactly when installing a snapshot of its log leaves the service where its index says: when everything
      the service had applied beyond the snapshot was a no-op or repeated a request the snapshot covers.  A
      snapshot that is not behind always does. */
  lemma InstallConsistentIff(log: seq<Command>, last: nat, ss: Snapshot)
    requires Sessions(log) && last <= |log| && SnapshotOf(log, ss)
    ensures var sv := Receive(After(log, last), Installed(ss));
      sv.lastApplied <= |log| && (sv == After(log, sv.lastApplied) <==> OnlyRepeats(log, ss.lastIndex, last))
  {
    hide Sessions, Repeats, TableOk, Replay;
    var i := ss.lastIndex;
    if i < last {
      if After(log, i).store == After(log, last).store {
        SessionsPrefix(log, i);
        SessionsPrefix(log, last);
        ReplayTable(log[..i]);
        ReplayTable(log[..last]);
        forall k | i <= k < last && log[k].Request?
          ensures Repeats(log[..i], log[k])
        {
          SameTableRepeats(log, i, last, k, After(log, i).store.clients);
        }
      }
      if OnlyRepeats(log, i, last) {
        RepeatsLeaveStore(log, i, last);
      }
    }
  }

  // ----- recovery -----

  /** What readSnap makes of a stored snapshot. */
  function Restored(ss: Snapshot): Service {
    Service(Store(ss.db, ss.clients), ss.lastIndex)
  }

  /** Snapshot recovery is replay: restoring a snapshot and applying the later commands gives the same
      database and client table as applying the whole log. */
  lemma RecoveryIsReplay(log: seq<Command>, ss: Snapshot)
    requires SnapshotOf(log, ss)
    ensures Restored(ss) == After(log, ss.lastIndex)
    ensures Replay(Restored(ss).store, log[ss.lastIndex..]) == Replay(EMPTY, log)
  {
    ReplayConcat(EMPTY, log[..ss.lastIndex], log[ss.lastIndex..]);
    assert log[..ss.lastIndex] + log[ss.lastIndex..] == log;
  }
}
