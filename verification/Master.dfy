/** The MapReduce master (src/mr/master.go): a circular doubly linked list of tasks per phase, from which
    finished tasks are unlinked while scanning for work. */
module Master {

  class TaskNode {
    const taskId: int
    var next: TaskNode
    var prev: TaskNode

    constructor (taskId: int)
      ensures this.taskId == taskId && next == this && prev == this
    {
      this.taskId := taskId;
      next, prev := this, this;
    }
  }

  // ----- rings -----

  /** A ring's nodes in the order they were added, the head first, and for each the positions its two links
      lead to.  Position p > 0 holds task p - 1.  Unlinked nodes keep their place here. */
  datatype Shape = Shape(nodes: seq<TaskNode>, next: seq<nat>, prev: seq<nat>)

  ghost predicate Sized(sh: Shape) {
    |sh.next| == |sh.prev| == |sh.nodes| > 0
  }

  ghost predicate At(sh: Shape, k: int)
    requires Sized(sh) && 0 <= k < |sh.nodes|
    reads sh.nodes[k]
  {
    && sh.next[k] < |sh.nodes| && sh.prev[k] < |sh.nodes| && sh.nodes[k].taskId == k - 1
    && sh.nodes[k].next == sh.nodes[sh.next[k]] && sh.nodes[k].prev == sh.nodes[sh.prev[k]]
  }

  /** The links in the heap are those of the shape. */
  ghost predicate Linked(sh: Shape)
    reads sh.nodes
  {
    Sized(sh) && forall k :: 0 <= k < |sh.nodes| ==> At(sh, k)
  }

  /** The tasks strictly between positions a and b are finished. */
  predicate AllDone(done: seq<bool>, a: int, b: int) {
    forall t :: a <= t < b - 1 && 0 <= t < |done| ==> done[t]
  }

  /** Going on from position k to position q skips only finished tasks. */
  predicate Forward(done: seq<bool>, k: int, q: int) {
    if q == 0 then AllDone(done, k, |done| + 1) else k < q <= |done| && AllDone(done, k, q)
  }

  /** So does going back from position k to position q. */
  predicate Backward(done: seq<bool>, k: int, q: int) {
    if k == 0 then 0 <= q <= |done| && AllDone(done, q, |done| + 1) else 0 <= q < k && AllDone(done, q, k)
  }

  /** In every node, linked in or not, both links skip only finished tasks. */
  ghost predicate SkipsOnlyDone(sh: Shape, done: seq<bool>) {
    && |sh.next| == |sh.prev| == |sh.nodes| == |done| + 1
    && forall k :: 0 <= k < |sh.nodes| ==> Forward(done, k, sh.next[k]) && Backward(done, k, sh.prev[k])
  }

  ghost function Unlinked(sh: Shape, p: nat): Shape
    requires |sh.next| == |sh.prev| == |sh.nodes| && p < |sh.nodes| && sh.next[p] < |sh.nodes| && sh.prev[p] < |sh.nodes|
  {
    sh.(next := sh.next[sh.prev[p] := sh.next[p]], prev := sh.prev[sh.next[p] := sh.prev[p]])
  }

  ghost function Appended(sh: Shape, node: TaskNode): Shape
    requires |sh.next| == |sh.prev| == |sh.nodes| > 0 && sh.prev[0] < |sh.nodes|
  {
    var n, last := |sh.nodes|, sh.prev[0];
    Shape(sh.nodes + [node], sh.next[last := n] + [0], sh.prev[0 := n] + [last])
  }

  lemma AllDoneJoin(done: seq<bool>, a: int, b: int, c: int)
    requires AllDone(done, a, b) && AllDone(done, b, c) && (1 <= b <= |done| ==> done[b - 1])
    ensures AllDone(done, a, c)
  {
  }

  /** Unlinking a finished task, even one already unlinked, keeps every link good. */
  lemma UnlinkKeeps(sh: Shape, done: seq<bool>, p: nat)
    requires SkipsOnlyDone(sh, done) && 1 <= p <= |done| && done[p - 1]
    ensures sh.next[p] <= |done| && sh.prev[p] <= |done| && SkipsOnlyDone(Unlinked(sh, p), done)
  {
    hide AllDone;
    var q, r := sh.prev[p], sh.next[p];
    assert Forward(done, p, r) && Backward(done, p, q);
    if r == 0 {
      AllDoneJoin(done, q, p, |done| + 1);
    } else {
      AllDoneJoin(done, q, p, r);
    }
  }

  lemma FinishKeeps(sh: Shape, done: seq<bool>, t: nat)
    requires SkipsOnlyDone(sh, done) && t < |done|
    ensures SkipsOnlyDone(sh, done[t := true])
  {
    hide AllDone;
    forall k | 0 <= k < |sh.nodes|
      ensures Forward(done[t := true], k, sh.next[k]) && Backward(done[t := true], k, sh.prev[k])
    {
      AllDoneFinish(done, t, k, if sh.next[k] == 0 then |done| + 1 else sh.next[k]);
      AllDoneFinish(done, t, sh.prev[k], if k == 0 then |done| + 1 else k);
    }
  }

  lemma AllDoneFinish(done: seq<bool>, t: nat, a: int, b: int)
    requires t < |done| && AllDone(done, a, b)
    ensures AllDone(done[t := true], a, b)
  {
  }

  // ----- the links in the heap -----

  method InitHead() returns (head: TaskNode)
    ensures fresh(head) && Linked(Shape([head], [0], [0]))
  {
    head := new TaskNode(-1);
  }

  method AddNode(head: TaskNode, node: TaskNode, ghost sh: Shape)
    requires Linked(sh) && head == sh.nodes[0] && node !in sh.nodes && node.taskId == |sh.nodes| - 1
    modifies head, head.prev, node
    ensures old(At(sh, 0)) && Linked(Appended(sh, node))
  {
    assert At(sh, 0) && At(sh, sh.prev[0]);
    var temp := head.prev;
    temp.next := node;
    node.prev := temp;
    node.next := head;
    head.prev := node;
    ghost var sh' := Appended(sh, node);
    forall k | 0 <= k < |sh'.nodes|
      ensures At(sh', k)
    {
      assert k < |sh.nodes| ==> old(At(sh, k));
    }
  }

  method DeleteNode(node: TaskNode, ghost sh: Shape)
    requires Linked(sh) && 0 <= node.taskId < |sh.nodes| - 1 && sh.nodes[node.taskId + 1] == node
    modifies node.prev, node.next
    ensures old(At(sh, node.taskId + 1)) && Linked(Unlinked(sh, node.taskId + 1))
  {
    ghost var p := node.taskId + 1;
    assert At(sh, p) && At(sh, sh.prev[p]) && At(sh, sh.next[p]);
    var temp := node.prev;
    temp.next := node.next;
    node.next.prev := temp;
    ghost var sh' := Unlinked(sh, p);
    forall k | 0 <= k < |sh'.nodes|
      ensures At(sh', k)
    {
      assert old(At(sh, k));
    }
  }

  // ----- scanning -----

  predicate AllTrue(done: seq<bool>) {
    forall t :: 0 <= t < |done| ==> done[t]
  }

  ghost predicate RingOk(sh: Shape, done: seq<bool>, head: TaskNode)
    reads sh.nodes
  {
    Linked(sh) && SkipsOnlyDone(sh, done) && head == sh.nodes[0]
  }

  /** The node is one of the ring's, in the place its task number says. */
  ghost predicate Member(sh: Shape, node: TaskNode) {
    0 <= node.taskId + 1 < |sh.nodes| && sh.nodes[node.taskId + 1] == node
  }

  /** Going around the ring from position s, inclusive, to position p, exclusive, all tasks are finished. */
  predicate Passed(done: seq<bool>, s: int, p: int) {
    if s <= p then AllDone(done, s - 1, p) else AllDone(done, s - 1, |done| + 1) && AllDone(done, -1, p)
  }

  /** How far ahead of position p task u lies. */
  function Ahead(n: nat, p: int, u: int): int {
    if p <= u + 1 then u + 1 - p else n + 1 - p + u + 1
  }

  lemma PassOn(done: seq<bool>, s: nat, p: nat, q: nat, u: nat)
    requires s <= |done| && p <= |done| && Passed(done, s, p) && (p > 0 ==> done[p - 1]) && Forward(done, p, q) && u < |done| && !done[u]
    ensures q <= |done| && Passed(done, s, q) && Ahead(|done|, q, u) < Ahead(|done|, p, u)
  {
  }

  /** Walks from `start` to the first unfinished task, unlinking the finished ones on the way. */
  method Scan(head: TaskNode, start: TaskNode, done: seq<bool>, ghost sh: Shape) returns (task: TaskNode, ghost sh': Shape)
    requires RingOk(sh, done, head) && Member(sh, start) && !AllTrue(done)
    modifies sh.nodes
    ensures sh'.nodes == sh.nodes && RingOk(sh', done, head) && Member(sh', task) && Member(sh', task.next)
    ensures 0 <= task.taskId < |done| && !done[task.taskId] && Passed(done, start.taskId + 1, task.taskId + 1)
  {
    hide AllDone;
    task, sh' := start, sh;
    ghost var u :| 0 <= u < |done| && !done[u];
    assert AllDone(done, start.taskId, start.taskId + 1) by { NothingBetween(done, start.taskId); }
    while task == head || done[task.taskId]
      invariant sh'.nodes == sh.nodes && Linked(sh') && SkipsOnlyDone(sh', done) && Member(sh', task)
      invariant Passed(done, start.taskId + 1, task.taskId + 1)
      decreases Ahead(|done|, task.taskId + 1, u)
    {
      ghost var p := task.taskId + 1;
      assert At(sh', 0) && At(sh', p);
      PassOn(done, start.taskId + 1, p, sh'.next[p], u);
      ghost var q := sh'.next[p];
      if task != head {
        UnlinkKeeps(sh', done, p);
        DeleteNode(task, sh');
        assert Backward(done, p, sh'.prev[p]);
        sh' := Unlinked(sh', p);
        assert sh'.next[p] == q;
      }
      assert At(sh', p) && At(sh', q);
      task := task.next;
    }
    assert At(sh', 0) && At(sh', task.taskId + 1) && At(sh', sh'.next[task.taskId + 1]);
  }

  lemma FinishRing(sh: Shape, done: seq<bool>, head: TaskNode, t: nat)
    requires RingOk(sh, done, head) && t < |done|
    ensures RingOk(sh, done[t := true], head)
  {
    hide Linked;
    FinishKeeps(sh, done, t);
  }

  lemma NothingBetween(done: seq<bool>, a: int)
    ensures AllDone(done, a, a + 1)
  {
  }

  // ----- building -----

  lemma AdjacentLinks(done: seq<bool>, k: int, next: int, prev: int)
    requires 0 <= k <= |done| && next == (if k < |done| then k + 1 else 0) && prev == (if k > 0 then k - 1 else |done|)
    ensures Forward(done, k, next) && Backward(done, k, prev)
  {
  }

  /** Every node's links lead to its neighbours. */
  ghost predicate Adjacent(sh: Shape) {
    Sized(sh) && forall k :: 0 <= k < |sh.nodes| ==>
      sh.next[k] == (if k < |sh.nodes| - 1 then k + 1 else 0) && sh.prev[k] == (if k > 0 then k - 1 else |sh.nodes| - 1)
  }

  /** A ring with tasks 0 to n - 1, none of them unlinked. */
  method BuildRing(n: nat) returns (head: TaskNode, ghost sh: Shape)
    ensures fresh(sh.nodes) && |sh.nodes| == n + 1 && Linked(sh) && Adjacent(sh) && head == sh.nodes[0]
  {
    head := InitHead();
    sh := Shape([head], [0], [0]);
    var i := 0;
    while i < n
      invariant 0 <= i <= n && |sh.nodes| == i + 1 && fresh(sh.nodes) && head == sh.nodes[0]
      invariant Linked(sh) && Adjacent(sh)
    {
      var node := new TaskNode(i);
      assert At(sh, 0);
      AddNode(head, node, sh);
      sh := Appended(sh, node);
      i := i + 1;
    }
  }

  lemma AdjacentSkipsNothing(sh: Shape, done: seq<bool>)
    requires Adjacent(sh) && |sh.nodes| == |done| + 1
    ensures SkipsOnlyDone(sh, done)
  {
    hide Forward, Backward;
    forall k | 0 <= k < |sh.nodes|
      ensures Forward(done, k, sh.next[k]) && Backward(done, k, sh.prev[k])
    {
      AdjacentLinks(done, k, sh.next[k], sh.prev[k]);
    }
  }

  // ----- counting -----

  function Unfinished(done: seq<bool>): nat {
    if done == [] then 0 else Unfinished(done[..|done| - 1]) + if done[|done| - 1] then 0 else 1
  }

  lemma {:induction false} UnfinishedZero(done: seq<bool>)
    ensures Unfinished(done) == 0 <==> AllTrue(done)
  {
    if done != [] {
      var rest := done[..|done| - 1];
      UnfinishedZero(rest);
      assert AllTrue(done) <==> AllTrue(rest) && done[|done| - 1] by {
        assert forall t :: 0 <= t < |rest| ==> rest[t] == done[t];
      }
    }
  }

  lemma {:induction false} UnfinishedFinish(done: seq<bool>, t: nat)
    requires t < |done| && !done[t]
    ensures Unfinished(done[t := true]) == Unfinished(done) - 1
  {
    var last := |done| - 1;
    if t == last {
      assert done[t := true][..last] == done[..last];
    } else {
      assert done[t := true][..last] == done[..last][t := true];
      UnfinishedFinish(done[..last], t);
    }
  }

  lemma {:induction false} UnfinishedFresh(n: nat)
    ensures Unfinished(seq(n, _ => false)) == n
  {
    if n > 0 {
      assert seq(n, _ => false)[..n - 1] == seq(n - 1, _ => false);
      UnfinishedFresh(n - 1);
    }
  }

  // ----- the master -----

  datatype StateArgs = StateArgs(cat: int, taskId: int, finished: bool, idle: bool, workerId: int)
  datatype StateReply = StateReply(cat: int, taskId: int, fileName: string, nreduce: nat, mapCount: nat, workerId: int, fileNames: seq<int>)

  const NOTHING := StateReply(0, 0, "", 0, 0, 0, [])

  class Coordinator {
    var mapTasks: seq<string>
    var reduceTasks: seq<int>
    var mapStatus: seq<bool>
    var reduceStatus: seq<bool>
    var mapFinished: int
    var reduceFinished: int
    var nreduce: nat
    var mapHead: TaskNode
    var reduceHead: TaskNode
    var mapPointer: TaskNode
    var reducePointer: TaskNode
    var workers: int
    ghost var mapShape: Shape
    ghost var reduceShape: Shape
    ghost var reports: set<(int, int)>   // (map task, worker) for every map task reported finished

    ghost predicate Valid()
      reads this, mapShape.nodes, reduceShape.nodes
    {
      && |mapStatus| == |mapTasks| == |reduceTasks| && |reduceStatus| == nreduce
      && mapFinished == Unfinished(mapStatus) && reduceFinished == Unfinished(reduceStatus)
      && RingOk(mapShape, mapStatus, mapHead) && RingOk(reduceShape, reduceStatus, reduceHead)
      && (mapFinished > 0 ==> Member(mapShape, mapPointer))
      && (nreduce > 0 ==> Member(reduceShape, reducePointer) && reducePointer.taskId == 0)
      && Apart(mapShape, reduceShape)
      && Reported(reports, mapStatus, reduceTasks)
    }

    constructor (files: seq<string>, nReduce: nat)
      ensures Valid() && fresh(mapShape.nodes) && fresh(reduceShape.nodes)
      ensures mapTasks == files && nreduce == nReduce && mapFinished == |files| && reduceFinished == nReduce && reports == {}
      ensures forall t :: 0 <= t < |files| ==> !mapStatus[t]
      ensures forall t :: 0 <= t < nReduce ==> !reduceStatus[t]
    {
      mapTasks, nreduce, workers := files, nReduce, 0;
      mapFinished, reduceFinished := |files|, nReduce;
      mapStatus := seq(|files|, _ => false);
      reduceStatus := seq(nReduce, _ => false);
      reduceTasks := seq(|files|, _ => 0);
      var mh, ms := BuildRing(|files|);
      var rh, rs := BuildRing(nReduce);
      mapHead, mapShape, reduceHead, reduceShape := mh, ms, rh, rs;
      mapPointer, reducePointer := mh.next, rh.next;
      reports := {};
      new;
      UnfinishedFresh(|files|);
      UnfinishedFresh(nReduce);
      AdjacentSkipsNothing(ms, mapStatus);
      AdjacentSkipsNothing(rs, reduceStatus);
      assert At(ms, 0) && At(rs, 0) && At(ms, ms.next[0]) && At(rs, rs.next[0]);
    }

    /** The task numbers in a report are those of tasks that exist. */
    ghost predicate InRange(args: StateArgs)
      reads this
    {
      (args.cat == 1 ==> 0 <= args.taskId < |mapStatus|) && (args.cat == 2 ==> 0 <= args.taskId < |reduceStatus|)
    }

    method ReportMap(task: nat, worker: int)
      requires Valid() && task < |mapStatus|
      modifies this`mapStatus, this`mapFinished, this`reduceTasks, this`reports
      ensures Valid() && mapStatus == old(mapStatus)[task := true] && reports == old(reports) + {(task, worker)}
      ensures reduceTasks == if old(mapStatus)[task] then old(reduceTasks) else old(reduceTasks)[task := worker]
    {
      hide At, SkipsOnlyDone, Unfinished, Apart;
      reports := reports + {(task, worker)};
      if !mapStatus[task] {
        UnfinishedFinish(mapStatus, task);
        FinishRing(mapShape, mapStatus, mapHead, task);
        mapStatus := mapStatus[task := true];
        mapFinished := mapFinished - 1;
        reduceTasks := reduceTasks[task := worker];
      } else {
        assert mapStatus[task := true] == mapStatus;
      }
    }

    method ReportReduce(task: nat)
      requires Valid() && task < |reduceStatus|
      modifies this`reduceStatus, this`reduceFinished
      ensures Valid() && reduceStatus == old(reduceStatus)[task := true]
    {
      hide RingOk, Unfinished, Apart, Reported;
      if !reduceStatus[task] {
        UnfinishedFinish(reduceStatus, task);
        FinishRing(reduceShape, reduceStatus, reduceHead, task);
        reduceStatus := reduceStatus[task := true];
        reduceFinished := reduceFinished - 1;
      } else {
        assert reduceStatus[task := true] == reduceStatus;
      }
    }

    /** Nothing but links, pointers and the worker count may have changed. */
    twostate predicate SameBoard()
      reads this
    {
      && mapTasks == old(mapTasks) && reduceTasks == old(reduceTasks) && nreduce == old(nreduce) && reports == old(reports)
      && mapStatus == old(mapStatus) && reduceStatus == old(reduceStatus)
      && mapShape.nodes == old(mapShape.nodes) && reduceShape.nodes == old(reduceShape.nodes)
    }

    method AssignMap(reply: StateReply) returns (reply': StateReply)
      requires Valid() && mapFinished > 0
      modifies this, mapShape.nodes
      ensures Valid() && SameBoard() && workers == old(workers)
      ensures reply'.cat == 1 && reply'.workerId == reply.workerId && reply'.nreduce == nreduce
      ensures 0 <= reply'.taskId < |mapStatus| && !mapStatus[reply'.taskId] && reply'.fileName == mapTasks[reply'.taskId]
      ensures Passed(mapStatus, old(mapPointer.taskId) + 1, reply'.taskId + 1)
    {
      hide At, SkipsOnlyDone, Passed, Unfinished;
      UnfinishedZero(mapStatus);
      assert forall k :: 0 <= k < |reduceShape.nodes| ==> reduceShape.nodes[k] !in mapShape.nodes;
      var task, sh := Scan(mapHead, mapPointer, mapStatus, mapShape);
      mapShape := sh;
      reply' := reply.(cat := 1, taskId := task.taskId, fileName := mapTasks[task.taskId], nreduce := nreduce);
      mapPointer := task.next;
    }

    /** Since the scan's starting point never moves, it always finds the lowest unfinished reduce task. */
    method AssignReduce(reply: StateReply) returns (reply': StateReply)
      requires Valid() && mapFinished == 0 && reduceFinished > 0
      modifies this, reduceShape.nodes
      ensures Valid() && SameBoard() && workers == old(workers)
      ensures reply'.cat == 2 && reply'.workerId == reply.workerId && reply'.nreduce == nreduce && reply'.mapCount == |mapStatus|
      ensures 0 <= reply'.taskId < nreduce && !reduceStatus[reply'.taskId]
      ensures forall t :: 0 <= t < reply'.taskId ==> reduceStatus[t]
      ensures reply'.fileNames == reduceTasks && AllTrue(mapStatus)
      ensures forall t :: 0 <= t < |mapTasks| ==> (t, reply'.fileNames[t]) in reports
    {
      hide At, SkipsOnlyDone, Unfinished;
      UnfinishedZero(mapStatus);
      UnfinishedZero(reduceStatus);
      assert forall k :: 0 <= k < |mapShape.nodes| ==> mapShape.nodes[k] !in reduceShape.nodes;
      var task, sh := Scan(reduceHead, reducePointer, reduceStatus, reduceShape);
      reduceShape := sh;
      reply' := reply.(cat := 2, taskId := task.taskId, nreduce := nreduce, mapCount := |mapStatus|, fileNames := reduceTasks);
      mapPointer := task.next;
    }

    method AssignTask(reply: StateReply) returns (reply': StateReply)
      requires Valid() && reply.cat == 0
      modifies this, mapShape.nodes, reduceShape.nodes
      ensures Valid() && SameBoard() && workers == old(workers) && reply'.workerId == reply.workerId
      ensures Assigned(reply', mapTasks, mapStatus, reduceStatus, reduceTasks, reports) && (reply'.cat != 0 ==> reply'.nreduce == nreduce)
    {
      hide At, SkipsOnlyDone, Unfinished;
      UnfinishedZero(mapStatus);
      UnfinishedZero(reduceStatus);
      reply' := reply;
      if mapFinished > 0 {
        reply' := AssignMap(reply);
      } else if reduceFinished > 0 {
        reply' := AssignReduce(reply);
      }
    }

    method RequestHandler(args: StateArgs) returns (reply: StateReply)
      requires Valid() && (args.finished ==> InRange(args))
      modifies this, mapShape.nodes, reduceShape.nodes
      ensures Valid() && mapTasks == old(mapTasks) && nreduce == old(nreduce)
      ensures mapShape.nodes == old(mapShape.nodes) && reduceShape.nodes == old(reduceShape.nodes)
      ensures mapStatus == if args.finished && args.cat == 1 then old(mapStatus)[args.taskId := true] else old(mapStatus)
      ensures reduceStatus == if args.finished && args.cat == 2 then old(reduceStatus)[args.taskId := true] else old(reduceStatus)
      ensures reports == if args.finished && args.cat == 1 then old(reports) + {(args.taskId, args.workerId)} else old(reports)
      ensures args.idle ==> Assigned(reply, mapTasks, mapStatus, reduceStatus, reduceTasks, reports)
      ensures reply.cat != 0 ==> reply.nreduce == nreduce
      ensures reduceTasks == if args.finished && args.cat == 1 && !old(mapStatus)[args.taskId] then old(reduceTasks)[args.taskId := args.workerId]
                             else old(reduceTasks)
      ensures !args.idle ==> reply.cat == 0
      ensures workers == old(workers) + if args.idle && args.workerId == 0 then 1 else 0
      ensures reply.workerId == if args.idle && args.workerId == 0 then workers else args.workerId
    {
      hide RingOk, Unfinished, Assigned;
      reply := NOTHING.(workerId := args.workerId);
      if args.finished {
        if args.cat == 1 {
          ReportMap(args.taskId, args.workerId);
        } else if args.cat == 2 {
          ReportReduce(args.taskId);
        }
      }
      if args.idle {
        if args.workerId == 0 {
          reply := reply.(workerId := workers + 1);
          workers := workers + 1;
        }
        reply := AssignTask(reply);
      }
    }

    method Done() returns (ret: bool)
      requires Valid()
      ensures ret <==> AllTrue(mapStatus) && AllTrue(reduceStatus)
    {
      UnfinishedZero(mapStatus);
      UnfinishedZero(reduceStatus);
      ret := mapFinished == 0 && reduceFinished == 0;
    }
  }

  /** What an idle worker is told: an unfinished map task while there is one; then, with every map output
      attributed to a worker that reported it, the lowest unfinished reduce task; nothing once all is done. */
  ghost predicate Assigned(reply: StateReply, files: seq<string>, mapDone: seq<bool>, reduceDone: seq<bool>, workers: seq<int>,
                           reports: set<(int, int)>)
    requires |files| == |mapDone| == |workers|
  {
    && (reply.cat == 1 <==> !AllTrue(mapDone))
    && (reply.cat == 2 <==> AllTrue(mapDone) && !AllTrue(reduceDone))
    && (reply.cat == 0 <==> AllTrue(mapDone) && AllTrue(reduceDone))
    && (reply.cat == 1 ==> 0 <= reply.taskId < |mapDone| && !mapDone[reply.taskId] && reply.fileName == files[reply.taskId])
    && (reply.cat == 2 ==>
          && 0 <= reply.taskId < |reduceDone| && !reduceDone[reply.taskId]
          && (forall t :: 0 <= t < reply.taskId ==> reduceDone[t])
          && |reply.fileNames| == |files| == reply.mapCount
          && forall t :: 0 <= t < |files| ==> (t, reply.fileNames[t]) in reports)
  }

  ghost predicate Apart(a: Shape, b: Shape) {
    forall x :: x in a.nodes ==> x !in b.nodes
  }

  /** Each finished map task's entry names a worker that reported it. */
  ghost predicate Reported(reports: set<(int, int)>, done: seq<bool>, workers: seq<int>) {
    |workers| == |done| && forall t :: 0 <= t < |done| && done[t] ==> (t, workers[t]) in reports
  }
}
