/** The doubly linked call/return list of src/porcupine/checker.go.  `nodes` is every node in
    history order, with the sentinel at index 0; a `list` is the increasing sequence of the
    indices of the nodes currently linked. */
module LinkedEntries {
  import opened Linearizability

  datatype Value<+I, +O> = Nothing | Input(input: I) | Output(output: O)

  class Node<I, O> {
    const value: Value<I, O>
    const matching: Node?<I, O>  // the return node of a call; null for a return and for the sentinel
    const id: int
    var next: Node?<I, O>
    var prev: Node?<I, O>

    constructor (value: Value<I, O>, matching: Node?<I, O>, id: int)
      ensures this.value == value && this.matching == matching && this.id == id
      ensures next == null && prev == null
    {
      this.value, this.matching, this.id := value, matching, id;
      next, prev := null, null;
    }
  }

  ghost predicate DistinctNodes<I, O>(nodes: seq<Node<I, O>>) {
    forall i, j :: 0 <= i < j < |nodes| ==> nodes[i] != nodes[j]
  }

  ghost predicate Increasing(list: seq<nat>, bound: nat) {
    && (forall k :: 0 <= k < |list| ==> list[k] < bound)
    && (forall j, k :: 0 <= j < k < |list| ==> list[j] < list[k])
  }

  /** The two link fields of a node. */
  datatype Place<I, O> = Place(prev: Node?<I, O>, next: Node?<I, O>)

  ghost function Places<I, O>(nodes: seq<Node<I, O>>): (places: seq<Place<I, O>>)
    reads nodes
    ensures |places| == |nodes|
    ensures forall k :: 0 <= k < |nodes| ==> places[k] == Place(nodes[k].prev, nodes[k].next)
  {
    seq(|nodes|, k requires 0 <= k < |nodes| reads nodes => Place(nodes[k].prev, nodes[k].next))
  }

  ghost predicate UntouchedOutside<I, O>(before: seq<Place<I, O>>, after: seq<Place<I, O>>, list: seq<nat>) {
    |before| == |after| && forall k :: 0 <= k < |before| && k !in list ==> before[k] == after[k]
  }

  /** Element k of the list as a node, null past its end. */
  ghost function NodeAt<I, O>(nodes: seq<Node<I, O>>, list: seq<nat>, k: nat): Node?<I, O>
    requires Increasing(list, |nodes|)
  {
    if k < |list| then nodes[list[k]] else null
  }

  /** The links of the nodes in `list` chain exactly those nodes, in that order. */
  ghost predicate Linked<I, O>(nodes: seq<Node<I, O>>, places: seq<Place<I, O>>, list: seq<nat>)
    requires Increasing(list, |nodes|) && |places| == |nodes|
  {
    && (forall k {:trigger places[list[k]].next} :: 0 <= k < |list| ==> places[list[k]].next == NodeAt(nodes, list, k + 1))
    && (forall k {:trigger places[list[k]].prev} :: 0 < k < |list| ==> places[list[k]].prev == NodeAt(nodes, list, k - 1))
  }

  ghost function Drop(list: seq<nat>, i: nat): seq<nat>
    requires i < |list|
  {
    list[..i] + list[i + 1..]
  }

  lemma DropFacts(list: seq<nat>, i: nat, bound: nat)
    requires Increasing(list, bound) && i < |list|
    ensures Increasing(Drop(list, i), bound)
    ensures forall x :: x in Drop(list, i) <==> x in list && x != list[i]
    ensures forall m :: i < m < |list| ==> Drop(list, i)[m - 1] == list[m]
  {
    var rest := Drop(list, i);
    forall x | x in list && x != list[i]
      ensures x in rest
    {
      var m :| 0 <= m < |list| && list[m] == x;
      assert rest[if m < i then m else m - 1] == x;
    }
  }

  /** `list` without its i-th and j-th elements. */
  ghost function Without(list: seq<nat>, i: nat, j: nat): seq<nat>
    requires i < j < |list|
  {
    Drop(Drop(list, i), j - 1)
  }

  /** The neighbours of the k-th element of `list`. */
  ghost function PlaceIn<I, O>(nodes: seq<Node<I, O>>, list: seq<nat>, k: nat): Place<I, O>
    requires Increasing(list, |nodes|) && 0 < k < |list|
  {
    Place(NodeAt(nodes, list, k - 1), NodeAt(nodes, list, k + 1))
  }

  /** A lifted call and its return remember where they were, which is what lets unlift put them back. */
  ghost predicate Detached<I, O>(nodes: seq<Node<I, O>>, places: seq<Place<I, O>>, list: seq<nat>, i: nat, j: nat)
    requires Increasing(list, |nodes|) && 0 < i < j < |list| && |places| == |nodes|
  {
    && places[list[i]] == PlaceIn(nodes, list, i)
    && places[list[j]] == PlaceIn(nodes, Drop(list, i), j - 1)
  }

  /** Element k's neighbours made to skip it. */
  ghost function Unlinked<I, O>(nodes: seq<Node<I, O>>, places: seq<Place<I, O>>, list: seq<nat>, k: nat): (after: seq<Place<I, O>>)
    requires Increasing(list, |nodes|) && |places| == |nodes| && 0 < k < |list|
    ensures |after| == |places|
  {
    var p := places[list[k - 1] := places[list[k - 1]].(next := NodeAt(nodes, list, k + 1))];
    if k + 1 < |list| then p[list[k + 1] := p[list[k + 1]].(prev := nodes[list[k - 1]])] else p
  }

  /** Element k's neighbours made to point at it. */
  ghost function Relinked<I, O>(nodes: seq<Node<I, O>>, places: seq<Place<I, O>>, list: seq<nat>, k: nat): (after: seq<Place<I, O>>)
    requires Increasing(list, |nodes|) && |places| == |nodes| && 0 < k < |list|
    ensures |after| == |places|
  {
    var p := places[list[k - 1] := places[list[k - 1]].(next := nodes[list[k]])];
    if k + 1 < |list| then p[list[k + 1] := p[list[k + 1]].(prev := nodes[list[k]])] else p
  }

  ghost predicate LinkedAt<I, O>(nodes: seq<Node<I, O>>, place: Place<I, O>, list: seq<nat>, k: nat)
    requires Increasing(list, |nodes|)
  {
    place.next == NodeAt(nodes, list, k + 1) && (k > 0 ==> place.prev == NodeAt(nodes, list, k - 1))
  }

  lemma UnlinkedAt<I, O>(nodes: seq<Node<I, O>>, places: seq<Place<I, O>>, list: seq<nat>, k: nat, m: nat)
    requires Increasing(list, |nodes|) && |places| == |nodes| && 0 < k < |list| && m < |list| && m != k
    requires LinkedAt(nodes, places[list[m]], list, m) && Increasing(Drop(list, k), |nodes|)
    ensures LinkedAt(nodes, Unlinked(nodes, places, list, k)[list[m]], Drop(list, k), if m < k then m else m - 1)
  {
  }

  lemma RelinkedAt<I, O>(nodes: seq<Node<I, O>>, places: seq<Place<I, O>>, list: seq<nat>, k: nat, m: nat)
    requires Increasing(list, |nodes|) && |places| == |nodes| && 0 < k < |list| && m < |list|
    requires Increasing(Drop(list, k), |nodes|)
    requires m != k ==> LinkedAt(nodes, places[list[m]], Drop(list, k), if m < k then m else m - 1)
    requires m == k ==> LinkedAt(nodes, places[list[m]], list, m)
    ensures LinkedAt(nodes, Relinked(nodes, places, list, k)[list[m]], list, m)
  {
  }

  lemma UnlinkedLinked<I, O>(nodes: seq<Node<I, O>>, places: seq<Place<I, O>>, list: seq<nat>, k: nat)
    requires Increasing(list, |nodes|) && |places| == |nodes| && 0 < k < |list| && Linked(nodes, places, list)
    requires Increasing(Drop(list, k), |nodes|)
    ensures Linked(nodes, Unlinked(nodes, places, list, k), Drop(list, k))
  {
    var rest := Drop(list, k);
    forall m | 0 <= m < |rest|
      ensures LinkedAt(nodes, Unlinked(nodes, places, list, k)[rest[m]], rest, m)
    {
      var at := if m < k then m else m + 1;
      assert rest[m] == list[at] && LinkedAt(nodes, places[list[at]], list, at);
      UnlinkedAt(nodes, places, list, k, at);
    }
  }

  lemma UnlinkedUntouched<I, O>(nodes: seq<Node<I, O>>, places: seq<Place<I, O>>, list: seq<nat>, k: nat)
    requires Increasing(list, |nodes|) && |places| == |nodes| && 0 < k < |list|
    ensures UntouchedOutside(places, Unlinked(nodes, places, list, k), list)
    ensures Unlinked(nodes, places, list, k)[list[k]] == places[list[k]]
  {
  }

  lemma RelinkedLinked<I, O>(nodes: seq<Node<I, O>>, places: seq<Place<I, O>>, list: seq<nat>, k: nat)
    requires Increasing(list, |nodes|) && |places| == |nodes| && 0 < k < |list| && Increasing(Drop(list, k), |nodes|)
    requires Linked(nodes, places, Drop(list, k)) && places[list[k]] == PlaceIn(nodes, list, k)
    ensures Linked(nodes, Relinked(nodes, places, list, k), list)
    ensures UntouchedOutside(places, Relinked(nodes, places, list, k), Drop(list, k))
  {
    var rest := Drop(list, k);
    forall m | 0 <= m < |list|
      ensures LinkedAt(nodes, Relinked(nodes, places, list, k)[list[m]], list, m)
    {
      var at := if m < k then m else m - 1;
      assert m != k ==> rest[at] == list[m] && LinkedAt(nodes, places[rest[at]], rest, at);
      RelinkedAt(nodes, places, list, k, m);
    }
    assert list[k - 1] == rest[k - 1] && (k + 1 < |list| ==> list[k + 1] == rest[k]);
  }

  /** Unlinking one node. */
  method Unlink<I, O>(node: Node<I, O>, ghost nodes: seq<Node<I, O>>, ghost list: seq<nat>, ghost k: nat)
    requires DistinctNodes(nodes) && Increasing(list, |nodes|) && 0 < k < |list| && node == nodes[list[k]]
    requires Place(node.prev, node.next) == PlaceIn(nodes, list, k)
    modifies nodes
    ensures Places(nodes) == Unlinked(nodes, old(Places(nodes)), list, k)
  {
    node.prev.next := node.next;
    if node.next != null {
      node.next.prev := node.prev;
    }
  }

  /** Linking a node back where it remembers it was. */
  method Relink<I, O>(node: Node<I, O>, ghost nodes: seq<Node<I, O>>, ghost list: seq<nat>, ghost k: nat)
    requires DistinctNodes(nodes) && Increasing(list, |nodes|) && 0 < k < |list| && node == nodes[list[k]]
    requires Place(node.prev, node.next) == PlaceIn(nodes, list, k)
    modifies nodes
    ensures Places(nodes) == Relinked(nodes, old(Places(nodes)), list, k)
  {
    node.prev.next := node;
    if node.next != null {
      node.next.prev := node;
    }
  }

  /** Unlinking the call and then its return: what the list, the two nodes and the others then hold. */
  lemma LiftedPlaces<I, O>(nodes: seq<Node<I, O>>, p0: seq<Place<I, O>>, list: seq<nat>, i: nat, j: nat)
    returns (p1: seq<Place<I, O>>, p2: seq<Place<I, O>>)
    requires Increasing(list, |nodes|) && |p0| == |nodes| && Linked(nodes, p0, list) && 0 < i < j < |list|
    ensures var rest := Drop(list, i);
      && Increasing(rest, |nodes|) && Increasing(Without(list, i, j), |nodes|) && rest[j - 1] == list[j]
      && p1 == Unlinked(nodes, p0, list, i) && p2 == Unlinked(nodes, p1, rest, j - 1)
      && p0[list[i]] == PlaceIn(nodes, list, i) && p1[list[j]] == PlaceIn(nodes, rest, j - 1)
      && Linked(nodes, p2, Without(list, i, j))
      && p2[list[i]] == p0[list[i]] && p2[list[j]] == p1[list[j]]
    ensures UntouchedOutside(p0, p2, list)
  {
    hide Unlinked;
    var rest := Drop(list, i);
    DropFacts(list, i, |nodes|);
    DropFacts(rest, j - 1, |nodes|);
    p1 := Unlinked(nodes, p0, list, i);
    p2 := Unlinked(nodes, p1, rest, j - 1);
    assert Linked(nodes, p1, rest) by { UnlinkedLinked(nodes, p0, list, i); }
    assert Linked(nodes, p2, Without(list, i, j)) by { UnlinkedLinked(nodes, p1, rest, j - 1); }
    UnlinkedUntouched(nodes, p0, list, i);
    UnlinkedUntouched(nodes, p1, rest, j - 1);
    assert LinkedAt(nodes, p0[list[i]], list, i) && LinkedAt(nodes, p1[rest[j - 1]], rest, j - 1);
  }

  method Lift<I, O>(entry: Node<I, O>, ghost nodes: seq<Node<I, O>>, ghost list: seq<nat>, ghost i: nat, ghost j: nat)
    requires DistinctNodes(nodes) && Increasing(list, |nodes|) && Linked(nodes, Places(nodes), list)
    requires 0 < i < j < |list| && entry == nodes[list[i]] && entry.matching == nodes[list[j]]
    modifies nodes
    ensures Increasing(Without(list, i, j), |nodes|) && Linked(nodes, Places(nodes), Without(list, i, j))
    ensures Detached(nodes, Places(nodes), list, i, j)
    ensures UntouchedOutside(old(Places(nodes)), Places(nodes), list)
  {
    ghost var p1, p2 := LiftedPlaces(nodes, Places(nodes), list, i, j);
    Unlink(entry, nodes, list, i);
    Unlink(entry.matching, nodes, Drop(list, i), j - 1);
  }

  method Unlift<I, O>(entry: Node<I, O>, ghost nodes: seq<Node<I, O>>, ghost list: seq<nat>, ghost i: nat, ghost j: nat)
    requires DistinctNodes(nodes) && Increasing(list, |nodes|)
    requires 0 < i < j < |list| && entry == nodes[list[i]] && entry.matching == nodes[list[j]]
    requires Increasing(Without(list, i, j), |nodes|) && Linked(nodes, Places(nodes), Without(list, i, j))
    requires Detached(nodes, Places(nodes), list, i, j)
    modifies nodes
    ensures Linked(nodes, Places(nodes), list)
    ensures UntouchedOutside(old(Places(nodes)), Places(nodes), list)
  {
    ghost var rest := Drop(list, i);
    DropFacts(list, i, |nodes|);
    DropFacts(rest, j - 1, |nodes|);
    RelinkedLinked(nodes, Places(nodes), rest, j - 1);
    Relink(entry.matching, nodes, rest, j - 1);
    RelinkedLinked(nodes, Places(nodes), list, i);
    Relink(entry, nodes, list, i);
  }

  // ----- building the list -----

  method InsertBefore<I, O>(n: Node<I, O>, mark: Node?<I, O>) returns (inserted: Node<I, O>)
    requires mark != null ==> mark != n && mark.prev != n && mark.prev != mark
    modifies n, mark, if mark == null then null else mark.prev
    ensures inserted == n
    ensures mark == null ==> n.next == old(n.next) && n.prev == old(n.prev)
    ensures mark != null ==> mark.prev == n && n.next == mark && mark.next == old(mark.next)
    ensures mark != null ==> n.prev == if old(mark.prev) == null then old(n.prev) else old(mark.prev)
    ensures mark != null && old(mark.prev) != null ==> n.prev.next == n && n.prev.prev == old(mark.prev.prev)
  {
    if mark != null {
      var beforeMark := mark.prev;
      mark.prev := n;
      n.next := mark;
      if beforeMark != null {
        n.prev := beforeMark;
        beforeMark.next := n;
      }
    }
    return n;
  }

  /** All nodes chained in order, the first without a predecessor. */
  ghost predicate Chained<I, O>(nodes: seq<Node<I, O>>)
    reads nodes
  {
    && (forall k {:trigger nodes[k].next} :: 0 <= k < |nodes| ==>
          nodes[k].next == if k + 1 < |nodes| then nodes[k + 1] else null)
    && (forall k {:trigger nodes[k].prev} :: 0 <= k < |nodes| ==>
          nodes[k].prev == if k > 0 then nodes[k - 1] else null)
  }

  /** The first return of `id` at or after position `from`; |h| when there is none. */
  ghost function NextReturn<I, O>(h: seq<Entry<I, O>>, id: nat, from: nat): (r: nat)
    requires from <= |h|
    ensures from <= r <= |h|
    ensures r < |h| ==> ReturnOf(h, r, id)
    decreases |h| - from
  {
    if from == |h| || (h[from].Return? && h[from].id == id) then from else NextReturn(h, id, from + 1)
  }

  /** nodes[k] carries entry `from + k`: its id, its value, and for a call its return node. */
  ghost predicate Carries<I, O>(nodes: seq<Node<I, O>>, h: seq<Entry<I, O>>, from: nat, k: nat)
    requires k < |nodes| && from + |nodes| == |h|
  {
    var e := h[from + k];
    && nodes[k].id == e.id
    && (e.Return? ==> nodes[k].value == Output(e.output) && nodes[k].matching == null)
    && (e.Call? ==>
          var r := NextReturn(h, e.id, from + k + 1);
          nodes[k].value == Input(e.input) && nodes[k].matching == if r < |h| then nodes[r - from] else null)
  }

  ghost predicate CarriesAll<I, O>(nodes: seq<Node<I, O>>, h: seq<Entry<I, O>>, from: nat) {
    from + |nodes| == |h| && forall k :: 0 <= k < |nodes| ==> Carries(nodes, h, from, k)
  }

  /** `matching` gives the node of the first return at or after `from`. */
  ghost predicate Matches<I, O>(nodes: seq<Node<I, O>>, h: seq<Entry<I, O>>, from: nat, matching: map<nat, Node<I, O>>) {
    from + |nodes| == |h| &&
    forall id: nat {:trigger id in matching} {:trigger NextReturn(h, id, from)} ::
      var r := NextReturn(h, id, from);
      (id in matching <==> r < |h|) && (r < |h| ==> matching[id] == nodes[r - from])
  }

  lemma Prepend<I, O>(entry: Node<I, O>, nodes: seq<Node<I, O>>, h: seq<Entry<I, O>>, from: nat,
                      matching: map<nat, Node<I, O>>)
    requires from < |h| && CarriesAll(nodes, h, from + 1) && Matches(nodes, h, from + 1, matching)
    requires entry.id == h[from].id
    requires h[from].Return? ==> entry.value == Output(h[from].output) && entry.matching == null
    requires h[from].Call? ==> entry.value == Input(h[from].input)
    requires h[from].Call? ==> entry.matching == if h[from].id in matching then matching[h[from].id] else null
    ensures CarriesAll([entry] + nodes, h, from)
    ensures Matches([entry] + nodes, h, from, if h[from].Return? then matching[h[from].id := entry] else matching)
  {
    var all := [entry] + nodes;
    assert forall k :: 0 < k < |all| ==> all[k] == nodes[k - 1];
    forall k | 0 <= k < |all|
      ensures Carries(all, h, from, k)
    {
      if k > 0 {
        assert Carries(nodes, h, from + 1, k - 1);
      } else {
        assert NextReturn(h, h[from].id, from + 1) < |h| <==> h[from].id in matching;
      }
    }
  }

  method MakeLinkedEntries<I, O>(entries: seq<Entry<I, O>>) returns (root: Node?<I, O>, ghost nodes: seq<Node<I, O>>)
    ensures |nodes| == |entries| && DistinctNodes(nodes) && Chained(nodes)
    ensures (forall k :: 0 <= k < |nodes| ==> fresh(nodes[k])) && CarriesAll(nodes, entries, 0)
    ensures root == if nodes == [] then null else nodes[0]
  {
    root, nodes := null, [];
    var matching: map<nat, Node<I, O>> := map[];
    var i := |entries|;
    while i > 0
      invariant 0 <= i <= |entries| && |nodes| == |entries| - i
      invariant DistinctNodes(nodes) && Chained(nodes)
      invariant (forall k :: 0 <= k < |nodes| ==> fresh(nodes[k])) && CarriesAll(nodes, entries, i)
      invariant root == if nodes == [] then null else nodes[0]
      invariant Matches(nodes, entries, i, matching)
    {
      i := i - 1;
      var elem := entries[i];
      var entry: Node<I, O>;
      if elem.Return? {
        entry := new Node(Output(elem.output), null, elem.id);
      } else {
        entry := new Node(Input(elem.input), if elem.id in matching then matching[elem.id] else null, elem.id);
      }
      var _ := InsertBefore(entry, root);
      root := entry;
      ghost var before := nodes;
      nodes := [entry] + nodes;
      Prepend(entry, before, entries, i, matching);
      if elem.Return? {
        matching := matching[elem.id := entry];
      }
    }
  }

  method Length<I, O>(n: Node?<I, O>, ghost nodes: seq<Node<I, O>>) returns (length: nat)
    requires Chained(nodes) && n == if nodes == [] then null else nodes[0]
    ensures length == |nodes|
  {
    length := 0;
    var at := n;
    while at != null
      invariant length <= |nodes| && at == if length < |nodes| then nodes[length] else null
      decreases |nodes| - length
    {
      assert at == nodes[length];
      at := at.next;
      length := length + 1;
    }
  }
}
