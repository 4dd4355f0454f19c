/** The linearizability checker (checkSingle of src/porcupine/checker.go): a depth-first search
    that lifts calls out of the list, prunes configurations it has met before, and backtracks
    at the first return. */
module Checker {
  import opened Collections
  import opened Linearizability
  import opened LinkedEntries
  import opened LiveList
  import opened Search
  import Bitset

  datatype CacheEntry<+S> = CacheEntry(linearized: seq<Bitset.Word>, state: S)

  /** From the hash of a bitset to the entries that have it. */
  type Cache<!S> = map<Bitset.Word, seq<CacheEntry<S>>>

  datatype CallsEntry<S, I, O> = CallsEntry(entry: Node<I, O>, state: S)

  // ----- the cache -----

  ghost predicate InCache<S>(cache: Cache<S>, e: CacheEntry<S>) {
    var key := Bitset.HashOf(e.linearized);
    key in cache && e in cache[key]
  }

  /** Every entry sits in the bucket of its hash, and all bitsets have the same size. */
  ghost predicate Bucketed<S>(cache: Cache<S>, size: nat) {
    forall key, k :: key in cache && 0 <= k < |cache[key]| ==>
      Bitset.HashOf(cache[key][k].linearized) == key && |cache[key][k].linearized| == size
  }

  ghost predicate Alike<S>(m: (S, S) -> bool, a: CacheEntry<S>, b: CacheEntry<S>) {
    Bitset.Elements(a.linearized) == Bitset.Elements(b.linearized) && m(a.state, b.state)
  }

  /** The lookup looks in one bucket only, yet finds any entry with the same set and an equal state. */
  method CacheContains<S, I, O>(m: Model<S, I, O>, cache: Cache<S>, entry: CacheEntry<S>) returns (found: bool)
    requires Bucketed(cache, |entry.linearized|)
    ensures found <==> exists e :: InCache(cache, e) && Alike(m.equal, entry, e)
  {
    var key := Bitset.Hash(entry.linearized);
    if key in cache {
      var bucket := cache[key];
      for k := 0 to |bucket|
        invariant forall i :: 0 <= i < k ==> !Alike(m.equal, entry, bucket[i])
      {
        var same := Bitset.Equals(entry.linearized, bucket[k].linearized);
        if same && m.equal(entry.state, bucket[k].state) {
          assert InCache(cache, bucket[k]) && Alike(m.equal, entry, bucket[k]);
          return true;
        }
      }
    }
    forall e | InCache(cache, e)
      ensures !Alike(m.equal, entry, e)
    {
      if Bitset.Elements(entry.linearized) == Bitset.Elements(e.linearized) {
        assert |e.linearized| == |entry.linearized|;
        Bitset.ElementsInjective(entry.linearized, e.linearized);
      }
    }
    return false;
  }

  method CacheInsert<S>(cache: Cache<S>, entry: CacheEntry<S>) returns (larger: Cache<S>)
    requires Bucketed(cache, |entry.linearized|)
    ensures Bucketed(larger, |entry.linearized|)
    ensures forall e :: InCache(larger, e) <==> InCache(cache, e) || e == entry
  {
    var key := Bitset.Hash(entry.linearized);
    larger := cache[key := (if key in cache then cache[key] else []) + [entry]];
  }

  /** e is the configuration reached by performing `order`. */
  ghost predicate Stands<S, I, O>(m: Model<S, I, O>, h: seq<Entry<I, O>>, e: CacheEntry<S>, order: seq<nat>)
    requires WellFormed(h)
  {
    Reached(m, h, order) && Bitset.Elements(e.linearized) == Members(order) && Run(m, h, order) == Some(e.state)
  }

  /** The cache holds exactly the configurations of the explored stacks; `seen` says which is whose. */
  ghost predicate Caches<S(!new), I, O>(m: Model<S, I, O>, h: seq<Entry<I, O>>, cache: Cache<S>,
                                        seen: map<seq<nat>, CacheEntry<S>>)
    requires WellFormed(h)
  {
    && (forall order :: order in seen ==> Stands(m, h, seen[order], order) && InCache(cache, seen[order]))
    && (forall e :: InCache(cache, e) ==> e in seen.Values)
  }

  lemma CacheDecides<S(!new), I(!new), O(!new)>(m: Model<S, I, O>, h: seq<Entry<I, O>>, cache: Cache<S>,
                                               seen: map<seq<nat>, CacheEntry<S>>, e: CacheEntry<S>, order: seq<nat>)
    requires WellFormed(h) && Lawful(m) && Caches(m, h, cache, seen) && Stands(m, h, e, order)
    ensures (exists x :: InCache(cache, x) && Alike(m.equal, e, x)) <==> Covered(m, h, seen.Keys, order)
  {
    if x :| InCache(cache, x) && Alike(m.equal, e, x) {
      var other :| other in seen && seen[other] == x;
      assert SameConfiguration(m, h, other, order);
    }
    if other :| other in seen.Keys && SameConfiguration(m, h, other, order) {
      assert Alike(m.equal, e, seen[other]);
    }
  }

  lemma CachesInsert<S(!new), I, O>(m: Model<S, I, O>, h: seq<Entry<I, O>>, cache: Cache<S>, larger: Cache<S>,
                                    seen: map<seq<nat>, CacheEntry<S>>, entry: CacheEntry<S>, order: seq<nat>)
    requires WellFormed(h) && Caches(m, h, cache, seen) && Stands(m, h, entry, order) && order !in seen
    requires forall e :: InCache(larger, e) <==> InCache(cache, e) || e == entry
    ensures Caches(m, h, larger, seen[order := entry])
  {
    var more := seen[order := entry];
    assert more[order] == entry;
    forall e | InCache(larger, e)
      ensures e in more.Values
    {
      if e != entry {
        var other :| other in seen && seen[other] == e;
        assert more[other] == e;
      }
    }
  }

  // ----- the undo stack -----

  /** The list before an operation was lifted, where its call and return stood in it, and the list after. */
  datatype Level = Level(list: seq<nat>, i: nat, j: nat, below: seq<nat>)

  ghost predicate LevelOk<I, O>(nodes: seq<Node<I, O>>, places: seq<Place<I, O>>, h: seq<Entry<I, O>>, done: set<nat>,
                                c: nat, level: Level)
    requires WellFormed(h) && |nodes| == |places| == |h| + 1
  {
    && c < |h| / 2
    && Live(h, level.list, done)
    && 0 < level.i < level.j < |level.list|
    && level.list[level.i] == CallAt(h, c) + 1
    && level.list[level.j] == ReturnAt(h, c) + 1
    && level.below == Without(level.list, level.i, level.j)
    && Detached(nodes, places, level.list, level.i, level.j)
  }

  /** Each stacked operation can be put back, from the top down. */
  ghost predicate Trail<I, O>(nodes: seq<Node<I, O>>, places: seq<Place<I, O>>, h: seq<Entry<I, O>>, order: seq<nat>,
                              trail: seq<Level>, list: seq<nat>)
    requires WellFormed(h) && |nodes| == |places| == |h| + 1
    decreases |order|
  {
    |trail| == |order| &&
    (order == [] ||
     var top := |order| - 1;
     && trail[top].below == list
     && LevelOk(nodes, places, h, Members(order[..top]), order[top], trail[top])
     && Trail(nodes, places, h, order[..top], trail[..top], trail[top].list))
  }

  /** The nodes carry the history: entry p is node p + 1, and a call knows its return. */
  ghost predicate Mirrors<I, O>(nodes: seq<Node<I, O>>, h: seq<Entry<I, O>>)
    requires WellFormed(h)
  {
    && |nodes| == |h| + 1
    && DistinctNodes(nodes)
    && forall p :: 0 <= p < |h| ==> MirrorsAt(nodes, h, p)
  }

  ghost predicate MirrorsAt<I, O>(nodes: seq<Node<I, O>>, h: seq<Entry<I, O>>, p: nat)
    requires WellFormed(h) && |nodes| == |h| + 1 && p < |h|
  {
    && nodes[p + 1].id == h[p].id
    && (h[p].Return? ==> nodes[p + 1].matching == null && nodes[p + 1].value == Output(h[p].output))
    && (h[p].Call? ==>
          && h[p].id < |h| / 2
          && nodes[p + 1].matching == nodes[ReturnAt(h, h[p].id) + 1] && nodes[p + 1].value == Input(h[p].input))
  }

  /** The calls stack holds the node of each stacked operation and the state before it. */
  ghost predicate Stacked<S, I, O>(m: Model<S, I, O>, h: seq<Entry<I, O>>, nodes: seq<Node<I, O>>, order: seq<nat>,
                                   calls: seq<CallsEntry<S, I, O>>)
    requires WellFormed(h) && |nodes| == |h| + 1
  {
    |calls| == |order| &&
    (order == [] ||
     var top := |order| - 1;
     && order[top] < |h| / 2
     && calls[top].entry == nodes[CallAt(h, order[top]) + 1]
     && calls[top].entry.id == order[top]
     && Ids(h, order[..top]) && Run(m, h, order[..top]) == Some(calls[top].state)
     && Stacked(m, h, nodes, order[..top], calls[..top]))
  }

  lemma {:induction false} StackedIds<S, I, O>(m: Model<S, I, O>, h: seq<Entry<I, O>>, nodes: seq<Node<I, O>>, order: seq<nat>,
                                               calls: seq<CallsEntry<S, I, O>>)
    requires WellFormed(h) && |nodes| == |h| + 1 && Stacked(m, h, nodes, order, calls)
    ensures forall k :: 0 <= k < |order| ==> calls[k].entry.id == order[k]
  {
    if order != [] {
      StackedIds(m, h, nodes, order[..|order| - 1], calls[..|order| - 1]);
    }
  }

  lemma LevelUntouched<I, O>(nodes: seq<Node<I, O>>, before: seq<Place<I, O>>, after: seq<Place<I, O>>, h: seq<Entry<I, O>>,
                             done: set<nat>, c: nat, level: Level, all: set<nat>, list: seq<nat>)
    requires WellFormed(h) && |nodes| == |before| == |h| + 1 && LevelOk(nodes, before, h, done, c, level)
    requires c in all && Live(h, list, all) && UntouchedOutside(before, after, list)
    ensures LevelOk(nodes, after, h, done, c, level)
  {
    assert CallAt(h, c) + 1 !in list && ReturnAt(h, c) + 1 !in list;
  }

  /** Touching only listed nodes leaves the trail alone: stacked nodes are not listed. */
  lemma {:induction false} TrailUntouched<I, O>(nodes: seq<Node<I, O>>, before: seq<Place<I, O>>, after: seq<Place<I, O>>,
                                                h: seq<Entry<I, O>>, order: seq<nat>, trail: seq<Level>, below: seq<nat>,
                                                all: set<nat>, list: seq<nat>)
    requires WellFormed(h) && |nodes| == |before| == |h| + 1
    requires Trail(nodes, before, h, order, trail, below) && Live(h, list, all) && Members(order) <= all
    requires UntouchedOutside(before, after, list)
    ensures Trail(nodes, after, h, order, trail, below)
    decreases |order|
  {
    if order != [] {
      var top := |order| - 1;
      assert order[top] in Members(order) && Members(order[..top]) <= Members(order);
      LevelUntouched(nodes, before, after, h, Members(order[..top]), order[top], trail[top], all, list);
      TrailUntouched(nodes, before, after, h, order[..top], trail[..top], trail[top].list, all, list);
    }
  }

  /** The linked list, its meaning, and the way back. */
  ghost predicate ListOk<I, O>(nodes: seq<Node<I, O>>, h: seq<Entry<I, O>>, order: seq<nat>, trail: seq<Level>, list: seq<nat>)
    requires WellFormed(h)
    reads nodes
  {
    && Mirrors(nodes, h)
    && Live(h, list, Members(order))
    && Linked(nodes, Places(nodes), list)
    && Trail(nodes, Places(nodes), h, order, trail, list)
  }

  /** Lifting the call at list index q, whose return is at index j. */
  method PushCall<I, O>(entry: Node<I, O>, ghost nodes: seq<Node<I, O>>, ghost h: seq<Entry<I, O>>, ghost order: seq<nat>,
                        ghost trail: seq<Level>, ghost list: seq<nat>, ghost c: nat, ghost q: nat, ghost j: nat)
    requires WellFormed(h) && ListOk(nodes, h, order, trail, list)
    requires 0 < q < j < |list| && entry == nodes[list[q]] && c < |h| / 2
    requires list[q] == CallAt(h, c) + 1 && list[j] == ReturnAt(h, c) + 1
    modifies nodes
    ensures ListOk(nodes, h, order + [c], trail + [Level(list, q, j, Without(list, q, j))], Without(list, q, j))
  {
    hide WellFormed, Linked, Increasing, CallAt, ReturnAt;
    assert MirrorsAt(nodes, h, CallAt(h, c));
    ghost var before, level := Places(nodes), Level(list, q, j, Without(list, q, j));
    LiftLive(h, list, Members(order), c, q, j);
    MembersSnoc(order, c);
    Lift(entry, nodes, list, q, j);
    ghost var after := Places(nodes);
    TrailUntouched(nodes, before, after, h, order, trail, list, Members(order), list);
    assert (order + [c])[..|order|] == order && (trail + [level])[..|order|] == trail;
  }

  lemma MembersSnoc(order: seq<nat>, c: nat)
    ensures Members(order + [c]) == Members(order) + {c}
  {
    assert (order + [c])[..|order|] == order;
  }

  /** Putting the topmost stacked call back. */
  method PopCall<I, O>(entry: Node<I, O>, ghost nodes: seq<Node<I, O>>, ghost h: seq<Entry<I, O>>, ghost order: seq<nat>,
                       ghost trail: seq<Level>, ghost list: seq<nat>)
    requires WellFormed(h) && ListOk(nodes, h, order, trail, list) && order != []
    requires order[|order| - 1] < |h| / 2 && entry == nodes[CallAt(h, order[|order| - 1]) + 1]
    modifies nodes
    ensures var top := |order| - 1; ListOk(nodes, h, order[..top], trail[..top], trail[top].list)
  {
    ghost var top := |order| - 1;
    ghost var level, c, before := trail[top], order[top], Places(nodes);
    assert MirrorsAt(nodes, h, CallAt(h, c));
    Unlift(entry, nodes, level.list, level.i, level.j);
    TrailUntouched(nodes, before, Places(nodes), h, order[..top], trail[..top], level.list, Members(order[..top]), level.list);
  }

  // ----- visiting a configuration -----

  lemma PositionFits(n: nat, pos: nat)
    requires pos < n
    ensures pos / 64 < Bitset.Chunks(n)
  {
  }

  /** Clones the bitset, adds `id`, and looks the new configuration up; if it is new, caches it. */
  method Visit<S(!new), I(!new), O(!new)>(m: Model<S, I, O>, cache: Cache<S>, linearized: array<Bitset.Word>, id: nat, newState: S,
                                          ghost h: seq<Entry<I, O>>, ghost seen: map<seq<nat>, CacheEntry<S>>, ghost order: seq<nat>)
    returns (isNew: bool, larger: Cache<S>, ghost more: map<seq<nat>, CacheEntry<S>>)
    requires WellFormed(h) && Lawful(m) && id / 64 < linearized.Length
    requires Bucketed(cache, linearized.Length) && Caches(m, h, cache, seen)
    requires Reached(m, h, order + [id]) && Run(m, h, order + [id]) == Some(newState)
    requires Bitset.Elements(linearized[..]) == Members(order)
    ensures isNew <==> !Covered(m, h, seen.Keys, order + [id])
    ensures Bucketed(larger, linearized.Length) && Caches(m, h, larger, more)
    ensures isNew ==> order + [id] !in seen && more.Keys == seen.Keys + {order + [id]}
    ensures !isNew ==> larger == cache && more == seen
  {
    MembersSnoc(order, id);
    var newLinearized := Bitset.Clone(linearized);
    Bitset.Set(newLinearized, id);
    var newCacheEntry := CacheEntry(newLinearized[..], newState);
    assert Stands(m, h, newCacheEntry, order + [id]);
    CacheDecides(m, h, cache, seen, newCacheEntry, order + [id]);
    var found := CacheContains(m, cache, newCacheEntry);
    isNew, larger, more := !found, cache, seen;
    if isNew {
      larger := CacheInsert(cache, newCacheEntry);
      CoveredByItself(m, h, seen.Keys, order + [id]);
      CachesInsert(m, h, cache, larger, seen, newCacheEntry, order + [id]);
      more := seen[order + [id] := newCacheEntry];
    }
  }

  lemma CoveredByItself<S(!new), I(!new), O(!new)>(m: Model<S, I, O>, h: seq<Entry<I, O>>, explored: set<seq<nat>>, order: seq<nat>)
    requires WellFormed(h) && Lawful(m) && Reached(m, h, order)
    ensures order in explored ==> Covered(m, h, explored, order)
  {
    assert SameConfiguration(m, h, order, order);
  }

  // ----- the longest partial linearizations -----

  type Longest = seq<Option<seq<nat>>>

  /** Replaces every recorded answer for a stacked operation that the current stack beats. */
  method RecordLongest<S, I, O>(calls: seq<CallsEntry<S, I, O>>, longest: Longest, ghost order: seq<nat>) returns (updated: Longest)
    requires |calls| == |order|
    requires forall k :: 0 <= k < |order| ==> calls[k].entry.id == order[k] < |longest|
    ensures |updated| == |longest|
    ensures forall id :: 0 <= id < |longest| ==>
      updated[id] == if id in order && (longest[id].None? || |order| > |longest[id].value|) then Some(order) else longest[id]
  {
    updated := longest;
    var stack: Option<seq<nat>> := None;
    for k := 0 to |calls|
      invariant |updated| == |longest|
      invariant stack.Some? ==> stack.value == order
      invariant forall id :: 0 <= id < |longest| ==>
        updated[id] == if id in order[..k] && (longest[id].None? || |order| > |longest[id].value|) then Some(order) else longest[id]
    {
      var id := calls[k].entry.id;
      if updated[id].None? || |calls| > |updated[id].value| {
        if stack.None? {
          var ids: seq<nat> := [];
          for i := 0 to |calls|
            invariant ids == order[..i]
          {
            ids := ids + [calls[i].entry.id];
          }
          stack := Some(ids);
        }
        updated := updated[id := stack];
      }
      assert order[..k + 1] == order[..k] + [order[k]];
    }
    assert order[..|calls|] == order;
  }

  /** Every recorded answer is a partial linearization that contains its operation. */
  ghost predicate LongestSound<S, I, O>(m: Model<S, I, O>, h: seq<Entry<I, O>>, longest: Longest)
    requires WellFormed(h)
  {
    |longest| == |h| / 2 &&
    forall id :: 0 <= id < |longest| && longest[id].Some? ==> Reached(m, h, longest[id].value) && id in longest[id].value
  }

  ghost predicate AtLeast(longest: Longest, e: seq<nat>) {
    forall k :: 0 <= k < |e| ==> e[k] < |longest| && longest[e[k]].Some? && |longest[e[k]].value| >= |e|
  }

  /** Every stack the search has left has been taken into account. */
  ghost predicate LongestLeft(longest: Longest, explored: set<seq<nat>>, order: seq<nat>) {
    forall e :: e in explored && !(e <= order) ==> AtLeast(longest, e)
  }

  lemma LongestPop(longest: Longest, updated: Longest, explored: set<seq<nat>>, order: seq<nat>)
    requires order != [] && LongestLeft(longest, explored, order) && |updated| == |longest|
    requires forall k :: 0 <= k < |order| ==> order[k] < |longest|
    requires forall id :: 0 <= id < |longest| ==>
      updated[id] == if id in order && (longest[id].None? || |order| > |longest[id].value|) then Some(order) else longest[id]
    ensures LongestLeft(updated, explored, order[..|order| - 1])
  {
    forall e | e in explored && !(e <= order[..|order| - 1])
      ensures AtLeast(updated, e)
    {
      if e <= order {
        assert |e| == |order| ==> e == order;
      } else {
        assert AtLeast(longest, e);
      }
    }
  }

  /** The best possible answer for operation `id`. */
  ghost predicate Optimal<S, I, O>(m: Model<S, I, O>, h: seq<Entry<I, O>>, id: nat, answer: Option<seq<nat>>)
    requires WellFormed(h)
  {
    match answer
    case None => forall order :: PartialLinearization(m, h, order) ==> id !in order
    case Some(best) =>
      && PartialLinearization(m, h, best)
      && id in best
      && forall order :: PartialLinearization(m, h, order) && id in order ==> |order| <= |best|
  }

  /** Giving up at the root: the recorded answers are optimal. */
  lemma ExhaustedOptimal<S(!new), I(!new), O(!new)>(m: Model<S, I, O>, h: seq<Entry<I, O>>, explored: set<seq<nat>>, a: nat,
                                                   longest: Longest, id: nat)
    requires WellFormed(h) && Lawful(m) && a < |h| / 2 && id < |h| / 2
    requires Explored(m, h, explored, [], ReturnAt(h, a))
    requires LongestSound(m, h, longest) && LongestLeft(longest, explored, [])
    ensures Optimal(m, h, id, longest[id])
  {
    if longest[id].Some? {
      ReachedIsPartial(m, h, longest[id].value);
    }
    forall order | PartialLinearization(m, h, order) && id in order
      ensures longest[id].Some? && |order| <= |longest[id].value|
    {
      ReachedIsPartial(m, h, order);
      ExhaustedCovers(m, h, explored, a, order);
      var e :| e in explored && SameConfiguration(m, h, e, order);
      ReachedDistinct(m, h, e);
      ReachedDistinct(m, h, order);
      assert AtLeast(longest, e);
      assert id in Members(e);
    }
  }

  /** A stack of every operation is an optimal answer for each of them. */
  lemma CompleteOptimal<S, I, O>(m: Model<S, I, O>, h: seq<Entry<I, O>>, order: seq<nat>, id: nat)
    requires WellFormed(h) && Reached(m, h, order) && id < |h| / 2
    requires forall c: nat :: c < |h| / 2 ==> c in order
    ensures Optimal(m, h, id, Some(order))
  {
    ReachedIsPartial(m, h, order);
    ReachedDistinct(m, h, order);
    forall other | PartialLinearization(m, h, other)
      ensures |other| <= |order|
    {
      ReachedIsPartial(m, h, other);
      ReachedDistinct(m, h, other);
    }
  }

  /** Giving up at the root: there is no linearization. */
  lemma ExhaustedUnlinearizable<S(!new), I(!new), O(!new)>(m: Model<S, I, O>, h: seq<Entry<I, O>>, explored: set<seq<nat>>, a: nat)
    requires WellFormed(h) && Lawful(m) && a < |h| / 2
    requires Explored(m, h, explored, [], ReturnAt(h, a))
    requires forall e :: e in explored ==> |e| < |h| / 2
    ensures !Linearizable(m, h)
  {
    forall order | Linearization(m, h, order)
      ensures false
    {
      ReachedIsPartial(m, h, order);
      ReachedDistinct(m, h, order);
      assert a in order;
      ExhaustedCovers(m, h, explored, a, order);
      var e :| e in explored && SameConfiguration(m, h, e, order);
      ReachedDistinct(m, h, e);
    }
  }

  lemma NotComplete<S, I, O>(m: Model<S, I, O>, h: seq<Entry<I, O>>, order: seq<nat>, list: seq<nat>)
    requires WellFormed(h) && Reached(m, h, order) && Live(h, list, Members(order)) && |list| > 1
    ensures |order| < |h| / 2
  {
    ReachedDistinct(m, h, order);
    assert list[1] in list;
    OnlyTwoEntries(h, list[1] - 1);
    assert h[list[1] - 1].id !in order;
  }

  ghost predicate FreshLinks<I, O>(rest: seq<Node<I, O>>, head: Node<I, O>)
    reads head, rest
  {
    && head.next == (if rest == [] then null else rest[0])
    && (forall k {:trigger rest[k].next} :: 0 <= k < |rest| ==> rest[k].next == if k + 1 < |rest| then rest[k + 1] else null)
    && (forall k {:trigger rest[k].prev} :: 0 <= k < |rest| ==> rest[k].prev == if k > 0 then rest[k - 1] else head)
  }

  lemma FreshLinked<I, O>(nodes: seq<Node<I, O>>, rest: seq<Node<I, O>>, head: Node<I, O>)
    requires nodes == [head] + rest && FreshLinks(rest, head)
    ensures Linked(nodes, Places(nodes), Iota(|nodes|))
  {
    var list, places := Iota(|nodes|), Places(nodes);
    assert places[0].next == head.next;
    forall k | 0 < k < |nodes|
      ensures places[k].next == NodeAt(nodes, list, k + 1) && places[k].prev == NodeAt(nodes, list, k - 1)
    {
      assert nodes[k] == rest[k - 1];
      assert places[k] == Place(rest[k - 1].prev, rest[k - 1].next);
    }
  }

  /** The freshly built list, with the sentinel in front. */
  lemma FreshList<I, O>(nodes: seq<Node<I, O>>, rest: seq<Node<I, O>>, head: Node<I, O>, h: seq<Entry<I, O>>)
    requires WellFormed(h) && nodes == [head] + rest && |rest| == |h| && CarriesAll(rest, h, 0)
    requires DistinctNodes(rest) && head !in rest
    requires FreshLinks(rest, head)
    ensures ListOk(nodes, h, [], [], Iota(|h| + 1))
  {
    AllLive(h);
    assert Members([]) == {};
    FreshLinked(nodes, rest, head);
    forall p | 0 <= p < |h|
      ensures MirrorsAt(nodes, h, p)
    {
      assert Carries(rest, h, 0, p) && nodes[p + 1] == rest[p];
      OnlyTwoEntries(h, p);
      if h[p].Call? {
        UniqueReturn(h, h[p].id, p + 1);
      }
    }
  }

  lemma {:induction false} UniqueReturn<I, O>(h: seq<Entry<I, O>>, id: nat, from: nat)
    requires WellFormed(h) && id < |h| / 2 && from <= ReturnAt(h, id)
    ensures NextReturn(h, id, from) == ReturnAt(h, id)
    decreases |h| - from
  {
    if from < ReturnAt(h, id) {
      UniqueReturn(h, id, from + 1);
    }
  }

  /** The cursor, and the node it stands on. */
  ghost predicate Standing<I, O>(nodes: seq<Node<I, O>>, h: seq<Entry<I, O>>, order: seq<nat>, list: seq<nat>, q: nat,
                                 limit: nat, entry: Node?<I, O>)
    requires WellFormed(h) && |nodes| == |h| + 1 && Live(h, list, Members(order))
  {
    |list| > 1 ==> Cursor(h, list, Members(order), q) && limit == list[q] - 1 && entry == nodes[list[q]]
  }

  /** The sentinel's successor tells whether anything is left. */
  lemma HeadNext<I, O>(nodes: seq<Node<I, O>>, h: seq<Entry<I, O>>, order: seq<nat>, trail: seq<Level>, list: seq<nat>)
    requires WellFormed(h) && ListOk(nodes, h, order, trail, list)
    ensures nodes[0].next == NodeAt(nodes, list, 1)
  {
    var places := Places(nodes);
    assert places[list[0]].next == NodeAt(nodes, list, 1);
  }

  /** Following next from the k-th listed node. */
  lemma NodeNext<I, O>(nodes: seq<Node<I, O>>, h: seq<Entry<I, O>>, order: seq<nat>, trail: seq<Level>, list: seq<nat>, k: nat)
    requires WellFormed(h) && ListOk(nodes, h, order, trail, list) && k < |list|
    ensures nodes[list[k]].next == NodeAt(nodes, list, k + 1)
  {
    var places := Places(nodes);
    assert places[list[k]].next == NodeAt(nodes, list, k + 1);
  }

  /** What running one more operation gives. */
  lemma RunSnoc<S, I, O>(m: Model<S, I, O>, h: seq<Entry<I, O>>, order: seq<nat>, c: nat, s: S)
    requires WellFormed(h) && Reached(m, h, order) && Run(m, h, order) == Some(s) && Enabled(h, Members(order), c)
    ensures Ids(h, order + [c])
    ensures var (ok, t) := m.step(s, h[CallAt(h, c)].input, h[ReturnAt(h, c)].output);
      Run(m, h, order + [c]) == (if ok then Some(t) else None) && (ok <==> Reached(m, h, order + [c]))
  {
    hide WellFormed, Stepwise, Precedes;
    assert (order + [c])[..|order|] == order;
    ReachedSnoc(m, h, order, c);
  }

  // ----- the search loop -----

  /** The variables of the loop. */
  datatype Frame<!S, I, O> = Frame(entry: Node?<I, O>, state: S, calls: seq<CallsEntry<S, I, O>>, cache: Cache<S>, longest: Longest)

  /** What the proof keeps beside them: the stacked ids, the explored stacks, the way back, the
      linked list, the cursor's index in it and the history position it stands for. */
  datatype Shadow<S> = Shadow(order: seq<nat>, seen: map<seq<nat>, CacheEntry<S>>, trail: seq<Level>, list: seq<nat>, q: nat, limit: nat)

  ghost predicate Bookkeeping<S(!new), I, O>(m: Model<S, I, O>, h: seq<Entry<I, O>>, nodes: seq<Node<I, O>>, order: seq<nat>,
                                             seen: map<seq<nat>, CacheEntry<S>>, calls: seq<CallsEntry<S, I, O>>, state: S,
                                             cache: Cache<S>)
    requires WellFormed(h) && |nodes| == |h| + 1
  {
    && Stacked(m, h, nodes, order, calls)
    && Reached(m, h, order) && Run(m, h, order) == Some(state)
    && Bucketed(cache, Bitset.Chunks(|h| / 2)) && Caches(m, h, cache, seen)
  }

  ghost predicate Recorded<S, I, O>(m: Model<S, I, O>, h: seq<Entry<I, O>>, explored: set<seq<nat>>, order: seq<nat>,
                                    longest: Longest, computePartial: bool)
    requires WellFormed(h)
  {
    LongestSound(m, h, longest) && (computePartial ==> LongestLeft(longest, explored, order))
  }

  ghost predicate Progress<S, I, O>(m: Model<S, I, O>, h: seq<Entry<I, O>>, nodes: seq<Node<I, O>>, explored: set<seq<nat>>,
                                    order: seq<nat>, list: seq<nat>, q: nat, limit: nat, entry: Node?<I, O>)
    requires WellFormed(h) && |nodes| == |h| + 1 && Live(h, list, Members(order))
  {
    && Explored(m, h, explored, order, limit)
    && Standing(nodes, h, order, list, q, limit, entry)
    && (|list| > 1 ==> forall e :: e in explored ==> |e| < |h| / 2)
  }

  /** The loop invariant. */
  ghost predicate Searching<S(!new), I, O>(m: Model<S, I, O>, h: seq<Entry<I, O>>, nodes: seq<Node<I, O>>,
                                           linearized: array<Bitset.Word>, f: Frame<S, I, O>, g: Shadow<S>, computePartial: bool)
    requires WellFormed(h)
    reads nodes, linearized
  {
    && ListOk(nodes, h, g.order, g.trail, g.list)
    && linearized.Length == Bitset.Chunks(|h| / 2) && Bitset.Elements(linearized[..]) == Members(g.order)
    && Bookkeeping(m, h, nodes, g.order, g.seen, f.calls, f.state, f.cache)
    && Recorded(m, h, g.seen.Keys, g.order, f.longest, computePartial)
    && Progress(m, h, nodes, g.seen.Keys, g.order, g.list, g.q, g.limit, f.entry)
  }

  lemma PassProgress<S(!new), I(!new), O(!new)>(m: Model<S, I, O>, h: seq<Entry<I, O>>, nodes: seq<Node<I, O>>, explored: set<seq<nat>>,
                                                order: seq<nat>, list: seq<nat>, q: nat, limit: nat, entry: Node?<I, O>)
    requires WellFormed(h) && Lawful(m) && |nodes| == |h| + 1 && Live(h, list, Members(order))
    requires Progress(m, h, nodes, explored, order, list, q, limit, entry) && |list| > 1 && h[limit].Call?
    requires Reached(m, h, order + [h[limit].id]) ==> Covered(m, h, explored, order + [h[limit].id])
    ensures q + 1 < |list|
    ensures Progress(m, h, nodes, explored, order, list, q + 1, list[q + 1] - 1, nodes[list[q + 1]])
  {
    OnlyTwoEntries(h, limit);
    PassedOver(m, h, explored, order, h[limit].id);
    CursorAdvance(h, list, order, q);
    ExpandedFurther(m, h, explored, order, limit + 1, list[q + 1] - 1);
  }

  /** The cursor passes a call that cannot be performed or leads to a known configuration. */
  method PassCall<S(!new), I(!new), O(!new)>(ghost m: Model<S, I, O>, ghost h: seq<Entry<I, O>>, ghost nodes: seq<Node<I, O>>,
                                             ghost linearized: array<Bitset.Word>, f: Frame<S, I, O>, ghost g: Shadow<S>,
                                             ghost computePartial: bool)
    returns (f': Frame<S, I, O>, ghost g': Shadow<S>)
    requires WellFormed(h) && Lawful(m) && Searching(m, h, nodes, linearized, f, g, computePartial)
    requires |g.list| > 1 && h[g.limit].Call?
    requires Reached(m, h, g.order + [h[g.limit].id]) ==> Covered(m, h, g.seen.Keys, g.order + [h[g.limit].id])
    ensures Searching(m, h, nodes, linearized, f', g', computePartial)
    ensures g'.seen == g.seen && g'.order == g.order && |g'.list| - g'.q < |g.list| - g.q && g'.q < |g'.list|
  {
    PassProgress(m, h, nodes, g.seen.Keys, g.order, g.list, g.q, g.limit, f.entry);
    NodeNext(nodes, h, g.order, g.trail, g.list, g.q);
    f' := f.(entry := f.entry.next);
    g' := g.(q := g.q + 1, limit := g.list[g.q + 1] - 1);
  }

  ghost function StartLimit(list: seq<nat>): nat {
    if |list| > 1 && list[1] > 0 then list[1] - 1 else 0
  }

  lemma PushProgress<S(!new), I(!new), O(!new)>(m: Model<S, I, O>, h: seq<Entry<I, O>>, nodes: seq<Node<I, O>>, explored: set<seq<nat>>,
                                                order: seq<nat>, c: nat, list: seq<nat>)
    requires WellFormed(h) && Lawful(m) && |nodes| == |h| + 1 && c < |h| / 2
    requires Explored(m, h, explored, order, CallAt(h, c)) && Reached(m, h, order + [c])
    requires forall e :: e in explored ==> |e| < |h| / 2
    requires Live(h, list, Members(order + [c]))
    ensures Progress(m, h, nodes, explored + {order + [c]}, order + [c], list, 1, StartLimit(list), NodeAt(nodes, list, 1))
  {
    ExploredPush(m, h, explored, order, c);
    if |list| > 1 {
      CursorStart(h, list, order + [c]);
      NotComplete(m, h, order + [c], list);
      ExpandedFurther(m, h, explored + {order + [c]}, order + [c], 0, list[1] - 1);
    }
  }

  lemma PushRecorded<S, I, O>(m: Model<S, I, O>, h: seq<Entry<I, O>>, explored: set<seq<nat>>, order: seq<nat>, c: nat,
                              longest: Longest, computePartial: bool)
    requires WellFormed(h) && Recorded(m, h, explored, order, longest, computePartial)
    ensures Recorded(m, h, explored + {order + [c]}, order + [c], longest, computePartial)
  {
    forall e | e in explored + {order + [c]} && !(e <= order + [c])
      ensures e in explored && !(e <= order)
    {
      assert e <= order ==> e <= order + [c];
    }
  }

  lemma PushStacked<S, I, O>(m: Model<S, I, O>, h: seq<Entry<I, O>>, nodes: seq<Node<I, O>>, order: seq<nat>,
                             calls: seq<CallsEntry<S, I, O>>, c: nat, top: CallsEntry<S, I, O>)
    requires WellFormed(h) && |nodes| == |h| + 1 && Stacked(m, h, nodes, order, calls) && Ids(h, order)
    requires c < |h| / 2 && Run(m, h, order) == Some(top.state)
    requires top.entry == nodes[CallAt(h, c) + 1] && top.entry.id == c
    ensures Stacked(m, h, nodes, order + [c], calls + [top])
  {
    assert (order + [c])[..|order|] == order && (calls + [top])[..|order|] == calls;
  }

  lemma PushReady<S(!new), I(!new), O(!new)>(m: Model<S, I, O>, h: seq<Entry<I, O>>, nodes: seq<Node<I, O>>, f: Frame<S, I, O>,
                                             g: Shadow<S>, newState: S, larger: Cache<S>, more: map<seq<nat>, CacheEntry<S>>)
    returns (c: nat, j: nat)
    requires WellFormed(h) && Lawful(m) && ListOk(nodes, h, g.order, g.trail, g.list)
    requires Bookkeeping(m, h, nodes, g.order, g.seen, f.calls, f.state, f.cache)
    requires Progress(m, h, nodes, g.seen.Keys, g.order, g.list, g.q, g.limit, f.entry)
    requires |g.list| > 1 && h[g.limit].Call?
    requires Reached(m, h, g.order + [h[g.limit].id]) && Run(m, h, g.order + [h[g.limit].id]) == Some(newState)
    requires Bucketed(larger, Bitset.Chunks(|h| / 2)) && Caches(m, h, larger, more)
    requires more.Keys == g.seen.Keys + {g.order + [h[g.limit].id]}
    ensures c == h[g.limit].id < |h| / 2 && 0 < g.q < j < |g.list|
    ensures g.list[g.q] == CallAt(h, c) + 1 && g.list[j] == ReturnAt(h, c) + 1
    ensures f.entry != null && f.entry == nodes[g.list[g.q]] && f.entry.id == c
    ensures Bookkeeping(m, h, nodes, g.order + [c], more, f.calls + [CallsEntry(f.entry, f.state)], newState, larger)
    ensures var below := Without(g.list, g.q, j);
      && Live(h, below, Members(g.order + [c]))
      && Progress(m, h, nodes, more.Keys, g.order + [c], below, 1, StartLimit(below), NodeAt(nodes, below, 1))
  {
    hide Lawful, Caches, Bucketed, Explored, Enabled, Reached, Linked, Trail, Places;
    c, j := CursorEnabled(h, g.list, Members(g.order), g.q);
    assert MirrorsAt(nodes, h, g.limit);
    PushStacked(m, h, nodes, g.order, f.calls, c, CallsEntry(f.entry, f.state));
    MembersSnoc(g.order, c);
    LiftLive(h, g.list, Members(g.order), c, g.q, j);
    PushProgress(m, h, nodes, g.seen.Keys, g.order, c, Without(g.list, g.q, j));
  }

  /** Pushing the call under the cursor, whose configuration is new and has just been cached. */
  method PushNew<S(!new), I(!new), O(!new)>(ghost m: Model<S, I, O>, ghost h: seq<Entry<I, O>>, ghost nodes: seq<Node<I, O>>,
                                            headEntry: Node<I, O>, linearized: array<Bitset.Word>, f: Frame<S, I, O>, ghost g: Shadow<S>,
                                            ghost computePartial: bool, newState: S, larger: Cache<S>,
                                            ghost more: map<seq<nat>, CacheEntry<S>>)
    returns (f': Frame<S, I, O>, ghost g': Shadow<S>)
    requires WellFormed(h) && Lawful(m) && Searching(m, h, nodes, linearized, f, g, computePartial)
    requires |g.list| > 1 && h[g.limit].Call? && headEntry == nodes[0]
    requires Reached(m, h, g.order + [h[g.limit].id]) && Run(m, h, g.order + [h[g.limit].id]) == Some(newState)
    requires Bucketed(larger, Bitset.Chunks(|h| / 2)) && Caches(m, h, larger, more)
    requires g.order + [h[g.limit].id] !in g.seen && more.Keys == g.seen.Keys + {g.order + [h[g.limit].id]}
    modifies nodes, linearized
    ensures Searching(m, h, nodes, linearized, f', g', computePartial)
    ensures Unexplored(h, g'.seen.Keys) < Unexplored(h, g.seen.Keys)
  {
    hide ListOk, Progress, Bookkeeping, Recorded, Lawful, Caches, Bucketed, Reached, Unexplored, Live, WellFormed, Without, StartLimit,
      Members, Increasing, Bitset.Elements, Bitset.Chunks, NodeAt, CallAt, ReturnAt;
    ghost var c, j := PushReady(m, h, nodes, f, g, newState, larger, more);
    ExploringShrinks(m, h, g.seen.Keys, g.order + [c]);
    PushRecorded(m, h, g.seen.Keys, g.order, c, f.longest, computePartial);
    ghost var below := Without(g.list, g.q, j);
    ghost var trail := g.trail + [Level(g.list, g.q, j, below)];
    var id := f.entry.id;
    PushCall(f.entry, nodes, h, g.order, g.trail, g.list, c, g.q, j);
    PositionFits(|h| / 2, id);
    MembersSnoc(g.order, c);
    Bitset.Set(linearized, id);
    HeadNext(nodes, h, g.order + [c], trail, below);
    f' := Frame(headEntry.next, newState, f.calls + [CallsEntry(f.entry, f.state)], larger, f.longest);
    g' := Shadow(g.order + [c], more, trail, below, 1, StartLimit(below));
  }

  lemma PopProgress<S(!new), I(!new), O(!new)>(m: Model<S, I, O>, h: seq<Entry<I, O>>, nodes: seq<Node<I, O>>, explored: set<seq<nat>>,
                                               order: seq<nat>, a: nat, list: seq<nat>, i: nat, j: nat)
    requires WellFormed(h) && |nodes| == |h| + 1 && order != [] && a < |h| / 2 && a !in Members(order)
    requires Explored(m, h, explored, order, ReturnAt(h, a))
    requires forall e :: e in explored ==> |e| < |h| / 2
    requires Live(h, list, Members(order[..|order| - 1])) && 0 < i < j < |list| && order[|order| - 1] < |h| / 2
    requires list[i] == CallAt(h, order[|order| - 1]) + 1
    ensures Progress(m, h, nodes, explored, order[..|order| - 1], list, i + 1, list[i + 1] - 1, nodes[list[i + 1]])
  {
    var shallower, c := order[..|order| - 1], order[|order| - 1];
    ExploredPop(m, h, explored, order, a);
    ReachedShorter(m, h, order);
    CursorResume(h, list, shallower, c, i, j);
    ExpandedFurther(m, h, explored, shallower, CallAt(h, c) + 1, list[i + 1] - 1);
  }

  lemma PopReady<S(!new), I(!new), O(!new)>(m: Model<S, I, O>, h: seq<Entry<I, O>>, nodes: seq<Node<I, O>>, f: Frame<S, I, O>,
                                            g: Shadow<S>)
    returns (top: nat, level: Level, c: nat)
    requires WellFormed(h) && ListOk(nodes, h, g.order, g.trail, g.list)
    requires Bookkeeping(m, h, nodes, g.order, g.seen, f.calls, f.state, f.cache)
    requires Progress(m, h, nodes, g.seen.Keys, g.order, g.list, g.q, g.limit, f.entry)
    requires |g.list| > 1 && h[g.limit].Return? && |f.calls| > 0
    ensures |g.order| == |f.calls| == |g.trail| && top == |g.order| - 1 && level == g.trail[top]
    ensures |nodes| == |h| + 1 && Reached(m, h, g.order)
    ensures c == g.order[top] < |h| / 2 && f.calls[top].entry == nodes[CallAt(h, c) + 1] && f.calls[top].entry.id == c
    ensures 0 < level.i < level.j < |level.list| && level.list[level.i] == CallAt(h, c) + 1 && level.list[level.i + 1] > 0
    ensures Live(h, level.list, Members(g.order[..top])) && Members(g.order) - {c} == Members(g.order[..top])
    ensures Bookkeeping(m, h, nodes, g.order[..top], g.seen, f.calls[..top], f.calls[top].state, f.cache)
    ensures Progress(m, h, nodes, g.seen.Keys, g.order[..top], level.list, level.i + 1, level.list[level.i + 1] - 1, nodes[level.list[level.i + 1]])
  {
    hide Lawful, Caches, Bucketed, Linked, Explored, Reached, Stacked, Members, Run, WellFormed, Live, Trail, Bookkeeping,
      MirrorsAt, DistinctNodes, CallAt, ReturnAt, Progress;
    ProgressAt(m, h, nodes, g.seen.Keys, g.order, g.list, g.q, g.limit, f.entry);
    PopBook(m, h, nodes, g.order, g.seen, f.calls, f.state, f.cache);
    top := |g.order| - 1;
    level, c := TrailTop(nodes, Places(nodes), h, g.order, g.trail, g.list);
    UnfinishedReturn(h, g.list, g.order, g.q);
    PopProgress(m, h, nodes, g.seen.Keys, g.order, h[g.limit].id, level.list, level.i, level.j);
  }

  lemma ProgressAt<S, I, O>(m: Model<S, I, O>, h: seq<Entry<I, O>>, nodes: seq<Node<I, O>>, explored: set<seq<nat>>,
                            order: seq<nat>, list: seq<nat>, q: nat, limit: nat, entry: Node?<I, O>)
    requires WellFormed(h) && |nodes| == |h| + 1 && Live(h, list, Members(order)) && |list| > 1
    requires Progress(m, h, nodes, explored, order, list, q, limit, entry)
    ensures Explored(m, h, explored, order, limit) && (forall e :: e in explored ==> |e| < |h| / 2)
    ensures Cursor(h, list, Members(order), q) && limit == list[q] - 1 < |h| && entry == nodes[list[q]]
  {
  }

  lemma PopBook<S(!new), I, O>(m: Model<S, I, O>, h: seq<Entry<I, O>>, nodes: seq<Node<I, O>>, order: seq<nat>,
                               seen: map<seq<nat>, CacheEntry<S>>, calls: seq<CallsEntry<S, I, O>>, state: S, cache: Cache<S>)
    requires WellFormed(h) && |nodes| == |h| + 1 && Bookkeeping(m, h, nodes, order, seen, calls, state, cache) && |calls| > 0
    ensures |order| == |calls| && Reached(m, h, order)
    ensures var top := |order| - 1;
      && order[top] < |h| / 2
      && calls[top].entry == nodes[CallAt(h, order[top]) + 1] && calls[top].entry.id == order[top]
      && Members(order) - {order[top]} == Members(order[..top])
      && Bookkeeping(m, h, nodes, order[..top], seen, calls[..top], calls[top].state, cache)
  {
    hide Caches, Bucketed;
    var top := |order| - 1;
    ReachedShorter(m, h, order);
    assert order == order[..top] + [order[top]];
    MembersSnoc(order[..top], order[top]);
  }

  lemma TrailTop<I, O>(nodes: seq<Node<I, O>>, places: seq<Place<I, O>>, h: seq<Entry<I, O>>, order: seq<nat>, trail: seq<Level>,
                       list: seq<nat>) returns (level: Level, c: nat)
    requires WellFormed(h) && |nodes| == |places| == |h| + 1 && Trail(nodes, places, h, order, trail, list) && order != []
    ensures |trail| == |order| && level == trail[|order| - 1] && c == order[|order| - 1] < |h| / 2
    ensures Live(h, level.list, Members(order[..|order| - 1]))
    ensures 0 < level.i < level.j < |level.list| && level.list[level.i] == CallAt(h, c) + 1 && level.list[level.i + 1] > 0
  {
    level, c := trail[|order| - 1], order[|order| - 1];
  }

  lemma UnfinishedReturn<I, O>(h: seq<Entry<I, O>>, list: seq<nat>, order: seq<nat>, q: nat)
    requires WellFormed(h) && Cursor(h, list, Members(order), q) && h[list[q] - 1].Return?
    ensures h[list[q] - 1].id < |h| / 2 && h[list[q] - 1].id !in Members(order)
    ensures list[q] - 1 == ReturnAt(h, h[list[q] - 1].id)
  {
    OnlyTwoEntries(h, list[q] - 1);
    assert list[q] in list;
  }

  lemma RecordReady<S(!new), I, O>(m: Model<S, I, O>, h: seq<Entry<I, O>>, nodes: seq<Node<I, O>>, f: Frame<S, I, O>, g: Shadow<S>,
                                   computePartial: bool)
    requires WellFormed(h) && |nodes| == |h| + 1
    requires Bookkeeping(m, h, nodes, g.order, g.seen, f.calls, f.state, f.cache)
    requires Recorded(m, h, g.seen.Keys, g.order, f.longest, computePartial)
    ensures |f.calls| == |g.order|
    ensures forall k :: 0 <= k < |g.order| ==> f.calls[k].entry.id == g.order[k] < |f.longest|
  {
    StackedIds(m, h, nodes, g.order, f.calls);
  }

  lemma PopRecorded<S, I, O>(m: Model<S, I, O>, h: seq<Entry<I, O>>, explored: set<seq<nat>>, order: seq<nat>,
                             longest: Longest, updated: Longest, computePartial: bool)
    requires WellFormed(h) && Recorded(m, h, explored, order, longest, computePartial) && Reached(m, h, order) && order != []
    requires |updated| == |longest|
    requires if !computePartial then updated == longest else forall id :: 0 <= id < |longest| ==>
      updated[id] == if id in order && (longest[id].None? || |order| > |longest[id].value|) then Some(order) else longest[id]
    ensures Recorded(m, h, explored, order[..|order| - 1], updated, computePartial)
  {
    if computePartial {
      LongestPop(longest, updated, explored, order);
    }
  }

  /** At the return of an unfinished operation: records the stack and takes back its top. */
  method Backtrack<S(!new), I(!new), O(!new)>(ghost m: Model<S, I, O>, ghost h: seq<Entry<I, O>>, ghost nodes: seq<Node<I, O>>,
                                              linearized: array<Bitset.Word>, f: Frame<S, I, O>, ghost g: Shadow<S>,
                                              computePartial: bool)
    returns (f': Frame<S, I, O>, ghost g': Shadow<S>)
    requires WellFormed(h) && Lawful(m) && Searching(m, h, nodes, linearized, f, g, computePartial)
    requires |g.list| > 1 && h[g.limit].Return? && |f.calls| > 0
    modifies nodes, linearized
    ensures Searching(m, h, nodes, linearized, f', g', computePartial)
    ensures g'.seen == g.seen && |g'.order| < |g.order|
  {
    hide ListOk, Progress, Bookkeeping, Recorded, Lawful, Reached, Live, WellFormed, Without, Members, Increasing,
      Bitset.Elements, Bitset.Chunks, CallAt, ReturnAt;
    ghost var top, level, c := PopReady(m, h, nodes, f, g);
    RecordReady(m, h, nodes, f, g, computePartial);
    var longest := f.longest;
    if computePartial {
      longest := RecordLongest(f.calls, f.longest, g.order);
    }
    PopRecorded(m, h, g.seen.Keys, g.order, f.longest, longest, computePartial);
    var callsTop := f.calls[|f.calls| - 1];
    PositionFits(|h| / 2, c);
    Bitset.Clear(linearized, callsTop.entry.id);
    PopCall(callsTop.entry, nodes, h, g.order, g.trail, g.list);
    NodeNext(nodes, h, g.order[..top], g.trail[..top], level.list, level.i);
    f' := Frame(callsTop.entry.next, callsTop.state, f.calls[..|f.calls| - 1], f.cache, longest);
    g' := Shadow(g.order[..top], g.seen, g.trail[..top], level.list, level.i + 1, level.list[level.i + 1] - 1);
  }

  // ----- checkSingle -----

  /** Builds the list, the empty bitset and the empty cache. */
  method Prepare<S(!new), I, O>(m: Model<S, I, O>, h: seq<Entry<I, O>>, ghost computePartial: bool)
    returns (headEntry: Node<I, O>, linearized: array<Bitset.Word>, f: Frame<S, I, O>, ghost nodes: seq<Node<I, O>>, ghost g: Shadow<S>)
    requires WellFormed(h)
    ensures fresh(linearized) && fresh(headEntry) && (forall k :: 0 <= k < |nodes| ==> fresh(nodes[k]))
    ensures Searching(m, h, nodes, linearized, f, g, computePartial) && nodes != [] && headEntry == nodes[0]
  {
    hide Explored, Linked, Progress;
    var list, n, all := BuildList(h);
    headEntry, nodes := list, all;
    linearized := Bitset.NewBitset(n);
    g := Shadow([], map[], [], Iota(|h| + 1), 1, StartLimit(Iota(|h| + 1)));
    f := Frame(headEntry.next, m.init, [], map[], seq(n, _ => None));
    HeadNext(nodes, h, [], [], Iota(|h| + 1));
    StartProgress(m, h, nodes);
    assert Members([]) == {};
    assert Bookkeeping(m, h, nodes, g.order, g.seen, f.calls, f.state, f.cache);
    assert Recorded(m, h, g.seen.Keys, g.order, f.longest, computePartial);
    assert g.seen.Keys == {};
  }

  lemma StartProgress<S, I, O>(m: Model<S, I, O>, h: seq<Entry<I, O>>, nodes: seq<Node<I, O>>)
    requires WellFormed(h) && |nodes| == |h| + 1
    ensures var list := Iota(|h| + 1);
      Live(h, list, Members([])) && Progress(m, h, nodes, {}, [], list, 1, StartLimit(list), NodeAt(nodes, list, 1))
  {
    var list := Iota(|h| + 1);
    AllLive(h);
    assert Members([]) == {};
    ExploredInit(m, h);
    if |list| > 1 {
      CursorStart(h, list, []);
      ExpandedFurther(m, h, {}, [], 0, list[1] - 1);
    }
  }

  method BuildList<I, O>(h: seq<Entry<I, O>>) returns (headEntry: Node<I, O>, n: nat, ghost nodes: seq<Node<I, O>>)
    requires WellFormed(h)
    ensures n == |h| / 2
    ensures fresh(headEntry) && (forall k :: 0 <= k < |nodes| ==> fresh(nodes[k]))
    ensures ListOk(nodes, h, [], [], Iota(|h| + 1)) && headEntry == nodes[0]
  {
    hide Linked, Trail, Live, WellFormed, Mirrors;
    var entry, rest := MakeLinkedEntries(h);
    var length := Length(entry, rest);
    n := length / 2;
    var head := new Node<I, O>(Nothing, null, -1);
    headEntry := InsertBefore(head, entry);
    nodes := [headEntry] + rest;
    FreshList(nodes, rest, headEntry, h);
  }

  /** At a call: perform it if the model allows and its configuration is new, otherwise pass it. */
  method AtCall<S(!new), I(!new), O(!new)>(m: Model<S, I, O>, ghost h: seq<Entry<I, O>>, ghost nodes: seq<Node<I, O>>,
                                           headEntry: Node<I, O>, linearized: array<Bitset.Word>, f: Frame<S, I, O>, ghost g: Shadow<S>,
                                           ghost computePartial: bool)
    returns (f': Frame<S, I, O>, ghost g': Shadow<S>)
    requires WellFormed(h) && Lawful(m) && Searching(m, h, nodes, linearized, f, g, computePartial)
    requires |g.list| > 1 && h[g.limit].Call? && headEntry == nodes[0]
    modifies nodes, linearized
    ensures Searching(m, h, nodes, linearized, f', g', computePartial)
    ensures Unexplored(h, g'.seen.Keys) < Unexplored(h, g.seen.Keys)
         || (g'.seen == g.seen && g'.order == g.order && |g'.list| - g'.q < |g.list| - g.q && g'.q < |g'.list|)
  {
    hide ListOk, Progress, Recorded, Lawful, Reached, Live, WellFormed, Members, Increasing, Unexplored, Covered, Caches, Bucketed,
      Bitset.Elements, Bitset.Chunks, Stacked, CallAt, ReturnAt;
    CallFacts(m, h, nodes, f, g);
    var matching := f.entry.matching;
    var (ok, newState) := m.step(f.state, f.entry.value.input, matching.value.output);
    if ok {
      var isNew, larger, more := Visit(m, f.cache, linearized, f.entry.id, newState, h, g.seen, g.order);
      if isNew {
        f', g' := PushNew(m, h, nodes, headEntry, linearized, f, g, computePartial, newState, larger, more);
      } else {
        f', g' := PassCall(m, h, nodes, linearized, f, g, computePartial);
      }
    } else {
      f', g' := PassCall(m, h, nodes, linearized, f, g, computePartial);
    }
  }

  /** What the node under the cursor holds when the cursor stands at a call. */
  lemma CallFacts<S(!new), I, O>(m: Model<S, I, O>, h: seq<Entry<I, O>>, nodes: seq<Node<I, O>>, f: Frame<S, I, O>, g: Shadow<S>)
    requires WellFormed(h) && ListOk(nodes, h, g.order, g.trail, g.list)
    requires Bookkeeping(m, h, nodes, g.order, g.seen, f.calls, f.state, f.cache)
    requires Progress(m, h, nodes, g.seen.Keys, g.order, g.list, g.q, g.limit, f.entry)
    requires |g.list| > 1 && h[g.limit].Call?
    ensures f.entry != null && f.entry.matching != null && f.entry.value.Input? && f.entry.matching.value.Output?
    ensures f.entry.id == h[g.limit].id && f.entry.id / 64 < Bitset.Chunks(|h| / 2)
    ensures Ids(h, g.order + [h[g.limit].id])
    ensures var (ok, t) := m.step(f.state, f.entry.value.input, f.entry.matching.value.output);
      && (ok <==> Reached(m, h, g.order + [h[g.limit].id]))
      && (ok ==> Run(m, h, g.order + [h[g.limit].id]) == Some(t))
  {
    hide Caches, Bucketed, Linked, Trail, Explored, Stacked;
    var c, j := CursorEnabled(h, g.list, Members(g.order), g.q);
    assert MirrorsAt(nodes, h, g.limit) && MirrorsAt(nodes, h, ReturnAt(h, c));
    PositionFits(|h| / 2, c);
    RunSnoc(m, h, g.order, c, f.state);
  }

  lemma EntryKind<S(!new), I, O>(m: Model<S, I, O>, h: seq<Entry<I, O>>, nodes: seq<Node<I, O>>, linearized: array<Bitset.Word>,
                                 f: Frame<S, I, O>, g: Shadow<S>, computePartial: bool)
    requires WellFormed(h) && Searching(m, h, nodes, linearized, f, g, computePartial)
    ensures |nodes| == |h| + 1 && |g.list| >= 1
    ensures nodes[0].next != null <==> |g.list| > 1
    ensures |g.list| > 1 ==> f.entry != null && g.limit < |h| && (f.entry.matching != null <==> h[g.limit].Call?)
    ensures |f.calls| == |g.order|
  {
    hide Caches, Bucketed, Linked, Trail, Explored;
    HeadNext(nodes, h, g.order, g.trail, g.list);
    if |g.list| > 1 {
      ProgressAt(m, h, nodes, g.seen.Keys, g.order, g.list, g.q, g.limit, f.entry);
      assert MirrorsAt(nodes, h, g.limit);
    }
  }

  function Full(n: nat, order: seq<nat>): Longest {
    seq(n, _ => Some(order))
  }

  /** Nothing left in the list: the stack is a linearization. */
  lemma Finished<S(!new), I, O>(m: Model<S, I, O>, h: seq<Entry<I, O>>, nodes: seq<Node<I, O>>, linearized: array<Bitset.Word>,
                                f: Frame<S, I, O>, g: Shadow<S>, computePartial: bool)
    requires WellFormed(h) && Searching(m, h, nodes, linearized, f, g, computePartial) && |g.list| == 1
    ensures Linearizable(m, h)
    ensures |f.longest| == |h| / 2 && AllPartial(m, h, Full(|h| / 2, g.order)) && AllOptimal(m, h, Full(|h| / 2, g.order))
    ensures |f.calls| == |g.order| && forall k :: 0 <= k < |g.order| ==> f.calls[k].entry.id == g.order[k]
  {
    hide Caches, Bucketed, Linked, Trail, Explored, Optimal, PartialLinearization;
    forall id: nat | id < |h| / 2
      ensures id in g.order
    {
      NothingLive(h, g.list, Members(g.order), id);
    }
    forall id: nat | id < |h| / 2
      ensures Optimal(m, h, id, Some(g.order))
    {
      CompleteOptimal(m, h, g.order, id);
    }
    ReachedIsPartial(m, h, g.order);
    CompletePartial(m, h, g.order);
    assert Linearization(m, h, g.order);
    StackedIds(m, h, nodes, g.order, f.calls);
  }

  /** Stuck at a return with an empty stack: there is no linearization, and the answers are optimal. */
  lemma GivenUp<S(!new), I(!new), O(!new)>(m: Model<S, I, O>, h: seq<Entry<I, O>>, nodes: seq<Node<I, O>>,
                                           linearized: array<Bitset.Word>, f: Frame<S, I, O>, g: Shadow<S>, computePartial: bool)
    requires WellFormed(h) && Lawful(m) && Searching(m, h, nodes, linearized, f, g, computePartial)
    requires |g.list| > 1 && h[g.limit].Return? && f.calls == []
    ensures !Linearizable(m, h)
    ensures computePartial ==> AllOptimal(m, h, f.longest)
  {
    hide Caches, Bucketed, Linked, Trail, Explored, Optimal, Lawful, Stacked, WellFormed, Live, Linearizable, Progress,
      LongestLeft, MirrorsAt, CallAt, ReturnAt;
    assert g.order == [] by { EntryKind(m, h, nodes, linearized, f, g, computePartial); }
    ProgressAt(m, h, nodes, g.seen.Keys, g.order, g.list, g.q, g.limit, f.entry);
    UnfinishedReturn(h, g.list, g.order, g.q);
    ExhaustedUnlinearizable(m, h, g.seen.Keys, h[g.limit].id);
    if computePartial {
      forall id | 0 <= id < |f.longest|
        ensures Optimal(m, h, id, f.longest[id])
      {
        ExhaustedOptimal(m, h, g.seen.Keys, h[g.limit].id, f.longest, id);
      }
    }
  }

  lemma LongestPartial<S(!new), I, O>(m: Model<S, I, O>, h: seq<Entry<I, O>>, nodes: seq<Node<I, O>>, linearized: array<Bitset.Word>,
                                      f: Frame<S, I, O>, g: Shadow<S>, computePartial: bool)
    requires WellFormed(h) && Searching(m, h, nodes, linearized, f, g, computePartial)
    ensures AllPartial(m, h, f.longest)
  {
    hide Caches, Bucketed, Linked, Trail, Explored;
    forall id | 0 <= id < |f.longest| && f.longest[id].Some?
      ensures PartialLinearization(m, h, f.longest[id].value) && id in f.longest[id].value
    {
      ReachedIsPartial(m, h, f.longest[id].value);
    }
  }

  /** Every answer given is a partial linearization that contains its operation. */
  ghost predicate AllPartial<S, I, O>(m: Model<S, I, O>, h: seq<Entry<I, O>>, longest: Longest)
    requires WellFormed(h)
  {
    |longest| == |h| / 2 &&
    forall id :: 0 <= id < |longest| && longest[id].Some? ==>
      PartialLinearization(m, h, longest[id].value) && id in longest[id].value
  }

  ghost predicate AllOptimal<S, I, O>(m: Model<S, I, O>, h: seq<Entry<I, O>>, longest: Longest)
    requires WellFormed(h)
  {
    |longest| == |h| / 2 && forall id :: 0 <= id < |longest| ==> Optimal(m, h, id, longest[id])
  }

  /** The checker is exact, and its partial answers are optimal, unless it was killed; `kill(i)` is
      what iteration i reads from the kill flag. */
  method CheckSingle<S(!new), I(!new), O(!new)>(m: Model<S, I, O>, h: seq<Entry<I, O>>, computePartial: bool, kill: nat -> bool)
    returns (ok: bool, longest: Longest)
    requires WellFormed(h) && Lawful(m)
    ensures ok ==> Linearizable(m, h)
    ensures (forall i :: !kill(i)) ==> (ok <==> Linearizable(m, h))
    ensures AllPartial(m, h, longest)
    ensures (forall i :: !kill(i)) && (computePartial || ok) ==> AllOptimal(m, h, longest)
  {
    hide Searching, Linearizable, WellFormed, Lawful, AllOptimal, AllPartial, Unexplored;
    var headEntry, linearized, f, nodes, g := Prepare(m, h, computePartial);
    var iteration := 0;
    EntryKind(m, h, nodes, linearized, f, g, computePartial);
    while headEntry.next != null
      invariant Searching(m, h, nodes, linearized, f, g, computePartial)
      invariant |nodes| == |h| + 1 && |g.list| >= 1 && headEntry == nodes[0] && (headEntry.next != null <==> |g.list| > 1)
      decreases Unexplored(h, g.seen.Keys), |g.order|, |g.list| - g.q
    {
      LongestPartial(m, h, nodes, linearized, f, g, computePartial);
      if kill(iteration) {
        return false, f.longest;
      }
      iteration := iteration + 1;
      EntryKind(m, h, nodes, linearized, f, g, computePartial);
      if f.entry.matching != null {
        f, g := AtCall(m, h, nodes, headEntry, linearized, f, g, computePartial);
      } else {
        if |f.calls| == 0 {
          GivenUp(m, h, nodes, linearized, f, g, computePartial);
          return false, f.longest;
        }
        f, g := Backtrack(m, h, nodes, linearized, f, g, computePartial);
      }
      EntryKind(m, h, nodes, linearized, f, g, computePartial);
    }
    Finished(m, h, nodes, linearized, f, g, computePartial);
    var ids: seq<nat> := [];
    for i := 0 to |f.calls|
      invariant ids == g.order[..i]
    {
      ids := ids + [f.calls[i].entry.id];
    }
    assert ids == g.order;
    ok, longest := true, Full(|f.longest|, ids);
  }

  /** Replaying a partial answer step by step, as computeVisualizationData does, never meets a refusal. */
  lemma {:induction false} ReplayNeverPanics<S, I, O>(m: Model<S, I, O>, h: seq<Entry<I, O>>, partial: seq<nat>, k: nat)
    requires WellFormed(h) && PartialLinearization(m, h, partial) && k < |partial|
    ensures Ids(h, partial[..k]) && partial[k] < |h| / 2 && Run(m, h, partial[..k]).Some?
    ensures m.step(Run(m, h, partial[..k]).value, h[CallAt(h, partial[k])].input, h[ReturnAt(h, partial[k])].output).0
    decreases |partial| - k
  {
    hide WellFormed, Distinct, RespectsRealTime, DownwardClosed;
    var next := partial[..k + 1];
    assert next[..k] == partial[..k] && next[k] == partial[k];
    if k + 1 < |partial| {
      ReplayNeverPanics(m, h, partial, k + 1);
    } else {
      assert next == partial;
    }
  }
}
