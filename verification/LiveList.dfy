/** What the linked list means: it holds exactly the entries of the operations not yet on the
    stack, and the search's cursor only ever passes calls. */
module LiveList {
  import opened Collections
  import opened Linearizability
  import opened LinkedEntries
  import opened Search

  /** `list` holds the sentinel and the entries of all operations outside `done`. */
  ghost predicate Live<I, O>(h: seq<Entry<I, O>>, list: seq<nat>, done: set<nat>) {
    && Increasing(list, |h| + 1)
    && list != [] && list[0] == 0
    && forall p :: 0 < p <= |h| ==> (p in list <==> h[p - 1].id !in done)
  }

  /** The cursor stands at index q of the list and everything it has passed is a call. */
  ghost predicate Cursor<I, O>(h: seq<Entry<I, O>>, list: seq<nat>, done: set<nat>, q: nat) {
    && Live(h, list, done)
    && 0 < q < |list|
    && forall r :: 0 < r < q ==> h[list[r] - 1].Call?
  }

  lemma OnlyTwoEntries<I, O>(h: seq<Entry<I, O>>, p: nat)
    requires WellFormed(h) && p < |h|
    ensures h[p].id < |h| / 2
    ensures h[p].Call? ==> p == CallAt(h, h[p].id)
    ensures h[p].Return? ==> p == ReturnAt(h, h[p].id)
  {
  }

  lemma IndexOf(list: seq<nat>, p: nat) returns (k: nat)
    requires p in list
    ensures k < |list| && list[k] == p
  {
    k :| 0 <= k < |list| && list[k] == p;
  }

  /** A live return can only lie at or after the cursor. */
  lemma ReturnNotPassed<I, O>(h: seq<Entry<I, O>>, list: seq<nat>, done: set<nat>, q: nat, a: nat) returns (k: nat)
    requires WellFormed(h) && Cursor(h, list, done, q) && a < |h| / 2 && a !in done
    ensures q <= k < |list| && list[k] == ReturnAt(h, a) + 1
  {
    k := IndexOf(list, ReturnAt(h, a) + 1);
  }

  /** The call under the cursor may be performed next, and its return is further down the list. */
  lemma CursorEnabled<I, O>(h: seq<Entry<I, O>>, list: seq<nat>, done: set<nat>, q: nat) returns (c: nat, j: nat)
    requires WellFormed(h) && Cursor(h, list, done, q) && h[list[q] - 1].Call?
    ensures c == h[list[q] - 1].id < |h| / 2 && list[q] == CallAt(h, c) + 1
    ensures Enabled(h, done, c)
    ensures q < j < |list| && list[j] == ReturnAt(h, c) + 1
  {
    c := h[list[q] - 1].id;
    OnlyTwoEntries(h, list[q] - 1);
    assert list[q] in list;
    j := ReturnNotPassed(h, list, done, q, c);
    forall a: nat | a < |h| / 2 && a !in done
      ensures !Precedes(h, a, c)
    {
      var k := ReturnNotPassed(h, list, done, q, a);
    }
  }

  lemma NothingBetween<I, O>(h: seq<Entry<I, O>>, list: seq<nat>, order: seq<nat>, q: nat, limit: nat)
    requires WellFormed(h) && Live(h, list, Members(order)) && q + 1 < |list| && limit >= list[q]
    ensures NoLiveCall(h, order, limit, list[q + 1] - 1)
  {
    forall c: nat | c < |h| / 2 && c !in Members(order) && CallAt(h, c) < list[q + 1] - 1
      ensures CallAt(h, c) < limit
    {
      var k := IndexOf(list, CallAt(h, c) + 1);
      assert k < q + 1;
    }
  }

  /** Passing a call. */
  lemma CursorAdvance<I, O>(h: seq<Entry<I, O>>, list: seq<nat>, order: seq<nat>, q: nat)
    requires WellFormed(h) && Cursor(h, list, Members(order), q) && h[list[q] - 1].Call?
    ensures q + 1 < |list| && Cursor(h, list, Members(order), q + 1)
    ensures NoLiveCall(h, order, list[q], list[q + 1] - 1)
  {
    var _, _ := CursorEnabled(h, list, Members(order), q);
    NothingBetween(h, list, order, q, list[q]);
  }

  lemma CursorStart<I, O>(h: seq<Entry<I, O>>, list: seq<nat>, order: seq<nat>)
    requires WellFormed(h) && Live(h, list, Members(order)) && |list| > 1
    ensures Cursor(h, list, Members(order), 1)
    ensures NoLiveCall(h, order, 0, list[1] - 1)
  {
    NothingBetween(h, list, order, 0, 0);
  }

  /** Back at a call that had been pushed: the cursor moves on to the entry after it. */
  lemma CursorResume<I, O>(h: seq<Entry<I, O>>, list: seq<nat>, order: seq<nat>, c: nat, i: nat, j: nat)
    requires WellFormed(h) && Live(h, list, Members(order)) && Enabled(h, Members(order), c)
    requires 0 < i < j < |list| && list[i] == CallAt(h, c) + 1
    ensures Cursor(h, list, Members(order), i + 1)
    ensures NoLiveCall(h, order, CallAt(h, c) + 1, list[i + 1] - 1)
  {
    forall r | 0 < r < i + 1
      ensures h[list[r] - 1].Call?
    {
      assert list[r] in list;
      OnlyTwoEntries(h, list[r] - 1);
      assert !Precedes(h, h[list[r] - 1].id, c);
    }
    NothingBetween(h, list, order, i, list[i]);
  }

  /** Removing the call and the return of c leaves the entries outside done + {c}. */
  lemma LiftLive<I, O>(h: seq<Entry<I, O>>, list: seq<nat>, done: set<nat>, c: nat, i: nat, j: nat)
    requires WellFormed(h) && Live(h, list, done) && c < |h| / 2
    requires 0 < i < j < |list| && list[i] == CallAt(h, c) + 1 && list[j] == ReturnAt(h, c) + 1
    ensures Live(h, Without(list, i, j), done + {c})
  {
    DropFacts(list, i, |h| + 1);
    DropFacts(Drop(list, i), j - 1, |h| + 1);
    forall p | 0 < p <= |h|
      ensures p in Without(list, i, j) <==> h[p - 1].id !in done + {c}
    {
      OnlyTwoEntries(h, p - 1);
    }
  }

  /** When only the sentinel is left, everything is done. */
  lemma NothingLive<I, O>(h: seq<Entry<I, O>>, list: seq<nat>, done: set<nat>, id: nat)
    requires WellFormed(h) && Live(h, list, done) && |list| == 1 && id < |h| / 2
    ensures id in done
  {
    assert CallAt(h, id) + 1 !in list;
  }

  ghost function Iota(n: nat): (list: seq<nat>)
    ensures |list| == n && forall k :: 0 <= k < n ==> list[k] == k
  {
    seq(n, i => i)
  }

  lemma AllLive<I, O>(h: seq<Entry<I, O>>)
    ensures Live(h, Iota(|h| + 1), {})
  {
    var list := Iota(|h| + 1);
    forall p | 0 < p <= |h|
      ensures p in list
    {
      assert list[p] == p;
    }
  }
}
