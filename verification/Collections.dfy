/** Sets, sequences and options: what more than one part of the model uses. */
module Collections {

  datatype Option<+T> = None | Some(value: T)

  function Max(a: int, b: int): int {
    if a < b then b else a
  }

  ghost function Members(order: seq<nat>): set<nat> {
    set x | x in order
  }

  ghost predicate Distinct(order: seq<nat>) {
    forall i, j :: 0 <= i < j < |order| ==> order[i] != order[j]
  }

  lemma {:induction false} MembersCardinality(order: seq<nat>)
    requires Distinct(order)
    ensures |Members(order)| == |order|
  {
    if order != [] {
      var shorter, last := order[..|order| - 1], order[|order| - 1];
      MembersCardinality(shorter);
      assert Members(order) == Members(shorter) + {last};
      assert last !in Members(shorter);
    } else {
      assert Members(order) == {};
    }
  }

  ghost function Below(n: nat): (ids: set<nat>)
    ensures |ids| == n
    ensures forall i: nat :: i in ids <==> i < n
  {
    if n == 0 then {} else Below(n - 1) + {n - 1}
  }

  lemma SubsetCardinality<T>(a: set<T>, b: set<T>)
    requires a <= b
    ensures |a| <= |b|
    ensures |a| == |b| ==> a == b
  {
    assert b == a + (b - a);
  }

  /** The numbers below n, each once. */
  ghost predicate Permutation(perm: seq<nat>, n: nat) {
    |perm| == n && Distinct(perm) && forall k :: 0 <= k < n ==> perm[k] < n
  }

  lemma PermutationCovers(perm: seq<nat>, n: nat, x: nat) returns (k: nat)
    requires Permutation(perm, n) && x < n
    ensures k < n && perm[k] == x
  {
    MembersCardinality(perm);
    SubsetCardinality(Members(perm), Below(n));
    assert x in Below(n);
    assert x in perm;
    k :| 0 <= k < |perm| && perm[k] == x;
  }

  /** What stands at position k once x has been inserted at position `at`. */
  lemma Inserted<T>(s: seq<T>, x: T, at: nat, k: nat)
    requires at <= |s| && k <= |s|
    ensures (s[..at] + [x] + s[at..])[k] == if k < at then s[k] else if k == at then x else s[k - 1]
  {
  }
}
