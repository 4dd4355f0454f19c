/** Byte-wise string order, as Go's < on strings, and sorting by it. */
module Strings {

  predicate Less(a: string, b: string) {
    b != [] && (a == [] || a[0] < b[0] || (a[0] == b[0] && Less(a[1..], b[1..])))
  }

  /** The first k characters agree, and b goes on with a larger one or a has ended. */
  predicate DiffersAt(a: string, b: string, k: nat) {
    k <= |a| && k < |b| && a[..k] == b[..k] && (k == |a| || a[k] < b[k])
  }

  lemma DiffersHead(a: string, b: string, k: nat)
    requires DiffersAt(a, b, k)
    ensures b != [] && (k > 0 ==> a != [] && a[0] == b[0])
  {
    if k > 0 {
      assert a[0] == a[..k][0] && b[0] == b[..k][0];
    }
  }

  /** The order, by the first position where two strings differ. */
  lemma {:induction false} LessMeaning(a: string, b: string)
    ensures Less(a, b) <==> exists k: nat :: DiffersAt(a, b, k)
  {
    if a != [] && b != [] && a[0] == b[0] {
      LessMeaning(a[1..], b[1..]);
      if k: nat :| DiffersAt(a[1..], b[1..], k) {
        assert a[..k + 1] == [a[0]] + a[1..][..k] && b[..k + 1] == [b[0]] + b[1..][..k];
        assert DiffersAt(a, b, k + 1);
      }
      if k: nat :| DiffersAt(a, b, k) {
        assert k > 0;
        assert a[1..][..k - 1] == a[..k][1..] && b[1..][..k - 1] == b[..k][1..];
        assert DiffersAt(a[1..], b[1..], k - 1);
      }
    } else {
      if k: nat :| DiffersAt(a, b, k) {
        DiffersHead(a, b, k);
      }
      if Less(a, b) {
        assert DiffersAt(a, b, 0);
      }
    }
  }

  lemma {:induction false} LessTransitive(a: string, b: string, c: string)
    requires Less(a, b) && Less(b, c)
    ensures Less(a, c)
  {
    if a != [] && a[0] == b[0] == c[0] {
      LessTransitive(a[1..], b[1..], c[1..]);
    }
  }

  lemma {:induction false} LessTotal(a: string, b: string)
    ensures Less(a, b) || a == b || Less(b, a)
    ensures !(Less(a, b) && Less(b, a)) && !Less(a, a)
  {
    if a != [] && b != [] {
      LessTotal(a[1..], b[1..]);
      assert a == [a[0]] + a[1..] && b == [b[0]] + b[1..];
    }
    if a != [] {
      LessTotal(a[1..], a[1..]);
    }
  }

  lemma NotLessTransitive(a: string, b: string, c: string)
    requires !Less(b, a) && !Less(c, b)
    ensures !Less(c, a)
  {
    LessTotal(a, b);
    LessTotal(b, c);
    LessTotal(a, c);
    if a != b && b != c {
      LessTransitive(a, b, c);
    }
  }

  ghost predicate StrictlySorted(keys: seq<string>) {
    forall i, j :: 0 <= i < j < |keys| ==> Less(keys[i], keys[j])
  }

  /** sort.Strings on distinct keys. */
  method SortKeys(keys: set<string>) returns (sorted: seq<string>)
    ensures StrictlySorted(sorted)
    ensures forall k :: k in sorted <==> k in keys
  {
    sorted := [];
    var rest := keys;
    while rest != {}
      invariant rest <= keys && StrictlySorted(sorted)
      invariant forall k :: k in sorted <==> k in keys && k !in rest
      decreases |rest|
    {
      var k :| k in rest;
      rest := rest - {k};
      sorted := InsertKey(sorted, k);
    }
  }

  method InsertKey(keys: seq<string>, k: string) returns (larger: seq<string>)
    requires StrictlySorted(keys) && k !in keys
    ensures StrictlySorted(larger)
    ensures forall x :: x in larger <==> x in keys || x == k
  {
    var at := 0;
    while at < |keys| && Less(keys[at], k)
      invariant 0 <= at <= |keys|
      invariant forall i :: 0 <= i < at ==> Less(keys[i], k)
    {
      at := at + 1;
    }
    forall i | at <= i < |keys|
      ensures Less(k, keys[i])
    {
      LessTotal(k, keys[at]);
      assert keys[at] in keys;
      if at < i {
        LessTransitive(k, keys[at], keys[i]);
      }
    }
    larger := keys[..at] + [k] + keys[at..];
    assert keys == keys[..at] + keys[at..];
  }

  lemma ConcatAssociative(a: string, b: string, c: string)
    ensures a + (b + c) == (a + b) + c
  {
  }

  lemma ConcatEmpty(a: string)
    ensures a + "" == a == "" + a
  {
  }
}
