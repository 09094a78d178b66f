/** Sequences in strictly ascending order: determined by their elements alone. */
module Listing {

  ghost predicate Ascending<T(!new)>(lt: (T, T) -> bool, s: seq<T>) {
    forall i, j :: 0 <= i < j < |s| ==> lt(s[i], s[j])
  }

  ghost predicate Strict<T(!new)>(lt: (T, T) -> bool) {
    && (forall x, y :: lt(x, y) ==> !lt(y, x))
    && (forall x, y, z :: lt(x, y) && lt(y, z) ==> lt(x, z))
  }

  lemma {:induction false} AscendingIsUnique<T(!new)>(lt: (T, T) -> bool, a: seq<T>, b: seq<T>)
    requires forall x, y :: lt(x, y) ==> !lt(y, x)
    requires Ascending(lt, a) && Ascending(lt, b)
    requires forall x :: x in a <==> x in b
    ensures a == b
  {
    assert |b| > 0 ==> b[0] in b;
    if a != [] {
      assert a[0] in b;
      assert b[0] in a;
      assert a[0] == b[0];
      forall x ensures x in a[1..] <==> x in b[1..] {
        assert x in a <==> x == a[0] || x in a[1..];
        assert x in b <==> x == b[0] || x in b[1..];
        assert a[0] !in a[1..] && b[0] !in b[1..];
      }
      AscendingIsUnique(lt, a[1..], b[1..]);
      assert a == [a[0]] + a[1..] && b == [b[0]] + b[1..];
    }
  }

  // Vec::retain: the kept elements, in their order.
  function Retain<T(!new)>(keep: T -> bool, s: seq<T>): (r: seq<T>)
    ensures forall x :: x in r <==> x in s && keep(x)
  {
    if s == [] then []
    else (if keep(s[0]) then [s[0]] else []) + Retain(keep, s[1..])
  }

  lemma {:induction false} RetainAscends<T(!new)>(lt: (T, T) -> bool, keep: T -> bool, s: seq<T>)
    requires Ascending(lt, s)
    ensures Ascending(lt, Retain(keep, s))
  {
    if s != [] {
      RetainAscends(lt, keep, s[1..]);
      forall x | x in Retain(keep, s[1..]) ensures lt(s[0], x) {
        var i :| 0 <= i < |s[1..]| && s[1..][i] == x;
        assert x == s[i + 1];
      }
    }
  }

  // A shorter result is how the callers learn that something went.
  lemma {:induction false} RetainLength<T(!new)>(keep: T -> bool, s: seq<T>)
    ensures |Retain(keep, s)| <= |s|
    ensures |Retain(keep, s)| == |s| <==> forall x :: x in s ==> keep(x)
    ensures |Retain(keep, s)| == |s| ==> Retain(keep, s) == s
  {
    if s != [] {
      RetainLength(keep, s[1..]);
      assert s == [s[0]] + s[1..];
      assert forall x :: x in s <==> x == s[0] || x in s[1..];
    }
  }
}
