/** Stable sorting: each element goes behind those it does not strictly precede. */
module Sorting {
  import opened Listing

  function Insert<T>(lt: (T, T) -> bool, s: seq<T>, x: T): seq<T> {
    if s == [] then [x]
    else if lt(x, s[0]) then [x] + s
    else [s[0]] + Insert(lt, s[1..], x)
  }

  function Sort<T>(lt: (T, T) -> bool, s: seq<T>): seq<T> {
    if s == [] then [] else Insert(lt, Sort(lt, s[..|s| - 1]), s[|s| - 1])
  }

  // Never out of order: nothing precedes, under `lt`, what stands before it.
  ghost predicate Ordered<T(!new)>(lt: (T, T) -> bool, s: seq<T>) {
    forall i, j :: 0 <= i < j < |s| ==> !lt(s[j], s[i])
  }

  lemma {:induction false} InsertElements<T>(lt: (T, T) -> bool, s: seq<T>, x: T)
    ensures multiset(Insert(lt, s, x)) == multiset(s) + multiset{x}
  {
    if s != [] {
      assert s == [s[0]] + s[1..];
      InsertElements(lt, s[1..], x);
    }
  }

  lemma {:induction false} SortElements<T>(lt: (T, T) -> bool, s: seq<T>)
    ensures multiset(Sort(lt, s)) == multiset(s)
  {
    if s != [] {
      var n := |s| - 1;
      assert s == s[..n] + [s[n]];
      SortElements(lt, s[..n]);
      InsertElements(lt, Sort(lt, s[..n]), s[n]);
    }
  }

  lemma SortMembers<T>(lt: (T, T) -> bool, s: seq<T>, x: T)
    ensures x in Sort(lt, s) <==> x in s
  {
    SortElements(lt, s);
    assert x in Sort(lt, s) <==> x in multiset(Sort(lt, s));
  }

  // Where an insertion into an ordered sequence lands: behind everything it does not
  // precede, before everything it does.
  lemma {:induction false} InsertLands<T(!new)>(lt: (T, T) -> bool, s: seq<T>, x: T) returns (k: nat)
    requires Ordered(lt, s)
    requires forall a, b :: lt(x, a) && !lt(b, a) ==> lt(x, b)
    ensures k <= |s| && Insert(lt, s, x) == s[..k] + [x] + s[k..]
    ensures forall i :: 0 <= i < k ==> !lt(x, s[i])
    ensures forall i :: k <= i < |s| ==> lt(x, s[i])
  {
    if s == [] {
      k := 0;
    } else if lt(x, s[0]) {
      k := 0;
      forall i | 0 <= i < |s| ensures lt(x, s[i]) {
        assert i == 0 || !lt(s[i], s[0]);
      }
    } else {
      var j := InsertLands(lt, s[1..], x);
      k := j + 1;
      assert s[..k] == [s[0]] + s[1..][..j];
      forall i | 0 <= i < k ensures !lt(x, s[i]) {
        assert i == 0 || s[i] == s[1..][i - 1];
      }
      forall i | k <= i < |s| ensures lt(x, s[i]) {
        assert s[i] == s[1..][i - 1];
      }
    }
  }

  // An ordered sequence is its own sort.
  lemma {:induction false} SortOrdered<T(!new)>(lt: (T, T) -> bool, s: seq<T>)
    requires Ordered(lt, s)
    ensures Sort(lt, s) == s
  {
    if s != [] {
      var n := |s| - 1;
      SortOrdered(lt, s[..n]);
      InsertBehind(lt, s[..n], s[n]);
      assert s == s[..n] + [s[n]];
    }
  }

  lemma {:induction false} InsertBehind<T>(lt: (T, T) -> bool, s: seq<T>, x: T)
    requires forall i :: 0 <= i < |s| ==> !lt(x, s[i])
    ensures Insert(lt, s, x) == s + [x]
  {
    if s != [] {
      InsertBehind(lt, s[1..], x);
      assert s == [s[0]] + s[1..];
    }
  }

  // Elements that are all comparable come out strictly ascending.
  lemma {:induction false} SortAscends<T(!new)>(lt: (T, T) -> bool, s: seq<T>)
    requires Strict(lt)
    requires forall i, j :: 0 <= i < j < |s| ==> lt(s[i], s[j]) || lt(s[j], s[i])
    ensures Ascending(lt, Sort(lt, s))
  {
    if s != [] {
      var n := |s| - 1;
      var r := Sort(lt, s[..n]);
      SortAscends(lt, s[..n]);
      forall y | y in r ensures lt(s[n], y) || lt(y, s[n]) {
        SortMembers(lt, s[..n], y);
      }
      InsertAscends(lt, r, s[n]);
    }
  }

  lemma {:induction false} InsertAscends<T(!new)>(lt: (T, T) -> bool, s: seq<T>, x: T)
    requires Strict(lt) && Ascending(lt, s)
    requires forall y :: y in s ==> lt(x, y) || lt(y, x)
    ensures Ascending(lt, Insert(lt, s, x))
  {
    if s != [] && !lt(x, s[0]) {
      InsertAscends(lt, s[1..], x);
      var r := Insert(lt, s[1..], x);
      forall y | y in r ensures lt(s[0], y) {
        InsertElements(lt, s[1..], x);
        assert y in multiset(r);
        assert y == x || y in s[1..];
        assert s[0] in s;
      }
    }
  }
}
