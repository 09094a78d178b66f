/** Collecting without repetition: each element once, in the order of first occurrence. */
module FirstOccurrence {
  import opened Listing

  function FirstIndex<T(==)>(src: seq<T>, x: T): (i: nat)
    ensures x in src ==> i < |src| && src[i] == x
    ensures x !in src ==> i == |src|
  {
    if src == [] then 0 else if src[0] == x then 0 else 1 + FirstIndex(src[1..], x)
  }

  lemma {:induction false} FirstIndexAppend<T>(src: seq<T>, v: T, x: T)
    ensures FirstIndex(src + [v], x) ==
            if x in src then FirstIndex(src, x) else if x == v then |src| else |src| + 1
  {
    if src != [] {
      assert (src + [v])[1..] == src[1..] + [v];
      FirstIndexAppend(src[1..], v, x);
    }
  }

  ghost function ByFirst<T>(src: seq<T>): (T, T) -> bool {
    (x: T, y: T) => FirstIndex(src, x) < FirstIndex(src, y)
  }

  // The elements of `src`, each once, in the order in which they first occur.
  ghost predicate ListsOnce<T(!new)>(list: seq<T>, src: seq<T>) {
    (forall x :: x in list <==> x in src) && Ascending(ByFirst(src), list)
  }

  lemma ListsOnceIsUnique<T(!new)>(a: seq<T>, b: seq<T>, src: seq<T>)
    requires ListsOnce(a, src) && ListsOnce(b, src)
    ensures a == b
  {
    AscendingIsUnique(ByFirst(src), a, b);
  }

  lemma ListsOnceIsDistinct<T(!new)>(list: seq<T>, src: seq<T>)
    requires ListsOnce(list, src)
    ensures forall i, j :: 0 <= i < j < |list| ==> list[i] != list[j]
  {
    forall i, j | 0 <= i < j < |list| ensures list[i] != list[j] {
      assert ByFirst(src)(list[i], list[j]);
    }
  }

  // A sequence without repetition lists itself.
  lemma DistinctListsItself<T(!new)>(s: seq<T>)
    requires forall i, j :: 0 <= i < j < |s| ==> s[i] != s[j]
    ensures ListsOnce(s, s)
  {
    forall i, j | 0 <= i < j < |s| ensures ByFirst(s)(s[i], s[j]) {
      assert s[i] in s && s[j] in s;
    }
  }

  function PushUnique<T(==)>(list: seq<T>, v: T): seq<T> {
    if v in list then list else list + [v]
  }

  lemma PushUniqueLists<T(!new)>(list: seq<T>, src: seq<T>, v: T)
    requires ListsOnce(list, src)
    ensures ListsOnce(PushUnique(list, v), src + [v])
  {
    var list', src' := PushUnique(list, v), src + [v];
    forall i, j | 0 <= i < j < |list'| ensures ByFirst(src')(list'[i], list'[j]) {
      FirstIndexAppend(src, v, list'[i]);
      FirstIndexAppend(src, v, list'[j]);
      assert list'[i] in list;
      assert j < |list| ==> ByFirst(src)(list[i], list[j]);
    }
  }

  // The listing, computed.
  function Once<T(==)>(src: seq<T>): seq<T> {
    if src == [] then [] else PushUnique(Once(src[..|src| - 1]), src[|src| - 1])
  }

  lemma {:induction false} OnceLists<T(!new)>(src: seq<T>)
    ensures ListsOnce(Once(src), src)
  {
    if src != [] {
      var n := |src| - 1;
      OnceLists(src[..n]);
      PushUniqueLists(Once(src[..n]), src[..n], src[n]);
      assert src == src[..n] + [src[n]];
    }
  }

  lemma OncePush<T>(src: seq<T>, v: T)
    ensures Once(src + [v]) == PushUnique(Once(src), v)
  {
    assert (src + [v])[..|src|] == src;
  }

  lemma OnceOfDistinct<T(!new)>(s: seq<T>)
    requires forall i, j :: 0 <= i < j < |s| ==> s[i] != s[j]
    ensures Once(s) == s
  {
    OnceLists(s);
    DistinctListsItself(s);
    ListsOnceIsUnique(Once(s), s, s);
  }
}
