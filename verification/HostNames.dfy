/** The strings of host naming: the `Host(...)` pattern match and splitting at the first dot. */
module HostNames {
  import opened Prelude

  predicate StartsWith(s: string, prefix: string) {
    prefix <= s
  }

  // str::split_once: the parts around the first occurrence of the separator.
  function SplitOnce(s: string, sep: char): (r: Option<(string, string)>)
    ensures r.Some? ==> s == r.value.0 + [sep] + r.value.1 && sep !in r.value.0
    ensures r.None? ==> sep !in s
  {
    if s == [] then None
    else if s[0] == sep then Some(([], s[1..]))
    else match SplitOnce(s[1..], sep)
      case None => None
      case Some((a, b)) => Some(([s[0]] + a, b))
  }

  // Where the first separator stands is determined by the string.
  lemma {:induction false} SplitOnceUnique(a: string, b: string, sep: char)
    requires sep !in a
    ensures SplitOnce(a + [sep] + b, sep) == Some((a, b))
  {
    var s := a + [sep] + b;
    if a == [] {
      assert s[1..] == b;
    } else {
      assert s[1..] == a[1..] + [sep] + b;
      SplitOnceUnique(a[1..], b, sep);
      assert [a[0]] + a[1..] == a;
    }
  }

  // `*.base` covers exactly one non-empty label; any other pattern is literal.
  predicate HostMatches(actual: string, pattern: string) {
    if StartsWith(pattern, "*.") then
      (match SplitOnce(actual, '.')
       case None => false
       case Some((first, rest)) => first != "" && rest == pattern[2..])
    else actual == pattern
  }

  // Read as a set: a wildcard accepts precisely the hosts `label.base` for a non-empty
  // label without a dot, so neither the apex nor a deeper name.
  lemma WildcardMeaning(actual: string, base: string)
    ensures HostMatches(actual, "*." + base) <==>
            exists first: string :: first != "" && '.' !in first && actual == first + "." + base
  {
    assert ("*." + base)[2..] == base;
    if HostMatches(actual, "*." + base) {
      var (first, rest) := SplitOnce(actual, '.').value;
      assert first != "" && '.' !in first && actual == first + "." + base;
    }
    forall first: string | first != "" && '.' !in first && actual == first + "." + base
      ensures HostMatches(actual, "*." + base)
    {
      SplitOnceUnique(first, base, '.');
    }
  }

  // ---------- comparing without regard to ASCII case ----------

  function AsciiLower(c: char): char {
    if 'A' <= c <= 'Z' then c - 'A' + 'a' else c
  }

  function AsciiLowers(s: string): (r: string)
    ensures |r| == |s|
  {
    seq(|s|, i requires 0 <= i < |s| => AsciiLower(s[i]))
  }

  // str::trim_end_matches('.')
  function TrimDots(s: string): string {
    if s != "" && s[|s| - 1] == '.' then TrimDots(s[..|s| - 1]) else s
  }

  predicate EqIgnoreCase(a: string, b: string) {
    |a| == |b| && forall i :: 0 <= i < |a| ==> AsciiLower(a[i]) == AsciiLower(b[i])
  }

  predicate HostnameEq(a: string, b: string) {
    EqIgnoreCase(TrimDots(a), TrimDots(b))
  }

  function Dots(n: nat): (r: string)
    ensures |r| == n && forall i :: 0 <= i < n ==> r[i] == '.'
  {
    seq(n, _ => '.')
  }

  lemma {:induction false} TrimDotsSplits(s: string) returns (n: nat)
    ensures s == TrimDots(s) + Dots(n)
    ensures TrimDots(s) != "" ==> TrimDots(s)[|TrimDots(s)| - 1] != '.'
  {
    if s != "" && s[|s| - 1] == '.' {
      var k := TrimDotsSplits(s[..|s| - 1]);
      n := k + 1;
      assert Dots(n) == Dots(k) + ".";
    } else {
      n := 0;
    }
  }

  lemma {:induction false} TrimDotsDrops(s: string, n: nat)
    ensures TrimDots(s + Dots(n)) == TrimDots(s)
  {
    if n == 0 {
      assert s + Dots(0) == s;
    } else {
      assert (s + Dots(n))[..|s| + n - 1] == s + Dots(n - 1);
      TrimDotsDrops(s, n - 1);
    }
  }

  lemma {:induction false} TrimDotsLowers(s: string)
    ensures AsciiLowers(TrimDots(s)) == TrimDots(AsciiLowers(s))
  {
    if s != "" && s[|s| - 1] == '.' {
      assert AsciiLowers(s)[..|s| - 1] == AsciiLowers(s[..|s| - 1]);
      TrimDotsLowers(s[..|s| - 1]);
    }
  }

  lemma EqIgnoreCaseIff(a: string, b: string)
    ensures EqIgnoreCase(a, b) <==> AsciiLowers(a) == AsciiLowers(b)
  {
    if AsciiLowers(a) == AsciiLowers(b) {
      forall i | 0 <= i < |a| ensures AsciiLower(a[i]) == AsciiLower(b[i]) {
        assert AsciiLowers(a)[i] == AsciiLowers(b)[i];
      }
    }
  }

  // Two names are equal exactly when one lowercase name, with some number of dots behind
  // it each time, spells both.
  lemma HostnameEqMeaning(a: string, b: string)
    ensures HostnameEq(a, b) <==>
            exists name, m, n :: AsciiLowers(a) == name + Dots(m) && AsciiLowers(b) == name + Dots(n)
  {
    EqIgnoreCaseIff(TrimDots(a), TrimDots(b));
    TrimDotsLowers(a);
    TrimDotsLowers(b);
    if HostnameEq(a, b) {
      var m := TrimDotsSplits(AsciiLowers(a));
      var n := TrimDotsSplits(AsciiLowers(b));
    }
    forall name, m, n | AsciiLowers(a) == name + Dots(m) && AsciiLowers(b) == name + Dots(n) ensures HostnameEq(a, b) {
      TrimDotsDrops(name, m);
      TrimDotsDrops(name, n);
    }
  }

  lemma HostnameEqIsEquivalence(a: string, b: string, c: string)
    ensures HostnameEq(a, a)
    ensures HostnameEq(a, b) ==> HostnameEq(b, a)
    ensures HostnameEq(a, b) && HostnameEq(b, c) ==> HostnameEq(a, c)
  {
  }

  // The same character, or one ASCII letter in its two cases.
  predicate SameLetter(c: char, d: char) {
    || c == d
    || ('a' <= c <= 'z' && d as int == c as int - 32)
    || ('A' <= c <= 'Z' && d as int == c as int + 32)
  }

  predicate SameLetters(a: string, b: string) {
    |a| == |b| && forall i :: 0 <= i < |a| ==> SameLetter(a[i], b[i])
  }

  lemma LowerMeansSameLetter(c: char, d: char)
    ensures AsciiLower(c) == AsciiLower(d) <==> SameLetter(c, d)
  {
  }

  // The comparison sees nothing but the case of ASCII letters, and does not see that.
  lemma EqIgnoreCaseMeaning(a: string, b: string)
    ensures EqIgnoreCase(a, b) <==> SameLetters(a, b)
  {
    forall i | 0 <= i < |a| && |a| == |b| ensures AsciiLower(a[i]) == AsciiLower(b[i]) <==> SameLetter(a[i], b[i]) {
      LowerMeansSameLetter(a[i], b[i]);
    }
  }

  lemma {:induction false} TrimDotsSameLetters(a: string, b: string)
    requires SameLetters(a, b)
    ensures SameLetters(TrimDots(a), TrimDots(b))
  {
    if a != "" && a[|a| - 1] == '.' {
      assert SameLetter(a[|a| - 1], b[|b| - 1]);
      TrimDotsSameLetters(a[..|a| - 1], b[..|b| - 1]);
    } else if b != "" {
      assert SameLetter(a[|a| - 1], b[|b| - 1]);
    }
  }

  // Changing the case of ASCII letters never changes what a host name is equal to.
  lemma CaseIsIgnored(a: string, b: string, c: string)
    requires SameLetters(a, b)
    ensures HostnameEq(a, b) && (HostnameEq(a, c) <==> HostnameEq(b, c))
  {
    TrimDotsSameLetters(a, b);
    EqIgnoreCaseMeaning(TrimDots(a), TrimDots(b));
    HostnameEqIsEquivalence(a, b, c);
    HostnameEqIsEquivalence(b, a, c);
  }
}
