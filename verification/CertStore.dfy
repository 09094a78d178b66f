/**
 The certificate store: three tables (a default, exact hosts, wildcard domains) that
 together hold one map from lowercased patterns to certificates.
 */
module CertStore {
  import opened Prelude
  import opened HostNames

  // A parsed certificate: its identity and the names it carries.
  datatype Cert = Cert(serial: nat, names: seq<string>)

  type Table = map<string, Cert>

  // ---------- lowercasing ----------

  // Lowercasing works character by character, may lengthen, and neither makes nor loses a
  // dot or a star.
  ghost predicate Folds(fold: char -> string) {
    && fold('*') == "*" && fold('.') == "."
    && forall c :: fold(c) != "" && (c != '*' ==> '*' !in fold(c)) && (c != '.' ==> '.' !in fold(c))
  }

  function Lower(fold: char -> string, s: string): string {
    if s == "" then "" else fold(s[0]) + Lower(fold, s[1..])
  }

  // Lowercasing goes character by character, as `fold` says.
  lemma {:induction false} LowerIsByCharacter(fold: char -> string, a: string, b: string, c: char)
    ensures Lower(fold, [c]) == fold(c)
    ensures Lower(fold, a + b) == Lower(fold, a) + Lower(fold, b)
  {
    assert Lower(fold, [c][1..]) == "";
    if a == "" {
      assert a + b == b;
    } else {
      assert (a + b)[1..] == a[1..] + b;
      LowerIsByCharacter(fold, a[1..], b, c);
    }
  }

  lemma {:induction false} FoldAlike(fold: char -> string, a: string, b: string)
    requires |a| == |b| && forall i :: 0 <= i < |a| ==> fold(a[i]) == fold(b[i])
    ensures Lower(fold, a) == Lower(fold, b)
  {
    if a != "" {
      FoldAlike(fold, a[1..], b[1..]);
    }
  }

  // Hosts whose characters fold alike get the same certificate from every store.
  lemma FoldedHostsShareCertificate(fold: char -> string, certs: Table, a: string, b: string)
    requires |a| == |b| && forall i :: 0 <= i < |a| ==> fold(a[i]) == fold(b[i])
    ensures Resolve(certs, Lower(fold, a)) == Resolve(certs, Lower(fold, b))
  {
    FoldAlike(fold, a, b);
  }

  function AsciiFold(c: char): string { [AsciiLower(c)] }

  // With ASCII lowercasing a certificate set for one spelling answers every spelling.
  lemma AsciiSpellings(certs: Table, a: string, b: string, cert: Cert)
    requires SameLetters(a, b)
    ensures Folds(AsciiFold)
    ensures Resolve(certs[Lower(AsciiFold, a) := cert], Lower(AsciiFold, b)) == Some(cert)
    ensures SameLetters("EXAMPLE.COM", "example.com")
  {
    forall i | 0 <= i < |a| ensures AsciiFold(a[i]) == AsciiFold(b[i]) {
      LowerMeansSameLetter(a[i], b[i]);
    }
    FoldAlike(AsciiFold, a, b);
  }

  // A host is the default pattern, or a wildcard, exactly when its lowercase form is.
  lemma LowerKeepsShape(fold: char -> string, s: string)
    requires Folds(fold)
    ensures Lower(fold, s) == "" <==> s == ""
    ensures Lower(fold, s) == "*" <==> s == "*"
    ensures StartsWith(Lower(fold, s), "*.") <==> StartsWith(s, "*.")
    ensures StartsWith(s, "*.") ==> Lower(fold, s) == "*." + Lower(fold, s[2..])
  {
    if s != "" {
      LowerFirst(fold, s, '*');
      assert Lower(fold, s) == fold(s[0]) + Lower(fold, s[1..]);
      if |s| > 1 {
        assert s[1..][1..] == s[2..];
        LowerFirst(fold, s[1..], '.');
      }
    }
  }

  lemma LowerFirst(fold: char -> string, s: string, c: char)
    requires Folds(fold) && s != "" && (c == '*' || c == '.')
    ensures Lower(fold, s) != "" && (Lower(fold, s)[0] == c <==> s[0] == c)
  {
    assert fold(s[0])[0] in fold(s[0]);
  }

  // ---------- one map of patterns ----------

  predicate Wildcard(pattern: string) {
    StartsWith(pattern, "*.")
  }

  predicate BadWildcard(host: string) {
    Wildcard(host) && (host == "*." || '*' in host[2..])
  }

  function Get(m: Table, k: string): Option<Cert> {
    if k in m then Some(m[k]) else None
  }

  function Parent(host: string): Option<string> {
    match SplitOnce(host, '.')
    case Some((_, parent)) => Some(parent)
    case None => None
  }

  // The lookup on one map: the host itself, its parent's wildcard, then `*`.
  function Resolve(certs: Table, host: string): Option<Cert> {
    if host in certs then Some(certs[host])
    else if Parent(host).Some? && "*." + Parent(host).value in certs then Some(certs["*." + Parent(host).value])
    else Get(certs, "*")
  }

  ghost predicate Refines(fallback: Option<Cert>, exact: Table, wildcard: Table, certs: Table) {
    && fallback == Get(certs, "*")
    && (forall d :: Get(wildcard, d) == Get(certs, "*." + d))
    && (forall h :: Get(exact, h) == if h == "*" || Wildcard(h) then None else Get(certs, h))
  }

  predicate Named(cert: Cert, host: string) {
    exists n :: n in cert.names && AsciiLowers(n) == AsciiLowers(host)
  }

  // A certificate is for a host when one of its names is the host up to ASCII case.
  lemma NamedMeaning(cert: Cert, host: string)
    ensures Named(cert, host) <==> exists n :: n in cert.names && SameLetters(n, host)
  {
    forall n: string ensures AsciiLowers(n) == AsciiLowers(host) <==> SameLetters(n, host) {
      EqIgnoreCaseIff(n, host);
      EqIgnoreCaseMeaning(n, host);
    }
  }

  // When a set is accepted, in the order of its checks.
  predicate Accepts(host: string, parsed: Result<Cert>, allowMismatch: bool) {
    parsed.Ok? && (host == "*" || ((allowMismatch || Named(parsed.value, host)) && !BadWildcard(host)))
  }

  lemma WildcardKey(d: string)
    ensures Wildcard("*." + d) && ("*." + d)[2..] == d && "*." + d != "*"
  {
  }

  lemma PutDefault(fallback: Option<Cert>, exact: Table, wildcard: Table, certs: Table, c: Cert)
    requires Refines(fallback, exact, wildcard, certs)
    ensures Refines(Some(c), exact, wildcard, certs["*" := c])
    ensures Refines(None, exact, wildcard, certs - {"*"})
  {
    forall d: string ensures "*." + d != "*" {
      WildcardKey(d);
    }
  }

  lemma PutWildcard(fallback: Option<Cert>, exact: Table, wildcard: Table, certs: Table, d: string, c: Cert)
    requires Refines(fallback, exact, wildcard, certs)
    ensures Refines(fallback, exact, wildcard[d := c], certs["*." + d := c])
    ensures Refines(fallback, exact, wildcard - {d}, certs - {"*." + d})
  {
    WildcardKey(d);
    forall e: string ensures "*." + e == "*." + d <==> e == d {
      WildcardKey(e);
    }
    forall e: string ensures Get(wildcard, e) == Get(certs, "*." + e) {
    }
  }

  lemma PutExact(fallback: Option<Cert>, exact: Table, wildcard: Table, certs: Table, h: string, c: Cert)
    requires Refines(fallback, exact, wildcard, certs) && h != "*" && !Wildcard(h)
    ensures Refines(fallback, exact[h := c], wildcard, certs[h := c])
    ensures Refines(fallback, exact - {h}, wildcard, certs - {h})
  {
    forall d: string ensures "*." + d != h && Get(wildcard, d) == Get(certs, "*." + d) {
      WildcardKey(d);
    }
    forall k: string ensures Get(exact, k) == if k == "*" || Wildcard(k) then None else Get(certs, k) {
    }
  }

  // ---------- the store ----------

  class CertStore {
    const fold: char -> string
    var fallback: Option<Cert>
    var exact: Table
    var wildcard: Table
    // All certificates by lowercased pattern.
    ghost var certs: Table

    ghost predicate Valid() reads this {
      Folds(fold) && Refines(fallback, exact, wildcard, certs)
    }

    constructor (lowercase: char -> string)
      requires Folds(lowercase)
      ensures Valid() && certs == map[] && fold == lowercase
    {
      fold, fallback, exact, wildcard, certs := lowercase, None, map[], map[], map[];
    }

    // `parsed` is the PEM material after parsing.
    method Set(host: string, parsed: Result<Cert>, allowMismatch: bool) returns (r: Result<()>)
      requires Valid()
      modifies this
      ensures Valid()
      ensures r.Ok? <==> Accepts(host, parsed, allowMismatch)
      ensures r.Ok? && host != "*" && !allowMismatch ==> exists n :: n in parsed.value.names && SameLetters(n, host)
      ensures r.Ok? ==> certs == old(certs)[Lower(fold, host) := parsed.value]
      ensures r.Err? ==> certs == old(certs) && fallback == old(fallback)
      ensures r.Err? ==> exact == old(exact) && wildcard == old(wildcard)
    {
      if parsed.Err? {
        return Err(parsed.error);
      }
      var entry := parsed.value;
      LowerKeepsShape(fold, host);
      NamedMeaning(entry, host);
      if host == "*" {
        PutDefault(fallback, exact, wildcard, certs, entry);
        fallback := Some(entry);
        certs := certs["*" := entry];
        return Ok(());
      }
      if !allowMismatch && !Named(entry, host) {
        return Err("certificate does not match host");
      }
      if Wildcard(host) {
        var domain := host[2..];
        if domain == "" || '*' in domain {
          return Err("invalid wildcard cert host");
        }
        PutWildcard(fallback, exact, wildcard, certs, Lower(fold, domain), entry);
        wildcard := wildcard[Lower(fold, domain) := entry];
        certs := certs["*." + Lower(fold, domain) := entry];
      } else {
        PutExact(fallback, exact, wildcard, certs, Lower(fold, host), entry);
        exact := exact[Lower(fold, host) := entry];
        certs := certs[Lower(fold, host) := entry];
      }
      r := Ok(());
    }

    method Remove(host: string) returns (removed: bool)
      requires Valid()
      modifies this
      ensures Valid() && certs == old(certs) - {Lower(fold, host)}
      ensures removed <==> Lower(fold, host) in old(certs)
    {
      LowerKeepsShape(fold, host);
      ghost var any := Cert(0, []);
      if host == "*" {
        removed := fallback.Some?;
        PutDefault(fallback, exact, wildcard, certs, any);
        fallback := None;
        certs := certs - {"*"};
      } else if Wildcard(host) {
        var domain := Lower(fold, host[2..]);
        removed := domain in wildcard;
        assert Get(wildcard, domain) == Get(certs, "*." + domain);
        PutWildcard(fallback, exact, wildcard, certs, domain, any);
        wildcard := wildcard - {domain};
        certs := certs - {"*." + domain};
      } else {
        var h := Lower(fold, host);
        removed := h in exact;
        assert Get(exact, h) == Get(certs, h);
        PutExact(fallback, exact, wildcard, certs, h, any);
        exact := exact - {h};
        certs := certs - {h};
      }
    }

    // The three tables in their order answer as the one map does, for every host string,
    // even one that is itself written like a pattern.
    method Lookup(host: string) returns (found: Option<Cert>)
      requires Valid()
      ensures found == Resolve(certs, Lower(fold, host))
    {
      var h := Lower(fold, host);
      assert Get(exact, h) == if h == "*" || Wildcard(h) then None else Get(certs, h);
      StarHasNoParent();
      if h in exact {
        return Some(exact[h]);
      }
      var split := SplitOnce(h, '.');
      if split.Some? {
        var parent := split.value.1;
        assert Get(wildcard, parent) == Get(certs, "*." + parent);
        PatternParent(h);
        if parent in wildcard {
          return Some(wildcard[parent]);
        }
      }
      PatternParent(h);
      found := fallback;
    }
  }

  lemma StarHasNoParent()
    ensures Parent("*").None?
  {
  }

  // A host written like a wildcard is its own parent's wildcard.
  lemma PatternParent(h: string)
    ensures Wildcard(h) ==> Parent(h).Some? && "*." + Parent(h).value == h
  {
    if Wildcard(h) {
      assert h == "*" + ['.'] + h[2..];
      SplitOnceUnique("*", h[2..], '.');
    }
  }

  // ---------- what a lookup means ----------

  // Which hosts a pattern is for.
  predicate Covers(pattern: string, host: string) {
    pattern == "*" || HostMatches(host, pattern)
  }

  // Literal before wildcard before default.
  function Rank(pattern: string): nat {
    if pattern == "*" then 2 else if Wildcard(pattern) then 1 else 0
  }

  // The certificate of the most specific pattern that covers the host, if any does.
  ghost predicate MostSpecific(certs: Table, host: string, r: Option<Cert>) {
    match r
    case None => forall p :: p in certs ==> !Covers(p, host)
    case Some(c) => exists p :: p in certs && certs[p] == c && BestFor(certs, host, p)
  }

  ghost predicate BestFor(certs: Table, host: string, p: string) {
    Covers(p, host) && forall q :: q in certs && Covers(q, host) ==> q == p || Rank(p) < Rank(q)
  }

  // The wildcard step takes the domain's certificate for the hosts its pattern accepts and
  // for one more: the domain with nothing before the dot.
  lemma WildcardStepIff(host: string, domain: string)
    ensures Parent(host) == Some(domain) <==> HostMatches(host, "*." + domain) || host == "." + domain
  {
  }

  lemma CoveringPatterns(host: string, p: string)
    ensures Covers(p, host) <==>
            || p == "*" || (p == host && !Wildcard(p))
            || (Wildcard(p) && Parent(host) == Some(p[2..]) && host != "." + p[2..])
  {
    if Wildcard(p) {
      assert p == "*." + p[2..];
      WildcardStepIff(host, p[2..]);
      if host == "." + p[2..] {
        SplitOnceUnique("", p[2..], '.');
        assert host == "" + ['.'] + p[2..];
      }
    }
  }

  // The host's first label is empty and its bare domain has a wildcard: then that wildcard
  // is used although it does not cover the host, where the default would have been right.
  predicate Strays(certs: Table, host: string) {
    host != "" && host[0] == '.' && host !in certs && "*." + host[1..] in certs
  }

  lemma LookupIsMostSpecific(certs: Table, host: string)
    requires !Strays(certs, host)
    ensures MostSpecific(certs, host, Resolve(certs, host))
  {
    forall p ensures Covers(p, host) <==>
                     || p == "*" || (p == host && !Wildcard(p))
                     || (Wildcard(p) && Parent(host) == Some(p[2..]) && host != "." + p[2..])
    {
      CoveringPatterns(host, p);
    }
    PatternParent(host);
    StarHasNoParent();
    assert forall q: string :: Wildcard(q) ==> q == "*." + q[2..];
    assert forall d: string :: host == "." + d ==> host[0] == '.' && host[1..] == d;
    if host in certs {
      assert BestFor(certs, host, host) by {
        BestIsLeast(certs, host, host);
      }
    } else if Parent(host).Some? && "*." + Parent(host).value in certs {
      var p := "*." + Parent(host).value;
      WildcardKey(Parent(host).value);
      BestIsLeast(certs, host, p);
    } else {
      assert forall q :: q in certs && Covers(q, host) ==> q == "*";
      if "*" in certs {
        BestIsLeast(certs, host, "*");
      }
    }
  }

  // Of the patterns that cover one host there is at most one of each rank.
  lemma CoversOnce(host: string, p: string, q: string)
    requires Covers(p, host) && Covers(q, host) && Rank(p) == Rank(q)
    ensures p == q
  {
  }

  lemma BestIsLeast(certs: Table, host: string, p: string)
    requires Covers(p, host)
    requires forall q :: q in certs && Covers(q, host) ==> Rank(p) <= Rank(q)
    ensures BestFor(certs, host, p)
  {
    forall q | q in certs && Covers(q, host) && Rank(p) == Rank(q) ensures q == p {
      CoversOnce(host, p, q);
    }
  }

  lemma StrayLookup(certs: Table, host: string)
    requires Strays(certs, host)
    ensures Resolve(certs, host) == Some(certs["*." + host[1..]])
    ensures !Covers("*." + host[1..], host)
    ensures MostSpecific(certs, host, Get(certs, "*"))
  {
  }

  // The most specific answer is determined.
  lemma MostSpecificIsUnique(certs: Table, host: string, r: Option<Cert>, q: Option<Cert>)
    requires MostSpecific(certs, host, r) && MostSpecific(certs, host, q)
    ensures r == q
  {
    if r.Some? && q.Some? {
      var a :| a in certs && certs[a] == r.value && BestFor(certs, host, a);
      var b :| b in certs && certs[b] == q.value && BestFor(certs, host, b);
      assert a == b || (Rank(a) < Rank(b) && Rank(b) < Rank(a));
    }
  }

  // The store answers with the certificate of the most specific covering pattern exactly
  // when the host does not stray, or the default holds the same certificate anyway.
  lemma LookupIsMostSpecificIff(certs: Table, host: string)
    ensures MostSpecific(certs, host, Resolve(certs, host)) <==>
            !Strays(certs, host) || Get(certs, "*") == Some(certs["*." + host[1..]])
  {
    if Strays(certs, host) {
      StrayLookup(certs, host);
      if MostSpecific(certs, host, Resolve(certs, host)) {
        MostSpecificIsUnique(certs, host, Resolve(certs, host), Get(certs, "*"));
      }
    } else {
      LookupIsMostSpecific(certs, host);
    }
  }

  // A store that holds one wildcard shows it: the host ".example.com".
  lemma StrayExample(c: Cert)
    ensures var certs := map["*.example.com" := c];
            && Resolve(certs, ".example.com") == Some(c)
            && !HostMatches(".example.com", "*.example.com")
            && !MostSpecific(certs, ".example.com", Some(c))
  {
    var certs := map["*.example.com" := c];
    assert ".example.com"[1..] == "example.com";
    assert "*." + "example.com" == "*.example.com";
    StrayLookup(certs, ".example.com");
    LookupIsMostSpecificIff(certs, ".example.com");
  }
}
