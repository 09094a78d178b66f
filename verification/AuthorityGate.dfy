/**
 The authority gate: what a request says its host is (TLS SNI, URI authority, Host header),
 which disagreements a policy refuses, what the router sees and what goes upstream.
 */
module AuthorityGate {
  import opened Prelude
  import opened HostNames
  import opened Text

  datatype SniHostPolicy = LooseBySni | LooseByHeader | Strict | StrictRewriteHeader

  // A header value that is not printable text cannot be read as a string.
  datatype HeaderValue = Printable(text: string) | Binary

  // The parts of a request head that carry an authority. `host` is the part of the
  // authority that names the host, without user information and port.
  datatype Authority = Authority(text: string, host: string)
  datatype Uri = Uri(scheme: Option<string>, authority: Option<Authority>, pathAndQuery: Option<string>)
  datatype Head = Head(uri: Uri, host: Option<HeaderValue>)

  // ---------- what the request names ----------

  function UntilColon(s: string): string {
    match SplitOnce(s, ':')
    case Some((before, _)) => before
    case None => s
  }

  function UriAuthority(h: Head): Option<string> {
    match h.uri.authority
    case Some(a) => Some(a.host)
    case None => None
  }

  function HostHeader(h: Head): Option<string> {
    match h.host
    case Some(Printable(text)) => Some(Trim(UntilColon(text)))
    case _ => None
  }

  function HttpAuthority(h: Head): Option<string> {
    if UriAuthority(h).Some? then UriAuthority(h) else HostHeader(h)
  }

  predicate AuthorityConflict(h: Head) {
    UriAuthority(h).Some? && HostHeader(h).Some? && !HostnameEq(UriAuthority(h).value, HostHeader(h).value)
  }

  // An empty SNI counts as none.
  function Sni(tls: Option<string>): Option<string> {
    if tls.Some? && tls.value != "" then tls else None
  }

  function OrElse(o: Option<string>, p: Option<string>): Option<string> {
    if o.Some? then o else p
  }

  function OrEmpty(o: Option<string>): string {
    if o.Some? then o.value else ""
  }

  function RoutingHost(policy: SniHostPolicy, tls: Option<string>, h: Head): string {
    match policy
    case LooseBySni => OrEmpty(OrElse(Sni(tls), HttpAuthority(h)))
    case StrictRewriteHeader => OrEmpty(OrElse(Sni(tls), HttpAuthority(h)))
    case LooseByHeader => OrEmpty(HttpAuthority(h))
    case Strict => OrEmpty(HttpAuthority(h))
  }

  // What a head gives, read off its parts: the host of its URI authority, or its Host header
  // up to the first colon, without blanks around it.
  ghost predicate HeadGives(h: Head, name: string, byUri: bool) {
    if byUri then h.uri.authority.Some? && h.uri.authority.value.host == name
    else h.host.Some? && h.host.value.Printable? && HeaderNames(h.host.value.text, name)
  }

  ghost predicate HeaderNames(text: string, name: string) {
    exists l, r, rest :: HeaderParts(text, l, name, r, rest)
  }

  // Blanks, the name, blanks, and perhaps a colon with anything behind it.
  predicate HeaderParts(text: string, l: string, name: string, r: string, rest: string) {
    && Blank(l) && Blank(r) && Tight(name) && ':' !in l + name + r
    && (text == l + name + r || text == l + name + r + ":" + rest)
  }

  lemma UntilColonIs(text: string)
    ensures ':' !in UntilColon(text)
    ensures text == UntilColon(text) || exists rest: string :: text == UntilColon(text) + ":" + rest
  {
    var cut := SplitOnce(text, ':');
    if cut.Some? {
      assert text == UntilColon(text) + ":" + cut.value.1;
    }
  }

  lemma HeaderNamesIff(text: string, name: string)
    ensures HeaderNames(text, name) <==> name == Trim(UntilColon(text))
  {
    var before := UntilColon(text);
    UntilColonIs(text);
    if name == Trim(before) {
      var l, r := TrimSplits(before);
      assert before == l + name + r;
      var rest: string := "";
      if text != before {
        rest :| text == before + ":" + rest;
      }
      assert HeaderParts(text, l, name, r, rest);
    }
    forall l, r, rest | HeaderParts(text, l, name, r, rest) ensures name == Trim(before) {
      HeaderCut(text, l + name + r, rest);
      TrimIs(l, name, r);
    }
  }

  lemma HeaderCut(text: string, before: string, rest: string)
    requires ':' !in before && (text == before || text == before + ":" + rest)
    ensures UntilColon(text) == before
  {
    if text != before {
      SplitOnceUnique(before, rest, ':');
    }
  }

  lemma HeadGivesIff(h: Head)
    ensures forall name :: HeadGives(h, name, true) <==> UriAuthority(h) == Some(name)
    ensures forall name :: HeadGives(h, name, false) <==> HostHeader(h) == Some(name)
  {
    forall name ensures HeadGives(h, name, false) <==> HostHeader(h) == Some(name) {
      if h.host.Some? && h.host.value.Printable? {
        HeaderNamesIff(h.host.value.text, name);
      }
    }
  }

  // The name the router goes by: the SNI first under the two policies that trust it, else what
  // the head gives, its URI first, else nothing.
  ghost predicate Routes(policy: SniHostPolicy, tls: Option<string>, h: Head, name: string) {
    if (policy == LooseBySni || policy == StrictRewriteHeader) && tls.Some? && tls.value != "" then name == tls.value
    else if h.uri.authority.Some? then HeadGives(h, name, true)
    else if h.host.Some? && h.host.value.Printable? then HeadGives(h, name, false)
    else name == ""
  }

  // There is no SNI, or the policy does not route by it.
  predicate Disregards(policy: SniHostPolicy, tls: Option<string>) {
    policy == LooseByHeader || policy == Strict || tls == None || tls == Some("")
  }

  lemma RoutingHostRoutes(policy: SniHostPolicy, tls: Option<string>, h: Head)
    ensures Routes(policy, tls, h, RoutingHost(policy, tls, h))
  {
    HeadGivesIff(h);
  }

  // That name is determined; it depends on the SNI only where the policy trusts it, and
  // without an SNI all four policies agree.
  lemma RoutesOnce(p: SniHostPolicy, q: SniHostPolicy, tls: Option<string>, tls': Option<string>, h: Head,
                   a: string, b: string)
    requires Routes(p, tls, h, a) && Routes(q, tls', h, b)
    requires (p == q && tls == tls') || (Disregards(p, tls) && Disregards(q, tls'))
    ensures a == b
  {
    HeadGivesIff(h);
  }

  // The status to refuse with, if the policy refuses.
  function Reject(policy: SniHostPolicy, sni: Option<string>, authority: Option<string>, conflict: bool): Option<nat> {
    match policy
    case Strict =>
      if conflict then Some(400)
      else if sni.Some? && authority.Some? && !HostnameEq(sni.value, authority.value) then Some(421)
      else None
    case StrictRewriteHeader => if conflict then Some(400) else None
    case LooseBySni => None
    case LooseByHeader => None
  }

  function Gate(policy: SniHostPolicy, tls: Option<string>, h: Head): Option<nat> {
    Reject(policy, Sni(tls), HttpAuthority(h), AuthorityConflict(h))
  }

  // ---------- what the gate guarantees ----------

  function Present(tls: Option<string>, h: Head): seq<string> {
    (match Sni(tls) case Some(s) => [s] case None => []) +
    (match UriAuthority(h) case Some(s) => [s] case None => []) +
    (match HostHeader(h) case Some(s) => [s] case None => [])
  }

  // Under the strict policy a request passes exactly when all names it gives, however many
  // of the three, are one name.
  lemma StrictAcceptsIff(tls: Option<string>, h: Head)
    ensures Gate(Strict, tls, h).None? <==>
            forall a, b :: a in Present(tls, h) && b in Present(tls, h) ==> HostnameEq(a, b)
  {
    assert forall x :: x in Present(tls, h) <==>
                       Sni(tls) == Some(x) || UriAuthority(h) == Some(x) || HostHeader(h) == Some(x);
    forall a, b, c ensures HostnameEq(a, b) && HostnameEq(b, c) ==> HostnameEq(a, c) {
    }
  }

  // The two statuses tell the two disagreements apart, the malformed one first.
  lemma StrictStatuses(tls: Option<string>, h: Head)
    ensures Gate(Strict, tls, h) == Some(400) <==> AuthorityConflict(h)
    ensures Gate(Strict, tls, h) == Some(421) <==>
            !AuthorityConflict(h) && exists a, b :: a in Present(tls, h) && b in Present(tls, h) && !HostnameEq(a, b)
    ensures Gate(Strict, tls, h).Some? ==> Gate(Strict, tls, h).value == 400 || Gate(Strict, tls, h).value == 421
  {
  }

  // The rewriting policy refuses the malformed disagreement alone, the loose ones nothing.
  lemma OtherPolicies(tls: Option<string>, h: Head)
    ensures Gate(StrictRewriteHeader, tls, h) == if AuthorityConflict(h) then Some(400) else None
    ensures Gate(LooseBySni, tls, h) == None && Gate(LooseByHeader, tls, h) == None
    ensures AuthorityConflict(h) <==>
            exists a, b :: HeadGives(h, a, true) && HeadGives(h, b, false) && !HostnameEq(a, b)
  {
    HeadGivesIff(h);
  }

  // Whatever a strict request is routed by, its SNI is that name too.
  lemma StrictRoutesBySni(tls: Option<string>, h: Head)
    requires Gate(Strict, tls, h).None? && Sni(tls).Some? && HttpAuthority(h).Some?
    ensures HostnameEq(RoutingHost(Strict, tls, h), Sni(tls).value)
  {
  }

  // ---------- the session ----------

  // The request's view, with the routing host computed once.
  class CelHttpSession {
    const head: Head
    const tls: Option<string>
    const policy: SniHostPolicy
    var memo: Option<string>

    ghost predicate Valid() reads this {
      memo.Some? ==> memo.value == RoutingHost(policy, tls, head)
    }

    constructor (head: Head, tls: Option<string>, policy: SniHostPolicy)
      ensures Valid() && this.head == head && this.tls == tls && this.policy == policy
    {
      this.head, this.tls, this.policy, memo := head, tls, policy, None;
    }

    method Host() returns (host: string)
      requires Valid()
      modifies this`memo
      ensures Valid() && Routes(policy, tls, head, host)
    {
      RoutingHostRoutes(policy, tls, head);
      if memo.None? {
        memo := Some(RoutingHost(policy, tls, head));
      }
      host := memo.value;
    }
  }

  // ---------- the upstream request ----------

  // What the HTTP library decides: which strings are header values, schemes, paths and
  // authorities, and which parts make a URI, with the authority it then has.
  datatype Http = Http(
    isValue: string -> bool, isScheme: string -> bool, isPath: string -> bool, isAuthority: string -> bool,
    build: (string, string, string) -> Option<Authority>)

  // Valid parts make a URI whose authority is kept as written; an authority is printable.
  ghost predicate Lawful(http: Http) {
    && http.isScheme("https") && http.isPath("/")
    && (forall s :: http.isAuthority(s) ==> http.isValue(s))
    && (forall scheme, s, path :: http.isScheme(scheme) && http.isAuthority(s) && http.isPath(path) ==>
          http.build(scheme, s, path).Some? && http.build(scheme, s, path).value.text == s)
  }

  // A URI holds only parts the library made.
  predicate WellFormed(http: Http, h: Head) {
    && (h.uri.scheme.Some? ==> http.isScheme(h.uri.scheme.value))
    && (h.uri.pathAndQuery.Some? ==> http.isPath(h.uri.pathAndQuery.value))
  }

  // The URI with its authority replaced, where the library accepts that.
  function Rebuilt(http: Http, u: Uri, authority: string): Option<Uri> {
    var scheme := if u.scheme.Some? then u.scheme.value else "https";
    var path := if u.pathAndQuery.Some? then u.pathAndQuery.value else "/";
    match http.build(scheme, authority, path)
    case Some(a) => Some(Uri(Some(scheme), Some(a), Some(path)))
    case None => None
  }

  // Both authorities of the request are this name, letter by letter.
  predicate Names(h: Head, name: string) {
    && h.host == Some(Printable(name))
    && h.uri.authority.Some? && h.uri.authority.value.text == name
  }

  // The library takes the name in both places, or it stands there already.
  predicate TakesName(http: Http, h: Head, name: string) {
    var u := Rebuilt(http, h.uri, name);
    && (http.isValue(name) || h.host == Some(Printable(name)))
    && (if u.Some? then u.value else h.uri).authority.Some?
    && (if u.Some? then u.value else h.uri).authority.value.text == name
  }

  lemma ValidNameIsTaken(http: Http, h: Head, name: string)
    requires Lawful(http) && WellFormed(http, h) && http.isAuthority(name)
    ensures TakesName(http, h, name)
  {
  }

  // A middleware's hook edits the request, or fails.
  type Hook = Head -> Result<Head>

  // The request after the hooks up to the first that fails, and whether none did.
  function Hooked(head: Head, hooks: seq<Hook>): (Head, bool)
    decreases |hooks|
  {
    if hooks == [] then (head, true)
    else match hooks[0](head)
      case Ok(next) => Hooked(next, hooks[1..])
      case Err(_) => (head, false)
  }

  ghost predicate KeepForm(http: Http, hooks: seq<Hook>) {
    forall i, h :: 0 <= i < |hooks| && WellFormed(http, h) && hooks[i](h).Ok? ==> WellFormed(http, hooks[i](h).value)
  }

  lemma {:induction false} HookedIsWellFormed(http: Http, head: Head, hooks: seq<Hook>)
    requires WellFormed(http, head) && KeepForm(http, hooks)
    ensures WellFormed(http, Hooked(head, hooks).0)
    decreases |hooks|
  {
    if hooks != [] && hooks[0](head).Ok? {
      assert forall i :: 0 <= i < |hooks| - 1 ==> hooks[1..][i] == hooks[i + 1];
      HookedIsWellFormed(http, hooks[0](head).value, hooks[1..]);
    }
  }

  class UpstreamRequest {
    var head: Head

    constructor (head: Head)
      ensures this.head == head
    {
      this.head := head;
    }

    method ForceAuthority(http: Http, authority: string)
      modifies this
      ensures head.host == if http.isValue(authority) then Some(Printable(authority)) else old(head.host)
      ensures var u := Rebuilt(http, old(head.uri), authority); head.uri == if u.Some? then u.value else old(head.uri)
      ensures Names(head, authority) <==> TakesName(http, old(head), authority)
    {
      if http.isValue(authority) {
        head := head.(host := Some(Printable(authority)));
      }
      var scheme := if head.uri.scheme.Some? then head.uri.scheme.value else "https";
      var path := if head.uri.pathAndQuery.Some? then head.uri.pathAndQuery.value else "/";
      var built := http.build(scheme, authority, path);
      if built.Some? {
        head := head.(uri := Uri(Some(scheme), built, Some(path)));
      }
    }

    // The hooks in order, then the rewrite. Under `StrictRewriteHeader` both authorities the
    // request leaves with are the SNI exactly when the library takes it in the URI the hooks
    // left; for an SNI that is a valid authority it does, whatever the hooks made of the
    // request. The SNI is also the name the request was routed by.
    method UpstreamRequestFilter(http: Http, session: CelHttpSession, route: Option<seq<Hook>>) returns (r: Result<()>)
      modifies this
      ensures route.None? ==> r.Ok? && head == old(head)
      ensures route.Some? ==> r.Ok? == Hooked(old(head), route.value).1
      ensures r.Ok? && route.Some? && session.policy == StrictRewriteHeader && Sni(session.tls).Some? ==>
                var sni := Sni(session.tls).value;
                && (Names(head, sni) <==> TakesName(http, Hooked(old(head), route.value).0, sni))
                && RoutingHost(session.policy, session.tls, session.head) == sni
      ensures r.Ok? && route.Some? && session.policy == StrictRewriteHeader && Sni(session.tls).Some?
              && Lawful(http) && WellFormed(http, old(head)) && KeepForm(http, route.value)
              && http.isAuthority(Sni(session.tls).value) ==>
                Names(head, Sni(session.tls).value)
      ensures route.Some? && (r.Err? || session.policy != StrictRewriteHeader || Sni(session.tls).None?) ==>
                head == Hooked(old(head), route.value).0
    {
      if route.None? {
        return Ok(());
      }
      var hooks := route.value;
      for i := 0 to |hooks|
        invariant Hooked(old(head), hooks) == Hooked(head, hooks[i..])
      {
        var next := hooks[i](head);
        if next.Err? {
          return Err(next.error);
        }
        assert hooks[i..][1..] == hooks[i + 1..];
        head := next.value;
      }
      if session.policy == StrictRewriteHeader {
        var sni := Sni(session.tls);
        if sni.Some? {
          if Lawful(http) && WellFormed(http, old(head)) && KeepForm(http, hooks) && http.isAuthority(sni.value) {
            HookedIsWellFormed(http, old(head), hooks);
            ValidNameIsTaken(http, head, sni.value);
          }
          ForceAuthority(http, sni.value);
        }
      }
      r := Ok(());
    }
  }

  // ---------- a library that refuses ----------

  predicate HostChar(c: char) {
    'a' <= c <= 'z' || '0' <= c <= '9' || c == '.' || c == '-'
  }

  predicate IsHostName(s: string) {
    s != "" && forall i :: 0 <= i < |s| ==> HostChar(s[i])
  }

  predicate AllPrintable(s: string) {
    forall i :: 0 <= i < |s| ==> ' ' <= s[i] <= '~'
  }

  predicate WebScheme(s: string) {
    s == "http" || s == "https"
  }

  predicate Rooted(s: string) {
    s != "" && s[0] == '/' && AllPrintable(s)
  }

  function BuildStrictly(scheme: string, authority: string, path: string): Option<Authority> {
    if WebScheme(scheme) && IsHostName(authority) && Rooted(path) then Some(Authority(authority, authority)) else None
  }

  // Takes two schemes, rooted paths and lower-case host names, and nothing else.
  const STRICT_HTTP := Http(AllPrintable, WebScheme, Rooted, IsHostName, BuildStrictly)

  // Such a library, which builds no URI without a scheme, meets what the rewrite needs: it is
  // lawful, and every well-formed request takes every one of its host names.
  lemma StrictHttpTakesNames(h: Head, name: string)
    ensures Lawful(STRICT_HTTP)
    ensures forall authority, path :: STRICT_HTTP.build("", authority, path).None?
    ensures WellFormed(STRICT_HTTP, h) && IsHostName(name) ==> TakesName(STRICT_HTTP, h, name)
    ensures IsHostName("a.example")
  {
    forall s | IsHostName(s) ensures AllPrintable(s) {
    }
    if WellFormed(STRICT_HTTP, h) && IsHostName(name) {
      ValidNameIsTaken(STRICT_HTTP, h, name);
    }
  }

  // Validity is needed: an SNI that is a header value but no authority leaves the URI with
  // the name the client or a middleware gave.
  lemma HalfRewritten()
    ensures var h := Head(Uri(Some("https"), Some(Authority("other.example", "other.example")), Some("/")), None);
            WellFormed(STRICT_HTTP, h) && AllPrintable("a b") && !TakesName(STRICT_HTTP, h, "a b")
  {
    assert !HostChar("a b"[1]);
  }
}
