/**
 Upstream identity: the set of backends a route is balanced over, keyed by address and
 weight, and the way back from a selected backend to the configured endpoint.
 */
module LoadBalancing {
  import opened Prelude

  datatype Addr = Inet(octets: seq<Byte>, port: nat) | Other(text: string)

  // An endpoint as configured; `rest` is everything else it says (TLS, SNI, tunables).
  datatype Endpoint =
    | Tcp(address: string, weight: nat, rest: string)
    | Unix(path: string, weight: nat, rest: string)
    | VirtualJs(key: string, weight: nat, rest: string)

  // What the environment decides: how addresses are read, and the process-wide hash of a
  // tagged name, a number below 2^64.
  datatype Env = Env(parse: string -> Option<Addr>, hash: (string, string) -> nat)

  const LIMIT := 0x1_0000_0000_0000_0000

  ghost predicate EnvOk(env: Env) {
    forall tag, name :: env.hash(tag, name) < LIMIT
  }

  // ---------- synthetic addresses ----------

  // The last k bytes of n, the most significant first.
  function BigEndian(n: nat, k: nat): (r: seq<Byte>)
    ensures |r| == k
  {
    if k == 0 then [] else BigEndian(n / 256, k - 1) + [(n % 256) as Byte]
  }

  function Power(k: nat): nat {
    if k == 0 then 1 else 256 * Power(k - 1)
  }

  lemma {:induction false} BigEndianInjective(n: nat, m: nat, k: nat)
    requires BigEndian(n, k) == BigEndian(m, k) && n < Power(k) && m < Power(k)
    ensures n == m
  {
    if k > 0 {
      var r := BigEndian(n, k);
      assert r[..k - 1] == BigEndian(n / 256, k - 1) == BigEndian(m / 256, k - 1);
      assert r[k - 1] == (n % 256) as Byte == (m % 256) as Byte;
      BigEndianInjective(n / 256, m / 256, k - 1);
    }
  }

  const PREFIX: seq<Byte> := [0x20, 0x01, 0x0d, 0xb8, 0, 0, 0, 0]

  function Tagged(e: Endpoint): Option<(string, string)> {
    match e
    case Tcp(_, _, _) => None
    case Unix(path, _, _) => Some(("unix\0", path))
    case VirtualJs(key, _, _) => Some(("virtual_js\0", key))
  }

  function SyntheticAddr(env: Env, e: Endpoint): Option<Addr> {
    match Tagged(e)
    case None => None
    case Some((tag, name)) => Some(Inet(PREFIX + BigEndian(env.hash(tag, name), 8), 1))
  }

  // A synthetic address depends on the tagged name alone, not on weight, position or the
  // rest, and tells two names apart exactly when the hash does.
  lemma SyntheticIdentity(env: Env, a: Endpoint, b: Endpoint)
    requires EnvOk(env) && Tagged(a).Some? && Tagged(b).Some?
    ensures SyntheticAddr(env, a) == SyntheticAddr(env, b) <==>
            env.hash(Tagged(a).value.0, Tagged(a).value.1) == env.hash(Tagged(b).value.0, Tagged(b).value.1)
  {
    var n := env.hash(Tagged(a).value.0, Tagged(a).value.1);
    var m := env.hash(Tagged(b).value.0, Tagged(b).value.1);
    assert Power(8) == LIMIT;
    if SyntheticAddr(env, a) == SyntheticAddr(env, b) {
      assert (PREFIX + BigEndian(n, 8))[8..] == BigEndian(n, 8);
      assert (PREFIX + BigEndian(m, 8))[8..] == BigEndian(m, 8);
      BigEndianInjective(n, m, 8);
    }
  }

  function FromBigEndian(b: seq<Byte>): nat {
    if b == [] then 0 else 256 * FromBigEndian(b[..|b| - 1]) + b[|b| - 1] as nat
  }

  lemma {:induction false} BigEndianReads(n: nat, k: nat)
    requires n < Power(k)
    ensures FromBigEndian(BigEndian(n, k)) == n
  {
    if k > 0 {
      BigEndianReads(n / 256, k - 1);
      assert BigEndian(n, k)[..k - 1] == BigEndian(n / 256, k - 1);
    }
  }

  // It lies in the documentation range 2001:db8::/32, port 1, and its last eight octets are
  // the hash.
  lemma SyntheticShape(env: Env, e: Endpoint)
    requires EnvOk(env) && !e.Tcp?
    ensures SyntheticAddr(env, e).Some? && SyntheticAddr(env, e).value.Inet?
    ensures var a := SyntheticAddr(env, e).value;
            && |a.octets| == 16 && a.port == 1
            && a.octets[..8] == [0x20, 0x01, 0x0d, 0xb8, 0, 0, 0, 0]
            && FromBigEndian(a.octets[8..]) ==
               if e.Unix? then env.hash("unix\0", e.path) else env.hash("virtual_js\0", e.key)
  {
    var n := env.hash(Tagged(e).value.0, Tagged(e).value.1);
    assert Power(8) == LIMIT;
    BigEndianReads(n, 8);
    assert (PREFIX + BigEndian(n, 8))[8..] == BigEndian(n, 8);
  }

  // If the hash keeps pairs apart, a Unix path and a virtual key never share an address, nor
  // do two paths or two keys.
  lemma NamesKeepApart(env: Env, a: Endpoint, b: Endpoint)
    requires EnvOk(env) && !a.Tcp? && !b.Tcp?
    requires forall t, n, u, m :: env.hash(t, n) == env.hash(u, m) ==> t == u && n == m
    ensures SyntheticAddr(env, a) == SyntheticAddr(env, b) <==>
            (a.Unix? && b.Unix? && a.path == b.path) || (a.VirtualJs? && b.VirtualJs? && a.key == b.key)
  {
    SyntheticIdentity(env, a, b);
    assert "unix\0"[0] != "virtual_js\0"[0];
  }

  function AddrOf(env: Env, e: Endpoint): Option<Addr> {
    if e.Tcp? then env.parse(e.address) else SyntheticAddr(env, e)
  }

  // ---------- the backend set ----------

  // Backends compare by address and weight; the rest they carry is not looked at.
  type Key = (Addr, nat)

  predicate Valid(env: Env, es: seq<Endpoint>) {
    forall i :: 0 <= i < |es| ==> AddrOf(env, es[i]).Some?
  }

  function KeyOf(env: Env, e: Endpoint): Key
    requires AddrOf(env, e).Some?
  {
    (AddrOf(env, e).value, e.weight)
  }

  // A set keyed so keeps the first of equal backends, with its index.
  ghost predicate Indexes(env: Env, es: seq<Endpoint>, m: map<Key, nat>)
    requires Valid(env, es)
  {
    && (forall i :: 0 <= i < |es| ==> KeyOf(env, es[i]) in m)
    && (forall k :: k in m ==> m[k] < |es| && KeyOf(env, es[m[k]]) == k)
    && (forall k, i :: k in m && 0 <= i < m[k] ==> KeyOf(env, es[i]) != k)
  }

  // Only a TCP address can be unreadable; it is where the endpoint is found.
  lemma ValidIff(env: Env, es: seq<Endpoint>)
    ensures Valid(env, es) <==>
            forall i :: 0 <= i < |es| && es[i].Tcp? ==> env.parse(es[i].address).Some?
    ensures forall i :: 0 <= i < |es| && es[i].Tcp? ==> AddrOf(env, es[i]) == env.parse(es[i].address)
  {
  }

  method BuildLoadBalancer(env: Env, es: seq<Endpoint>) returns (r: Result<Option<map<Key, nat>>>)
    ensures r.Ok? <==> Valid(env, es)
    ensures r.Ok? <==> forall i :: 0 <= i < |es| && es[i].Tcp? ==> env.parse(es[i].address).Some?
    ensures r.Ok? ==> (r.value.None? <==> es == [])
    ensures r.Ok? && r.value.Some? ==> Indexes(env, es, r.value.value)
  {
    ValidIff(env, es);
    var m: map<Key, nat> := map[];
    for i := 0 to |es|
      invariant Valid(env, es[..i])
      invariant Indexes(env, es[..i], m)
      invariant m == map[] <==> i == 0
    {
      var addr := AddrOf(env, es[i]);
      if addr.None? {
        return Err("invalid upstream address");
      }
      var key := (addr.value, es[i].weight);
      IndexesStep(env, es, i, m);
      m := if key in m then m else m[key := i];
    }
    assert es[..|es|] == es;
    r := Ok(if m == map[] then None else Some(m));
  }

  lemma IndexesStep(env: Env, es: seq<Endpoint>, i: nat, m: map<Key, nat>)
    requires i < |es| && Valid(env, es[..i]) && AddrOf(env, es[i]).Some? && Indexes(env, es[..i], m)
    ensures Valid(env, es[..i + 1])
    ensures var key := KeyOf(env, es[i]); Indexes(env, es[..i + 1], if key in m then m else m[key := i])
  {
    assert es[..i + 1] == es[..i] + [es[i]];
  }

  // The index is determined by the endpoints.
  lemma IndexIsUnique(env: Env, es: seq<Endpoint>, m: map<Key, nat>, n: map<Key, nat>)
    requires Valid(env, es) && Indexes(env, es, m) && Indexes(env, es, n)
    ensures m == n
  {
  }

  // ---------- selection ----------

  // The selector sees the keys, the request and which keys are acceptable, nothing else.
  type Selector = (set<Key>, string, set<Key>) -> Option<Key>

  ghost predicate SelectorOk(select: Selector) {
    forall keys, request, accepted ::
      select(keys, request, accepted).Some? ==> select(keys, request, accepted).value in keys * accepted
  }

  // The endpoint configuration a request ends at.
  function Chosen(es: seq<Endpoint>, m: map<Key, nat>, select: Selector, request: string, accepted: set<Key>)
    : Option<Endpoint>
  {
    match select(m.Keys, request, accepted)
    case None => None
    case Some(k) => if k in m && m[k] < |es| then Some(es[m[k]]) else None
  }

  // Endpoints that look the same to the balancer are the same.
  ghost predicate OneConfigPerKey(env: Env, es: seq<Endpoint>)
    requires Valid(env, es)
  {
    forall i, j :: 0 <= i < j < |es| && KeyOf(env, es[i]) == KeyOf(env, es[j]) ==> es[i] == es[j]
  }

  lemma MembersAlike(es: seq<Endpoint>, fs: seq<Endpoint>, i: nat) returns (j: nat)
    requires multiset(es) == multiset(fs) && i < |es|
    ensures j < |fs| && fs[j] == es[i]
  {
    assert es[i] in multiset(fs);
    j :| 0 <= j < |fs| && fs[j] == es[i];
  }

  lemma ReorderedIsValid(env: Env, es: seq<Endpoint>, fs: seq<Endpoint>)
    requires multiset(es) == multiset(fs) && Valid(env, es)
    ensures Valid(env, fs)
  {
    forall j | 0 <= j < |fs| ensures AddrOf(env, fs[j]).Some? {
      var i := MembersAlike(fs, es, j);
    }
  }

  lemma ReorderedKeys(env: Env, es: seq<Endpoint>, fs: seq<Endpoint>, m: map<Key, nat>, n: map<Key, nat>)
    requires multiset(es) == multiset(fs) && Valid(env, es) && Valid(env, fs)
    requires Indexes(env, es, m) && Indexes(env, fs, n)
    ensures m.Keys <= n.Keys
  {
    forall k | k in m ensures k in n {
      var j := MembersAlike(es, fs, m[k]);
      assert KeyOf(env, fs[j]) in n;
    }
  }

  // Reordering the configured upstreams changes neither the backend set nor, for any
  // selector and request, the endpoint configuration selected.
  lemma ReorderingIsInvisible(env: Env, es: seq<Endpoint>, fs: seq<Endpoint>, m: map<Key, nat>, n: map<Key, nat>,
                              select: Selector, request: string, accepted: set<Key>)
    requires multiset(es) == multiset(fs) && Valid(env, es) && Valid(env, fs)
    requires Indexes(env, es, m) && Indexes(env, fs, n) && SelectorOk(select)
    requires OneConfigPerKey(env, es)
    ensures m.Keys == n.Keys
    ensures Chosen(es, m, select, request, accepted) == Chosen(fs, n, select, request, accepted)
  {
    ReorderedKeys(env, es, fs, m, n);
    ReorderedKeys(env, fs, es, n, m);
    assert m.Keys == n.Keys;
    var got := select(m.Keys, request, accepted);
    if got.Some? {
      var k := got.value;
      assert k in m.Keys * accepted;
      var j := MembersAlike(fs, es, n[k]);
      SameKeySameConfig(env, es, m[k], j);
    }
  }

  lemma SameKeySameConfig(env: Env, es: seq<Endpoint>, i: nat, j: nat)
    requires Valid(env, es) && OneConfigPerKey(env, es) && i < |es| && j < |es|
    requires KeyOf(env, es[i]) == KeyOf(env, es[j])
    ensures es[i] == es[j]
  {
    assert i < j || j < i || i == j;
  }

  // Distinct addresses are the usual reason why that holds.
  lemma DistinctAddressesSuffice(env: Env, es: seq<Endpoint>)
    requires Valid(env, es)
    requires forall i, j :: 0 <= i < j < |es| ==> AddrOf(env, es[i]) != AddrOf(env, es[j])
    ensures OneConfigPerKey(env, es)
  {
  }

  function Always(k: Key): Selector {
    (keys: set<Key>, request: string, accepted: set<Key>) => if k in keys && k in accepted then Some(k) else None
  }

  // And it is needed: with two configurations behind one key, some order of the same
  // endpoints sends the requests of some selector elsewhere.
  lemma OtherwiseOrderShows(env: Env, es: seq<Endpoint>, m: map<Key, nat>, request: string)
    returns (fs: seq<Endpoint>, n: map<Key, nat>, k: Key)
    requires Valid(env, es) && Indexes(env, es, m) && !OneConfigPerKey(env, es)
    ensures multiset(es) == multiset(fs) && Valid(env, fs) && Indexes(env, fs, n)
    ensures SelectorOk(Always(k))
    ensures Chosen(es, m, Always(k), request, m.Keys) != Chosen(fs, n, Always(k), request, m.Keys)
  {
    var other;
    k, other := Clash(env, es, m);
    var first := m[k];
    fs := es[first := es[other]][other := es[first]];
    Swapped(es, first, other);
    ReorderedIsValid(env, es, fs);
    n := IndexOf(env, fs);
    ReorderedKeys(env, es, fs, m, n);
    ReorderedKeys(env, fs, es, n, m);
    assert m.Keys == n.Keys;
    SwappedFirst(env, es, fs, m, n, k, first, other);
  }

  lemma Clash(env: Env, es: seq<Endpoint>, m: map<Key, nat>) returns (k: Key, other: nat)
    requires Valid(env, es) && Indexes(env, es, m) && !OneConfigPerKey(env, es)
    ensures k in m && m[k] < other < |es| && KeyOf(env, es[other]) == k && es[other] != es[m[k]]
  {
    var i: nat, j: nat :| i < j < |es| && KeyOf(env, es[i]) == KeyOf(env, es[j]) && es[i] != es[j];
    k := KeyOf(env, es[i]);
    other := if es[m[k]] != es[i] then i else j;
  }

  lemma Swapped(es: seq<Endpoint>, i: nat, j: nat)
    requires i < j < |es|
    ensures multiset(es[i := es[j]][j := es[i]]) == multiset(es)
  {
  }

  // Every valid endpoint list has its index.
  lemma {:induction false} IndexOf(env: Env, es: seq<Endpoint>) returns (m: map<Key, nat>)
    requires Valid(env, es)
    ensures Indexes(env, es, m)
  {
    if es == [] {
      m := map[];
    } else {
      var i := |es| - 1;
      var before := IndexOf(env, es[..i]);
      IndexesStep(env, es, i, before);
      m := if KeyOf(env, es[i]) in before then before else before[KeyOf(env, es[i]) := i];
      assert es[..i + 1] == es;
    }
  }

  lemma SwappedFirst(env: Env, es: seq<Endpoint>, fs: seq<Endpoint>, m: map<Key, nat>, n: map<Key, nat>,
                     k: Key, first: nat, other: nat)
    requires Valid(env, es) && Valid(env, fs) && Indexes(env, es, m) && Indexes(env, fs, n)
    requires k in m && k in n && m[k] == first <= other < |es| && KeyOf(env, es[other]) == k
    requires fs == es[first := es[other]][other := es[first]]
    ensures n[k] == first
  {
    assert KeyOf(env, fs[first]) == k;
    assert forall i :: 0 <= i < first ==> fs[i] == es[i];
  }
}
