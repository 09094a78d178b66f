/** Choosing a peer for a request, and the health check that observes and retries. */
module PeerSelection {
  import opened Prelude
  import opened PassiveHealth
  import opened LoadBalancing

  class Backend {
    const key: Key
    const index: nat
    const health: PassiveHealthState

    constructor (key: Key, index: nat)
      ensures this.key == key && this.index == index && fresh(health) && health.Valid() && health.history == []
    {
      this.key, this.index := key, index;
      health := new PassiveHealthState();
    }
  }

  // Present only on routes with a health check.
  datatype UpstreamState = UpstreamState(retries: int, lastEndpointIndex: Option<nat>, lastBackend: Option<Backend>)

  class ProxyCtx {
    var upstreamState: Option<UpstreamState>
    // Failed connection attempts of this request so far.
    ghost var failures: nat

    constructor ()
      ensures upstreamState == None
    {
      upstreamState, failures := None, 0;
    }

    // The health state the next observation goes to.
    ghost function Observed(): set<PassiveHealthState> reads this {
      if upstreamState.Some? && upstreamState.value.lastBackend.Some?
      then {upstreamState.value.lastBackend.value.health} else {}
    }
  }

  datatype Selected = Peer(endpoint: Endpoint) | BadGateway | Internal

  // A route's endpoints and the backends they were built into; no backends, no balancer.
  class Upstream {
    const endpoints: seq<Endpoint>
    const backends: map<Key, Backend>
    const select: Selector

    constructor (endpoints: seq<Endpoint>, backends: map<Key, Backend>, select: Selector)
      ensures this.endpoints == endpoints && this.backends == backends && this.select == select
    {
      this.endpoints, this.backends, this.select := endpoints, backends, select;
    }

    // Which endpoint each backend points back to.
    ghost function Index(): map<Key, nat> {
      map k | k in backends :: backends[k].index
    }

    // The backends are those of the endpoint list, each pointing back to the first endpoint
    // of its address and weight and each with counters of its own.
    ghost predicate Built(env: Env) {
      && LoadBalancing.Valid(env, endpoints) && Indexes(env, endpoints, Index()) && SelectorOk(select)
      && (forall k :: k in backends ==> backends[k].key == k)
      && (forall k, m :: k in backends && m in backends && k != m ==> backends[k].health != backends[m].health)
    }

    ghost predicate Counting()
      reads set k | k in backends :: backends[k].health
    {
      forall k :: k in backends ==> backends[k].health.Valid()
    }

    ghost function HealthyKeys(now: int): set<Key>
      reads set k | k in backends :: backends[k].health
    {
      set k | k in backends && backends[k].health.Healthy(now)
    }

    // A backend is among the healthy exactly when its own history says it is fit.
    lemma HealthyByHistory(k: Key, now: int)
      requires Counting() && k in backends && Sane(backends[k].health.history)
      ensures k in HealthyKeys(now) <==> FitAt(backends[k].health.history, now)
    {
      HealthyIff(backends[k].health.history, now);
    }

    function PeerFromBackend(b: Backend): Selected {
      if b.index < |endpoints| then Peer(endpoints[b.index]) else Internal
    }

    static function Remember(state: UpstreamState, b: Backend): UpstreamState {
      state.(lastEndpointIndex := Some(b.index), lastBackend := Some(b))
    }

    // The selector's choice among the acceptable backends, led back to its configuration: all
    // are acceptable to a lone endpoint or a route without health check, otherwise those
    // healthy now. The choice is remembered where there is a health check.
    method SelectPeer(ghost env: Env, ctx: ProxyCtx, request: Result<string>, now: int) returns (r: Selected)
      requires Built(env)
      modifies ctx
      ensures request.Err? ==> r == Internal
      ensures request.Ok? ==>
                var gated := |endpoints| != 1 && old(ctx.upstreamState).Some?;
                var accepted := if gated then old(HealthyKeys(now)) else backends.Keys;
                r == match Chosen(endpoints, Index(), select, request.value, accepted)
                     case Some(e) => Peer(e)
                     case None => BadGateway
      ensures old(ctx.upstreamState).Some? && r.Peer? ==>
                exists k :: k in backends && r == PeerFromBackend(backends[k])
                  && (|endpoints| != 1 ==> k in old(HealthyKeys(now)))
                  && ctx.upstreamState == Some(Remember(old(ctx.upstreamState).value, backends[k]))
      ensures !r.Peer? || old(ctx.upstreamState).None? ==> ctx.upstreamState == old(ctx.upstreamState)
      ensures ctx.failures == old(ctx.failures)
    {
      if request.Err? {
        return Internal;
      }
      if |endpoints| == 1 {
        assert KeyOf(env, endpoints[0]) in backends;
        if backends == map[] {
          return Internal;
        }
        var got := select(backends.Keys, request.value, backends.Keys);
        assert Index().Keys == backends.Keys;
        if got.None? {
          return BadGateway;
        }
        var backend := backends[got.value];
        if ctx.upstreamState.Some? {
          ctx.upstreamState := Some(Remember(ctx.upstreamState.value, backend));
        }
        r := PeerFromBackend(backend);
        return;
      }
      assert Index().Keys == backends.Keys;
      if ctx.upstreamState.Some? {
        var accepted := set k | k in backends && backends[k].health.Healthy(now);
        assert accepted == HealthyKeys(now);
        var got := select(backends.Keys, request.value, accepted);
        if got.Some? {
          assert got.value in backends.Keys * accepted;
          var backend := backends[got.value];
          ctx.upstreamState := Some(Remember(ctx.upstreamState.value, backend));
          r := PeerFromBackend(backend);
          return;
        }
      } else {
        var got := select(backends.Keys, request.value, backends.Keys);
        if got.Some? {
          r := PeerFromBackend(backends[got.value]);
          return;
        }
      }
      r := BadGateway;
    }
  }

  // A route's upstream from its endpoints: refused exactly on an unreadable address,
  // otherwise with one fresh backend for each address and weight.
  method FromConfig(env: Env, endpoints: seq<Endpoint>, select: Selector) returns (r: Result<Upstream>)
    requires SelectorOk(select)
    ensures r.Ok? <==> LoadBalancing.Valid(env, endpoints)
    ensures r.Ok? ==> r.value.endpoints == endpoints && r.value.select == select && r.value.Built(env)
    ensures r.Ok? ==> r.value.Counting()
    ensures r.Ok? ==> forall k :: k in r.value.backends ==> r.value.backends[k].health.history == []
  {
    var built := BuildLoadBalancer(env, endpoints);
    if built.Err? {
      return Err(built.error);
    }
    var index: map<Key, nat> := if built.value.Some? then built.value.value else map[];
    assert Indexes(env, endpoints, index);
    var backends := NewBackends(index);
    var upstream := new Upstream(endpoints, backends, select);
    assert upstream.Index() == index;
    r := Ok(upstream);
  }

  ghost predicate Untouched(h: PassiveHealthState) reads h {
    h.Valid() && h.history == []
  }

  method NewBackends(index: map<Key, nat>) returns (backends: map<Key, Backend>)
    ensures backends.Keys == index.Keys
    ensures forall k :: k in backends ==> backends[k].key == k && backends[k].index == index[k]
    ensures forall k :: k in backends ==> fresh(backends[k].health) && Untouched(backends[k].health)
    ensures forall k, m :: k in backends && m in backends && k != m ==> backends[k].health != backends[m].health
  {
    backends := map[];
    var todo := index.Keys;
    while todo != {}
      invariant todo <= index.Keys && (forall k :: k in index <==> k in backends || k in todo)
      invariant forall k :: k in backends ==> backends[k].key == k && backends[k].index == index[k]
      invariant forall k :: k in backends ==> fresh(backends[k].health) && Untouched(backends[k].health)
      invariant forall k, m :: k in backends && m in backends && k != m ==> backends[k].health != backends[m].health
      decreases |todo|
    {
      var k :| k in todo;
      var b := new Backend(k, index[k]);
      backends := backends[k := b];
      todo := todo - {k};
    }
  }

  function Min(a: int, b: int): int {
    if a < b then a else b
  }

  class HealthCheckMiddleware {
    const retries: int
    const window: int
    const maxAttempts: int
    const includeHttpErrors: bool

    constructor (retries: int, window: int, maxAttempts: int, includeHttpErrors: bool)
      ensures this.retries == retries && this.window == window && this.maxAttempts == maxAttempts
      ensures this.includeHttpErrors == includeHttpErrors
    {
      this.retries, this.window := retries, window;
      this.maxAttempts, this.includeHttpErrors := maxAttempts, includeHttpErrors;
    }

    // Of this request's failed attempts, the first `retries` were granted another.
    ghost predicate Counts(ctx: ProxyCtx) reads ctx {
      ctx.upstreamState.Some? ==> ctx.upstreamState.value.retries == Min(ctx.failures, retries)
    }

    // A second health check on one request is refused.
    method EarlyRequestFilter(ctx: ProxyCtx) returns (r: Result<()>)
      requires retries >= 0
      modifies ctx
      ensures r.Ok? <==> old(ctx.upstreamState).None?
      ensures r.Ok? ==> Counts(ctx) && ctx.failures == 0 && ctx.upstreamState == Some(UpstreamState(0, None, None))
      ensures r.Err? ==> ctx.upstreamState == old(ctx.upstreamState) && ctx.failures == old(ctx.failures)
    {
      if ctx.upstreamState.Some? {
        return Err("multiple health checks are not allowed");
      }
      ctx.upstreamState := Some(UpstreamState(0, None, None));
      ctx.failures := 0;
      r := Ok(());
    }

    method Mark(ctx: ProxyCtx, success: bool, now: int)
      requires forall h :: h in ctx.Observed() ==> h.Valid()
      modifies ctx.Observed()
      ensures forall h :: h in ctx.Observed() ==>
                && h.Valid()
                && h.history == old(h.history) + [if success then Success(maxAttempts) else Failure(now, window)]
    {
      if ctx.upstreamState.Some? && ctx.upstreamState.value.lastBackend.Some? {
        var health := ctx.upstreamState.value.lastBackend.value.health;
        health.ObserveBackendHealth(success, now, window, maxAttempts);
      }
    }

    method ConnectedToUpstream(ctx: ProxyCtx, now: int)
      requires forall h :: h in ctx.Observed() ==> h.Valid()
      modifies ctx.Observed()
      ensures forall h :: h in ctx.Observed() ==> h.Valid() && h.history == old(h.history) + [Success(maxAttempts)]
    {
      Mark(ctx, true, now);
    }

    // The n-th failure of a request is granted a retry exactly when n does not exceed the
    // configured number; each is recorded against the backend that failed.
    method FailToConnect(ctx: ProxyCtx, now: int) returns (retry: bool)
      requires Counts(ctx) && retries >= 0
      requires forall h :: h in ctx.Observed() ==> h.Valid()
      modifies ctx, ctx.Observed()
      ensures Counts(ctx) && ctx.failures == old(ctx.failures) + 1
      ensures retry <==> ctx.upstreamState.Some? && ctx.failures <= retries
      ensures ctx.Observed() == old(ctx.Observed())
      ensures forall h :: h in ctx.Observed() ==> h.Valid() && h.history == old(h.history) + [Failure(now, window)]
    {
      Mark(ctx, false, now);
      retry := false;
      if ctx.upstreamState.Some? {
        var state := ctx.upstreamState.value;
        if state.retries < retries {
          ctx.upstreamState := Some(state.(retries := state.retries + 1));
          retry := true;
        }
      }
      ctx.failures := ctx.failures + 1;
    }

    method UpstreamResponseFilter(ctx: ProxyCtx, status: nat, now: int)
      requires forall h :: h in ctx.Observed() ==> h.Valid()
      modifies ctx.Observed()
      ensures forall h :: h in ctx.Observed() ==>
                && h.Valid()
                && h.history == old(h.history) +
                                (if includeHttpErrors && 500 <= status <= 599 then [Failure(now, window)] else [])
    {
      if includeHttpErrors {
        if 500 <= status <= 599 {
          Mark(ctx, false, now);
        }
      }
    }
  }
}
