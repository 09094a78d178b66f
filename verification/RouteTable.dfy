/** The route table: a sorted copy-on-write vector that lists a map from ids to routes. */
module RouteTable {
  import opened Prelude
  import opened Listing
  import Sorting

  datatype Route<P> = Route(id: string, priority: int, payload: P)

  // String order: by the first character that differs, a proper prefix first.
  predicate Less(a: string, b: string) {
    if b == "" then false
    else if a == "" then true
    else a[0] < b[0] || (a[0] == b[0] && Less(a[1..], b[1..]))
  }

  lemma {:induction false} LessIsTotal(a: string, b: string)
    ensures a != b ==> Less(a, b) || Less(b, a)
    ensures !(Less(a, b) && Less(b, a))
  {
    if a != "" && b != "" {
      LessIsTotal(a[1..], b[1..]);
      assert a == [a[0]] + a[1..] && b == [b[0]] + b[1..];
    }
  }

  lemma {:induction false} LessIsTransitive(a: string, b: string, c: string)
    requires Less(a, b) && Less(b, c)
    ensures Less(a, c)
  {
    if a != "" && a[0] == b[0] == c[0] {
      LessIsTransitive(a[1..], b[1..], c[1..]);
    }
  }

  // Up to some point the strings agree; there the smaller has the smaller character or ends.
  ghost predicate SmallerFrom(a: string, b: string, k: nat) {
    k <= |a| && k <= |b| && a[..k] == b[..k] && k < |b| && (k == |a| || a[k] < b[k])
  }

  lemma {:induction false} LessMeans(a: string, b: string)
    ensures Less(a, b) <==> exists k: nat :: SmallerFrom(a, b, k)
  {
    if a == "" || b == "" {
      if Less(a, b) {
        assert SmallerFrom(a, b, 0);
      }
    } else {
      LessMeans(a[1..], b[1..]);
      if a[0] < b[0] {
        assert SmallerFrom(a, b, 0);
      } else if Less(a, b) {
        var k: nat :| SmallerFrom(a[1..], b[1..], k);
        assert a[..k + 1] == [a[0]] + a[1..][..k] && b[..k + 1] == [b[0]] + b[1..][..k];
        assert SmallerFrom(a, b, k + 1);
      }
      forall k: nat | SmallerFrom(a, b, k) ensures Less(a, b) {
        if k > 0 {
          assert a[..k][0] == a[0] && b[..k][0] == b[0];
          assert a[1..][..k - 1] == a[..k][1..] && b[1..][..k - 1] == b[..k][1..];
          assert SmallerFrom(a[1..], b[1..], k - 1);
        }
      }
    }
  }

  // The comparator: higher priority first, then the smaller id.
  predicate Before<P>(a: Route<P>, b: Route<P>) {
    a.priority > b.priority || (a.priority == b.priority && Less(a.id, b.id))
  }

  function Cmp<P>(): (Route<P>, Route<P>) -> bool {
    (a: Route<P>, b: Route<P>) => Before(a, b)
  }

  lemma BeforeIsStrict<P(!new)>()
    ensures Strict(Cmp<P>())
  {
    forall a: Route<P>, b: Route<P> | Before(a, b) ensures !Before(b, a) {
      LessIsTotal(a.id, b.id);
    }
    forall a: Route<P>, b: Route<P>, c: Route<P> | Before(a, b) && Before(b, c) ensures Before(a, c) {
      if a.priority == b.priority == c.priority {
        LessIsTransitive(a.id, b.id, c.id);
      }
    }
  }

  function Position<P>(routes: seq<Route<P>>, id: string): (r: Option<nat>)
    ensures r.Some? ==> r.value < |routes| && routes[r.value].id == id
    ensures r.None? ==> forall k :: 0 <= k < |routes| ==> routes[k].id != id
  {
    if routes == [] then None
    else if routes[0].id == id then Some(0)
    else match Position(routes[1..], id)
      case None => None
      case Some(k) => Some(k + 1)
  }

  function Edited<P>(routes: seq<Route<P>>, route: Route<P>): seq<Route<P>> {
    match Position(routes, route.id)
    case Some(k) => routes[k := route]
    case None => routes + [route]
  }

  function Upsert<P>(routes: seq<Route<P>>, route: Route<P>): seq<Route<P>> {
    Sorting.Sort(Cmp(), Edited(routes, route))
  }

  function Other<P>(id: string): Route<P> -> bool {
    (r: Route<P>) => r.id != id
  }

  function Remove<P(!new)>(routes: seq<Route<P>>, id: string): seq<Route<P>> {
    Retain(Other(id), routes)
  }

  // ---------- the map a table lists ----------

  ghost predicate Keyed<P(!new)>(m: map<string, Route<P>>) {
    forall id :: id in m ==> m[id].id == id
  }

  // The table holds exactly the map's routes, strictly in order.
  ghost predicate Lists<P(!new)>(routes: seq<Route<P>>, m: map<string, Route<P>>) {
    && Keyed(m)
    && Ascending(Cmp(), routes)
    && (forall r :: r in routes <==> r.id in m && m[r.id] == r)
  }

  // A map has one listing.
  lemma ListingIsUnique<P(!new)>(a: seq<Route<P>>, b: seq<Route<P>>, m: map<string, Route<P>>)
    requires Lists(a, m) && Lists(b, m)
    ensures a == b
  {
    BeforeIsStrict<P>();
    AscendingIsUnique(Cmp(), a, b);
  }

  lemma IdsDiffer<P(!new)>(routes: seq<Route<P>>, m: map<string, Route<P>>, i: nat, j: nat)
    requires Lists(routes, m) && i < j < |routes|
    ensures routes[i].id != routes[j].id
  {
    assert routes[i] in routes && routes[j] in routes;
    assert Before(routes[i], routes[j]);
    LessIsTotal(routes[i].id, routes[i].id);
  }

  lemma EditedIds<P(!new)>(routes: seq<Route<P>>, route: Route<P>, m: map<string, Route<P>>)
    requires Lists(routes, m)
    ensures forall i, j :: 0 <= i < j < |Edited(routes, route)| ==>
              Edited(routes, route)[i].id != Edited(routes, route)[j].id
    ensures forall r :: r in Edited(routes, route) <==> r == route || (r in routes && r.id != route.id)
  {
    forall i, j | 0 <= i < j < |routes| ensures routes[i].id != routes[j].id {
      IdsDiffer(routes, m, i, j);
    }
    var e := Edited(routes, route);
    match Position(routes, route.id)
    case None =>
    case Some(k) =>
      assert e[k] == route;
      forall r | r in routes && r.id != route.id ensures r in e {
        var i :| 0 <= i < |routes| && routes[i] == r;
        assert e[i] == r;
      }
      forall r | r in e ensures r == route || (r in routes && r.id != route.id) {
        var i :| 0 <= i < |e| && e[i] == r;
      }
  }

  lemma UpsertAscends<P(!new)>(routes: seq<Route<P>>, route: Route<P>, m: map<string, Route<P>>)
    requires Lists(routes, m)
    ensures Ascending(Cmp(), Upsert(routes, route))
  {
    var e := Edited(routes, route);
    EditedIds(routes, route, m);
    BeforeIsStrict<P>();
    forall i, j | 0 <= i < j < |e| ensures Before(e[i], e[j]) || Before(e[j], e[i]) {
      LessIsTotal(e[i].id, e[j].id);
    }
    Sorting.SortAscends(Cmp(), e);
  }

  lemma UpsertHolds<P(!new)>(routes: seq<Route<P>>, route: Route<P>, m: map<string, Route<P>>, r: Route<P>)
    requires Lists(routes, m)
    ensures r in Upsert(routes, route) <==> r == route || (r.id in m && m[r.id] == r && r.id != route.id)
  {
    EditedIds(routes, route, m);
    Sorting.SortMembers(Cmp(), Edited(routes, route), r);
  }

  lemma UpsertLists<P(!new)>(routes: seq<Route<P>>, route: Route<P>, m: map<string, Route<P>>)
    requires Lists(routes, m)
    ensures Lists(Upsert(routes, route), m[route.id := route])
  {
    var m' := m[route.id := route];
    assert Keyed(m');
    UpsertAscends(routes, route, m);
    forall r ensures r in Upsert(routes, route) <==> r.id in m' && m'[r.id] == r {
      UpsertHolds(routes, route, m, r);
      assert r.id == route.id ==> m'[r.id] == route;
      assert r.id != route.id ==> (r.id in m' <==> r.id in m) && (r.id in m ==> m'[r.id] == m[r.id]);
    }
  }

  lemma RemoveLists<P(!new)>(routes: seq<Route<P>>, id: string, m: map<string, Route<P>>)
    requires Lists(routes, m)
    ensures Lists(Remove(routes, id), m - {id})
  {
    RetainAscends(Cmp(), Other(id), routes);
  }

  // ---------- runs ----------

  datatype Op<P> = Put(route: Route<P>) | Drop(key: string) {
    function Id(): string { if Put? then route.id else key }
  }

  function TableAfter<P(!new)>(ops: seq<Op<P>>): seq<Route<P>>
    decreases |ops|
  {
    if ops == [] then []
    else
      var t := TableAfter(ops[..|ops| - 1]);
      match ops[|ops| - 1]
      case Put(route) => Upsert(t, route)
      case Drop(id) => Remove(t, id)
  }

  // The last operation that named an id decides it.
  ghost function Decided<P>(ops: seq<Op<P>>, id: string): Option<Route<P>>
    decreases |ops|
  {
    if ops == [] then None
    else
      var op := ops[|ops| - 1];
      if op.Id() != id then Decided(ops[..|ops| - 1], id)
      else if op.Put? then Some(op.route) else None
  }

  ghost predicate Settled<P>(ops: seq<Op<P>>, m: map<string, Route<P>>) {
    forall id :: Decided(ops, id) == if id in m then Some(m[id]) else None
  }

  // After any run the table lists, in order, the routes its last operations put.
  lemma {:induction false} RunLists<P(!new)>(ops: seq<Op<P>>) returns (m: map<string, Route<P>>)
    ensures Settled(ops, m) && Lists(TableAfter(ops), m)
    decreases |ops|
  {
    if ops == [] {
      m := map[];
    } else {
      var init, op := ops[..|ops| - 1], ops[|ops| - 1];
      var m0 := RunLists(init);
      match op
      case Put(route) =>
        UpsertLists(TableAfter(init), route, m0);
        m := m0[route.id := route];
      case Drop(id) =>
        RemoveLists(TableAfter(init), id, m0);
        m := m0 - {id};
      forall id ensures Decided(ops, id) == if id in m then Some(m[id]) else None {
        assert Decided(init, id) == if id in m0 then Some(m0[id]) else None;
      }
    }
  }

  // Two runs that end every id the same way build the same table: only the order of
  // operations on one id matters.
  lemma OrderOfDistinctIdsIsIrrelevant<P(!new)>(a: seq<Op<P>>, b: seq<Op<P>>)
    requires forall id :: Decided(a, id) == Decided(b, id)
    ensures TableAfter(a) == TableAfter(b)
  {
    var m := RunLists(a);
    var n := RunLists(b);
    forall id ensures id in m <==> id in n
      ensures id in m ==> m[id] == n[id]
    {
      assert Decided(a, id) == Decided(b, id);
    }
    assert m == n;
    ListingIsUnique(TableAfter(a), TableAfter(b), m);
  }

  // In particular neighbours on different ids commute anywhere in a run.
  lemma {:induction false} DistinctIdsCommute<P(!new)>(before: seq<Op<P>>, p: Op<P>, q: Op<P>, rest: seq<Op<P>>)
    requires p.Id() != q.Id()
    ensures TableAfter(before + [p, q] + rest) == TableAfter(before + [q, p] + rest)
  {
    forall id ensures Decided(before + [p, q] + rest, id) == Decided(before + [q, p] + rest, id) {
      DecidedCommutes(before, p, q, rest, id);
    }
    OrderOfDistinctIdsIsIrrelevant(before + [p, q] + rest, before + [q, p] + rest);
  }

  lemma {:induction false} DecidedCommutes<P(!new)>(
    before: seq<Op<P>>, p: Op<P>, q: Op<P>, rest: seq<Op<P>>, id: string)
    requires p.Id() != q.Id()
    ensures Decided(before + [p, q] + rest, id) == Decided(before + [q, p] + rest, id)
    decreases |rest|
  {
    var a, b := before + [p, q] + rest, before + [q, p] + rest;
    if rest == [] {
      DecidedTwo(before, p, q, id);
      DecidedTwo(before, q, p, id);
      assert a == before + [p, q] && b == before + [q, p];
    } else {
      var init := rest[..|rest| - 1];
      DecidedCommutes(before, p, q, init, id);
      assert a[..|a| - 1] == before + [p, q] + init;
      assert b[..|b| - 1] == before + [q, p] + init;
    }
  }

  lemma DecidedTwo<P>(before: seq<Op<P>>, p: Op<P>, q: Op<P>, id: string)
    ensures Decided(before + [p, q], id) ==
            if q.Id() == id then (if q.Put? then Some(q.route) else None)
            else if p.Id() == id then (if p.Put? then Some(p.route) else None)
            else Decided(before, id)
  {
    var s := before + [p, q];
    assert s[..|s| - 1] == before + [p];
    assert (before + [p])[..|before|] == before;
  }

  // ---------- the shared table ----------

  ghost predicate FirstAt<P(!new)>(routes: seq<Route<P>>, matches: Route<P> -> bool, k: nat, route: Route<P>) {
    k < |routes| && routes[k] == route && forall i :: 0 <= i < k ==> !matches(routes[i])
  }

  // The first route in table order whose matcher accepts.
  method FindFirstMatch<P(!new)>(routes: seq<Route<P>>, matches: Route<P> -> bool) returns (found: Option<Route<P>>)
    ensures found.None? <==> forall r :: r in routes ==> !matches(r)
    ensures found.Some? ==> 
              matches(found.value) && exists k :: 0 <= k < |routes| && FirstAt(routes, matches, k, found.value)
  {
    for i := 0 to |routes|
      invariant forall k :: 0 <= k < i ==> !matches(routes[k])
    {
      if matches(routes[i]) {
        assert FirstAt(routes, matches, i, routes[i]);
        return Some(routes[i]);
      }
    }
    found := None;
  }

  class SharedRouteTable<P(!new)> {
    var snapshot: seq<Route<P>>
    // The routes by id, as the operations left them.
    ghost var routes: map<string, Route<P>>

    ghost predicate Valid() reads this {
      Lists(snapshot, routes)
    }

    constructor ()
      ensures Valid() && routes == map[] && snapshot == []
    {
      snapshot, routes := [], map[];
    }

    method UpsertRoute(route: Route<P>)
      requires Valid()
      modifies this
      ensures Valid() && routes == old(routes)[route.id := route]
    {
      var current := snapshot;
      UpsertLists(current, route, routes);
      snapshot := Upsert(current, route);
      routes := routes[route.id := route];
    }

    method RemoveRoute(id: string) returns (removed: bool)
      requires Valid()
      modifies this
      ensures Valid() && routes == old(routes) - {id}
      ensures removed <==> id in old(routes)
      ensures !removed ==> snapshot == old(snapshot)
    {
      var current := snapshot;
      var next := Remove(current, id);
      removed := |current| != |next|;
      RetainLength(Other(id), current);
      RemoveLists(current, id, routes);
      assert id in routes ==> routes[id] in current;
      snapshot := next;
      routes := routes - {id};
    }

    // Of all registered routes that match, the one of highest priority and, among those,
    // of the smallest id.
    method FirstMatch(matches: Route<P> -> bool) returns (found: Option<Route<P>>)
      requires Valid()
      ensures found.None? <==> forall id :: id in routes ==> !matches(routes[id])
      ensures found.Some? ==> var r := found.value;
                && r.id in routes && routes[r.id] == r && matches(r)
                && forall id :: id in routes && matches(routes[id]) && id != r.id ==>
                     || routes[id].priority < r.priority
                     || (routes[id].priority == r.priority && exists k: nat :: SmallerFrom(r.id, id, k))
    {
      found := FindFirstMatch(snapshot, matches);
      if found.Some? {
        ghost var k :| 0 <= k < |snapshot| && FirstAt(snapshot, matches, k, found.value);
        forall id | id in routes && matches(routes[id])
          ensures id == found.value.id || Before(found.value, routes[id])
          ensures Less(found.value.id, id) <==> exists k: nat :: SmallerFrom(found.value.id, id, k)
        {
          LessMeans(found.value.id, id);
          assert routes[id] in snapshot;
          var j: nat :| j < |snapshot| && snapshot[j] == routes[id];
          assert j >= k;
        }
      } else {
        assert forall id :: id in routes ==> routes[id] in snapshot;
      }
    }
  }
}
