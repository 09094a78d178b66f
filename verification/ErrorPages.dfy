/**
 Error pages: a copy-on-write vector kept in lookup order by a stable sort on priority
 alone, and the lookup that serves a generated error from it.
 */
module ErrorPages {
  import opened Prelude
  import opened Listing
  import Sorting

  // No listed status means every status; no matcher means every request.
  datatype Entry = Entry(id: string, statuses: seq<nat>, matcher: Option<nat>, priority: int, content: string)

  function Cmp(): (Entry, Entry) -> bool {
    (a: Entry, b: Entry) => a.priority > b.priority
  }

  function Other(id: string): Entry -> bool {
    (e: Entry) => e.id != id
  }

  function Update(entries: seq<Entry>, entry: Entry): seq<Entry> {
    Sorting.Sort(Cmp(), Retain(Other(entry.id), entries) + [entry])
  }

  function Remove(entries: seq<Entry>, id: string): seq<Entry> {
    Retain(Other(id), entries)
  }

  // ---------- the book a table lists ----------

  // Which entry each id has, and when it was last updated.
  type Book = map<string, (Entry, nat)>

  function At(book: Book, id: string): nat {
    if id in book then book[id].1 else 0
  }

  // Higher priority first; within a priority, the least recently updated first.
  predicate Precedes(book: Book, a: Entry, b: Entry) {
    a.priority > b.priority || (a.priority == b.priority && At(book, a.id) < At(book, b.id))
  }

  function Order(book: Book): (Entry, Entry) -> bool {
    (a: Entry, b: Entry) => Precedes(book, a, b)
  }

  ghost predicate Holds(entries: seq<Entry>, book: Book) {
    forall e :: e in entries <==> e.id in book && book[e.id].0 == e
  }

  ghost predicate Keyed(book: Book) {
    forall id :: id in book ==> book[id].0.id == id
  }

  ghost predicate Lists(entries: seq<Entry>, book: Book) {
    Keyed(book) && Holds(entries, book) && Ascending(Order(book), entries)
  }

  // A book has one listing.
  lemma ListingIsUnique(a: seq<Entry>, b: seq<Entry>, book: Book)
    requires Lists(a, book) && Lists(b, book)
    ensures a == b
  {
    AscendingIsUnique(Order(book), a, b);
  }

  lemma IdsDiffer(entries: seq<Entry>, book: Book)
    requires Lists(entries, book)
    ensures forall i, j :: 0 <= i < j < |entries| ==> entries[i].id != entries[j].id
  {
  }

  // Sorting by priority an already sorted table with one new entry behind it puts the entry
  // at the end of its priority.
  lemma SortLands(rest: seq<Entry>, entry: Entry) returns (k: nat)
    requires Sorting.Ordered(Cmp(), rest)
    ensures k <= |rest| && Sorting.Sort(Cmp(), rest + [entry]) == rest[..k] + [entry] + rest[k..]
    ensures forall i :: 0 <= i < k ==> rest[i].priority >= entry.priority
    ensures forall i :: k <= i < |rest| ==> entry.priority > rest[i].priority
  {
    var all := rest + [entry];
    assert all[..|all| - 1] == rest;
    Sorting.SortOrdered(Cmp(), rest);
    k := Sorting.InsertLands(Cmp(), rest, entry);
    forall i | 0 <= i < k ensures rest[i].priority >= entry.priority {
      assert !Cmp()(entry, rest[i]);
    }
    forall i | k <= i < |rest| ensures entry.priority > rest[i].priority {
      assert Cmp()(entry, rest[i]);
    }
  }

  // Dropping an id leaves the others where and when they were.
  lemma RemoveLists(entries: seq<Entry>, id: string, book: Book)
    requires Lists(entries, book)
    ensures Lists(Remove(entries, id), book - {id})
  {
    var r := Remove(entries, id);
    RetainAscends(Order(book), Other(id), entries);
    forall i, j | 0 <= i < j < |r| ensures Precedes(book - {id}, r[i], r[j]) {
      assert r[i] in r && r[j] in r;
      assert Precedes(book, r[i], r[j]);
    }
  }

  lemma ListsIsOrdered(entries: seq<Entry>, book: Book)
    requires Lists(entries, book)
    ensures Sorting.Ordered(Cmp(), entries)
  {
    forall i, j | 0 <= i < j < |entries| ensures !Cmp()(entries[j], entries[i]) {
      assert Precedes(book, entries[i], entries[j]);
    }
  }

  // One entry put behind all of its priority, later than every other.
  ghost predicate Fits(rest: seq<Entry>, entry: Entry, k: nat, book: Book, now: nat) {
    && Lists(rest, book) && entry.id !in book && k <= |rest|
    && (forall id :: id in book ==> book[id].1 < now)
    && (forall i :: 0 <= i < k ==> rest[i].priority >= entry.priority)
    && (forall i :: k <= i < |rest| ==> entry.priority > rest[i].priority)
  }

  lemma FitHolds(rest: seq<Entry>, entry: Entry, k: nat, book: Book, now: nat)
    requires Fits(rest, entry, k, book, now)
    ensures Holds(rest[..k] + [entry] + rest[k..], book[entry.id := (entry, now)])
  {
    assert rest == rest[..k] + rest[k..];
    assert forall e :: e in rest <==> e in rest[..k] || e in rest[k..];
  }

  lemma OldPair(rest: seq<Entry>, entry: Entry, k: nat, book: Book, now: nat, a: nat, b: nat)
    requires Fits(rest, entry, k, book, now) && a < b < |rest|
    ensures Precedes(book[entry.id := (entry, now)], rest[a], rest[b])
  {
    assert rest[a] in rest && rest[b] in rest;
    assert Precedes(book, rest[a], rest[b]);
  }

  lemma NewPair(rest: seq<Entry>, entry: Entry, k: nat, book: Book, now: nat, a: nat)
    requires Fits(rest, entry, k, book, now) && a < |rest|
    ensures var book' := book[entry.id := (entry, now)];
            if a < k then Precedes(book', rest[a], entry) else Precedes(book', entry, rest[a])
  {
    assert rest[a] in rest;
  }

  lemma FitAscends(rest: seq<Entry>, entry: Entry, k: nat, book: Book, now: nat)
    requires Fits(rest, entry, k, book, now)
    ensures Ascending(Order(book[entry.id := (entry, now)]), rest[..k] + [entry] + rest[k..])
  {
    var book' := book[entry.id := (entry, now)];
    var r := rest[..k] + [entry] + rest[k..];
    forall i, j | 0 <= i < j < |r| ensures Precedes(book', r[i], r[j]) {
      if i == k {
        NewPair(rest, entry, k, book, now, j - 1);
      } else if j == k {
        NewPair(rest, entry, k, book, now, i);
      } else {
        OldPair(rest, entry, k, book, now, if i < k then i else i - 1, if j < k then j else j - 1);
      }
    }
  }

  lemma PutLists(rest: seq<Entry>, entry: Entry, book: Book, now: nat)
    requires Lists(rest, book) && entry.id !in book
    requires forall id :: id in book ==> book[id].1 < now
    ensures Lists(Sorting.Sort(Cmp(), rest + [entry]), book[entry.id := (entry, now)])
  {
    ListsIsOrdered(rest, book);
    var k := SortLands(rest, entry);
    FitHolds(rest, entry, k, book, now);
    FitAscends(rest, entry, k, book, now);
  }

  lemma UpdateLists(entries: seq<Entry>, entry: Entry, book: Book, now: nat)
    requires Lists(entries, book)
    requires forall id :: id in book ==> book[id].1 < now
    ensures Lists(Update(entries, entry), book[entry.id := (entry, now)])
  {
    var less := book - {entry.id};
    RemoveLists(entries, entry.id, book);
    PutLists(Remove(entries, entry.id), entry, less, now);
    Rebook(book, entry, now);
  }

  lemma Rebook(book: Book, entry: Entry, now: nat)
    ensures (book - {entry.id})[entry.id := (entry, now)] == book[entry.id := (entry, now)]
  {
  }

  // ---------- runs ----------

  datatype Op = Put(entry: Entry) | Drop(key: string) {
    function Id(): string { if Put? then entry.id else key }
  }

  function TableAfter(ops: seq<Op>): seq<Entry>
    decreases |ops|
  {
    if ops == [] then []
    else
      var t := TableAfter(ops[..|ops| - 1]);
      match ops[|ops| - 1]
      case Put(entry) => Update(t, entry)
      case Drop(id) => Remove(t, id)
  }

  // The entry an id has, with the position in the run of the update that put it.
  ghost function Decided(ops: seq<Op>, id: string): Option<(Entry, nat)>
    decreases |ops|
  {
    if ops == [] then None
    else
      var n := |ops| - 1;
      if ops[n].Id() != id then Decided(ops[..n], id)
      else if ops[n].Put? then Some((ops[n].entry, n)) else None
  }

  ghost predicate Settled(ops: seq<Op>, book: Book) {
    forall id :: Decided(ops, id) == if id in book then Some(book[id]) else None
  }

  // After any run the table is the one listing, by priority and then by time of last
  // update, of what the run's last operations on each id put.
  lemma {:induction false} RunLists(ops: seq<Op>) returns (book: Book)
    ensures Settled(ops, book) && Lists(TableAfter(ops), book)
    ensures forall id :: id in book ==> book[id].1 < |ops|
    decreases |ops|
  {
    if ops == [] {
      book := map[];
    } else {
      var n := |ops| - 1;
      var before := RunLists(ops[..n]);
      match ops[n]
      case Put(entry) =>
        UpdateLists(TableAfter(ops[..n]), entry, before, n);
        book := before[entry.id := (entry, n)];
      case Drop(id) =>
        RemoveLists(TableAfter(ops[..n]), id, before);
        book := before - {id};
      forall id ensures Decided(ops, id) == if id in book then Some(book[id]) else None {
        assert Decided(ops[..n], id) == if id in before then Some(before[id]) else None;
      }
    }
  }

  // ---------- the store and the lookup ----------

  class ErrorPageStore {
    var inner: seq<Entry>
    ghost var book: Book
    ghost var clock: nat

    ghost predicate Valid() reads this {
      Lists(inner, book) && forall id :: id in book ==> book[id].1 < clock
    }

    constructor ()
      ensures Valid() && inner == [] && book == map[]
    {
      inner, book, clock := [], map[], 0;
    }

    // `built` is the configuration after validation and compilation.
    method UpdatePage(built: Result<Entry>) returns (r: Result<()>)
      requires Valid()
      modifies this
      ensures Valid() && r.Ok? == built.Ok?
      ensures built.Err? ==> r.error == built.error && inner == old(inner) && book == old(book)
      ensures built.Ok? ==> book == old(book)[built.value.id := (built.value, old(clock))] && clock == old(clock) + 1
    {
      if built.Err? {
        return Err(built.error);
      }
      var entry := built.value;
      var entries := Retain(Other(entry.id), inner);
      entries := entries + [entry];
      entries := Sorting.Sort(Cmp(), entries);
      UpdateLists(inner, entry, book, clock);
      inner := entries;
      book, clock := book[entry.id := (entry, clock)], clock + 1;
      r := Ok(());
    }

    method RemovePage(id: string) returns (removed: bool)
      requires Valid()
      modifies this
      ensures Valid() && book == old(book) - {id} && clock == old(clock)
      ensures removed <==> id in old(book)
    {
      var entries := Retain(Other(id), inner);
      removed := |inner| != |entries|;
      RetainLength(Other(id), inner);
      RemoveLists(inner, id, book);
      assert id in book ==> book[id].0 in inner;
      if removed {
        inner := entries;
      }
      book := book - {id};
    }
  }

  predicate Serves(entry: Entry, status: nat) {
    entry.statuses == [] || status in entry.statuses
  }

  // `accepts` runs a compiled matcher against the request and its transient error status.
  predicate Applies(entry: Entry, status: nat, accepts: (nat, Option<nat>) -> bool) {
    Serves(entry, status) && (entry.matcher.Some? ==> accepts(entry.matcher.value, Some(status)))
  }

  class ProxyCtx {
    var errorStatus: Option<nat>
    const errorPages: ErrorPageStore

    constructor (pages: ErrorPageStore)
      ensures errorPages == pages && errorStatus == None
    {
      errorPages, errorStatus := pages, None;
    }

    // The matchers see the status being served, and of all entries that apply the one
    // first in lookup order is served.
    method LookupErrorPage(status: nat, accepts: (nat, Option<nat>) -> bool) returns (found: Option<Entry>)
      requires errorPages.Valid()
      modifies this
      ensures errorStatus == Some(status)
      // a page without statuses and without matcher serves everything; what is found lists the
      // status or none, and its matcher accepts the request with that status
      ensures found.None? ==>
                forall id :: id in errorPages.book ==>
                  var e := errorPages.book[id].0; e.statuses != [] || e.matcher.Some?
      ensures found.Some? ==>
                && (found.value.statuses == [] || status in found.value.statuses)
                && (found.value.matcher.Some? ==> accepts(found.value.matcher.value, Some(status)))
      ensures found.None? <==> forall id :: id in errorPages.book ==> !Applies(errorPages.book[id].0, status, accepts)
      ensures found.Some? ==>
                var book := errorPages.book;
                var e := found.value;
                && e.id in book && book[e.id].0 == e && Applies(e, status, accepts)
                && forall id :: id in book && Applies(book[id].0, status, accepts) && id != e.id ==>
                     || book[id].0.priority < e.priority
                     || (book[id].0.priority == e.priority && book[e.id].1 < book[id].1)
    {
      errorStatus := Some(status);
      var snapshot := errorPages.inner;
      ghost var book := errorPages.book;
      for k := 0 to |snapshot|
        invariant errorStatus == Some(status)
        invariant forall i :: 0 <= i < k ==> !Applies(snapshot[i], status, accepts)
      {
        var entry := snapshot[k];
        if entry.statuses != [] && status !in entry.statuses {
          continue;
        }
        if entry.matcher.Some? && !accepts(entry.matcher.value, errorStatus) {
          continue;
        }
        FirstIsLeast(snapshot, book, k, status, accepts);
        return Some(entry);
      }
      forall id | id in book ensures !Applies(book[id].0, status, accepts) {
        assert book[id].0 in snapshot;
      }
      found := None;
    }
  }

  lemma FirstIsLeast(entries: seq<Entry>, book: Book, k: nat, status: nat, accepts: (nat, Option<nat>) -> bool)
    requires Lists(entries, book) && k < |entries|
    requires forall i :: 0 <= i < k ==> !Applies(entries[i], status, accepts)
    ensures entries[k].id in book && book[entries[k].id].0 == entries[k]
    ensures forall id :: id in book && Applies(book[id].0, status, accepts) ==>
              id == entries[k].id || Precedes(book, entries[k], book[id].0)
  {
    assert entries[k] in entries;
    forall id | id in book && Applies(book[id].0, status, accepts)
      ensures id == entries[k].id || Precedes(book, entries[k], book[id].0)
    {
      assert book[id].0 in entries;
      var j: nat :| j < |entries| && entries[j] == book[id].0;
      assert k < j ==> Order(book)(entries[k], entries[j]);
    }
  }
}
