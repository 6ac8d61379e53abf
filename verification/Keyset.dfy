/** The retention scan: events in (time, id) order, read a page at a time after a
    cursor while earlier pages are being deleted. */
module Keyset {
  import opened Common
  import opened Objects

  /** ORDER BY event_time, event_id */
  predicate Before(a: Record, b: Record)
  {
    a.time < b.time || (a.time == b.time && a.id < b.id)
  }

  predicate Sorted(rs: seq<Record>)
  {
    forall i, j :: 0 <= i < j < |rs| ==> Before(rs[i], rs[j])
  }

  /** Rows are keyed by their own identifier. */
  predicate Keyed(live: map<Id, Record>)
  {
    forall id :: id in live ==> live[id].id == id
  }

  predicate IsFirst(live: map<Id, Record>, id: Id)
  {
    id in live && forall other :: other in live && other != id ==> Before(live[id], live[other])
  }

  lemma {:induction false} FirstExists(live: map<Id, Record>) returns (id: Id)
    requires live != map[] && Keyed(live)
    ensures IsFirst(live, id)
    decreases |live|
  {
    var x :| x in live;
    var rest := live - {x};
    if rest == map[] {
      forall other | other in live ensures other == x { assert other != x ==> other in rest; }
      id := x;
    } else {
      assert |rest| < |live| by { assert rest.Keys == live.Keys - {x}; }
      var y := FirstExists(rest);
      id := if Before(live[x], live[y]) then x else y;
      forall other | other in live && other != id ensures Before(live[id], live[other]) {
        if other != x && other != y { assert other in rest; }
      }
    }
  }

  /** The whole table in scan order. */
  function Listing(live: map<Id, Record>): seq<Record>
    requires Keyed(live)
    decreases |live|
  {
    if live == map[] then []
    else
      var id := FirstOf(live);
      assert (live - {id}).Keys == live.Keys - {id};
      [live[id]] + Listing(live - {id})
  }

  function FirstOf(live: map<Id, Record>): (id: Id)
    requires live != map[] && Keyed(live)
    ensures IsFirst(live, id)
  {
    assert exists id :: IsFirst(live, id) by { var id := FirstExists(live); }
    assert forall a, b :: IsFirst(live, a) && IsFirst(live, b) ==> a == b;
    var id :| id in live && IsFirst(live, id); id
  }

  predicate In(live: map<Id, Record>, r: Record)
  {
    r.id in live && live[r.id] == r
  }

  lemma {:induction false} ListingFacts(live: map<Id, Record>)
    requires Keyed(live)
    ensures Sorted(Listing(live))
    ensures forall r :: r in Listing(live) <==> In(live, r)
    decreases |live|
  {
    if live != map[] {
      var id := FirstOf(live);
      var rest := live - {id};
      assert rest.Keys == live.Keys - {id};
      ListingFacts(rest);
      forall r | In(live, r) ensures r in Listing(live) {
        if r.id != id { assert In(rest, r); }
      }
      var tail := Listing(rest);
      forall j | 0 <= j < |tail| ensures Before(live[id], tail[j]) {
        assert tail[j] in tail;
        assert In(rest, tail[j]);
      }
    }
  }

  lemma EmptyTogether(a: seq<Record>, b: seq<Record>)
    requires forall r :: r in a <==> r in b
    ensures a == [] <==> b == []
  {
    if a != [] { assert a[0] in b; }
    if b != [] { assert b[0] in a; }
  }

  /** A sorted listing is determined by its elements. */
  lemma {:induction false} SortedUnique(a: seq<Record>, b: seq<Record>)
    requires Sorted(a) && Sorted(b) && forall r :: r in a <==> r in b
    ensures a == b
  {
    EmptyTogether(a, b);
    if a != [] {
      assert a[0] in b;
      assert b[0] in a;
      var i :| 0 <= i < |b| && b[i] == a[0];
      var j :| 0 <= j < |a| && a[j] == b[0];
      assert a[0] == b[0];
      forall r ensures r in a[1..] <==> r in b[1..] {
        if r in a[1..] {
          var k :| 0 <= k < |a[1..]| && a[1..][k] == r;
          assert Before(a[0], a[k + 1]);
          assert r in a;
          assert r in b;
        }
        if r in b[1..] {
          var k :| 0 <= k < |b[1..]| && b[1..][k] == r;
          assert Before(b[0], b[k + 1]);
          assert r in b;
          assert r in a;
        }
      }
      SortedUnique(a[1..], b[1..]);
    }
  }

  // ---- Pages ----

  /** WHERE (event_time, event_id) > cursor, on rows in scan order. */
  function AfterCursor(rs: seq<Record>, cursor: Option<Record>): seq<Record>
  {
    if cursor.None? || rs == [] || Before(cursor.value, rs[0]) then rs else AfterCursor(rs[1..], cursor)
  }

  lemma {:induction false} AfterCursorFacts(rs: seq<Record>, cursor: Record)
    requires Sorted(rs)
    ensures Sorted(AfterCursor(rs, Some(cursor)))
    ensures forall r :: r in AfterCursor(rs, Some(cursor)) <==> r in rs && Before(cursor, r)
  {
    if rs != [] && !Before(cursor, rs[0]) {
      AfterCursorFacts(rs[1..], cursor);
      assert rs == [rs[0]] + rs[1..];
    }
  }

  /** Deleting rows at or before the cursor does not change what the scan sees after it:
      the next page continues the listing of the table as it was at the start. */
  lemma ScanContinues(live: map<Id, Record>, gone: set<Id>, k: nat)
    requires Keyed(live) && k <= |Listing(live)|
    requires forall id :: id in gone ==> exists i :: 0 <= i < k && Listing(live)[i].id == id
    ensures Keyed(live - gone)
    ensures AfterCursor(Listing(live - gone), if k == 0 then None else Some(Listing(live)[k - 1])) == Listing(live)[k..]
  {
    var all := Listing(live);
    ListingFacts(live);
    if k == 0 {
      assert live - gone == live;
    } else {
      var c := all[k - 1];
      var left := live - gone;
      ListingFacts(left);
      AfterCursorFacts(Listing(left), c);
      forall r ensures r in AfterCursor(Listing(left), Some(c)) <==> r in all[k..] {
        if r in all[k..] {
          var i :| 0 <= i < |all[k..]| && all[k..][i] == r;
          Survives(live, gone, k, k + i);
          assert Before(all[k - 1], all[k + i]);
        }
        if r in AfterCursor(Listing(left), Some(c)) {
          assert In(live, r);
          var i :| 0 <= i < |all| && all[i] == r;
          assert i < k - 1 ==> Before(all[i], all[k - 1]);
          assert i >= k;
          assert all[k..][i - k] == r;
        }
      }
      SortedUnique(AfterCursor(Listing(left), Some(c)), all[k..]);
    }
  }

  lemma Survives(live: map<Id, Record>, gone: set<Id>, k: nat, i: nat)
    requires Keyed(live) && k <= i < |Listing(live)|
    requires forall id :: id in gone ==> exists j :: 0 <= j < k && Listing(live)[j].id == id
    ensures In(live - gone, Listing(live)[i])
  {
    ListingFacts(live);
    var all := Listing(live);
    var r := all[i];
    assert In(live, r);
    forall j | 0 <= j < k ensures all[j].id != r.id {
      assert Before(all[j], all[i]);
      assert all[j] in all;
      assert In(live, all[j]);
    }
  }

  // ---- ScanRetentionEvents ----

  datatype Page = Page(events: seq<Record>, next: Option<Record>, hasMore: bool)

  function Take(rs: seq<Record>, n: nat): seq<Record>
  {
    if n <= |rs| then rs[..n] else rs
  }

  /** One more row than the limit is read to learn whether there is another page. */
  function PageOf(rest: seq<Record>, limit: nat): Page
  {
    var rows := Take(rest, limit + 1);
    var events := Take(rows, limit);
    Page(events, if events == [] then None else Some(events[|events| - 1]), |rows| > limit)
  }

  function ScanPage(live: map<Id, Record>, cursor: Option<Record>, limit: nat): Page
    requires Keyed(live)
  {
    if limit == 0 then Page([], None, false) else PageOf(AfterCursor(Listing(live), cursor), limit)
  }

  lemma PageOfSuffix(all: seq<Record>, k: nat, limit: nat)
    requires k <= |all| && limit >= 1
    ensures var page := PageOf(all[k..], limit);
            var n := if k + limit <= |all| then k + limit else |all|;
            && page.events == all[k..n]
            && (n > k ==> page.next == Some(all[n - 1]))
            && page.hasMore == (n < |all|)
  {
  }

  /** Read after k rows, with rows among them deleted, a page is the next stretch of the
      original listing, its cursor is its last row, and hasMore tells whether rows remain. */
  lemma PageContinues(live: map<Id, Record>, gone: set<Id>, k: nat, limit: nat)
    requires Keyed(live) && k <= |Listing(live)| && limit >= 1
    requires forall id :: id in gone ==> exists i :: 0 <= i < k && Listing(live)[i].id == id
    ensures Keyed(live - gone)
    ensures var all := Listing(live);
            var page := ScanPage(live - gone, if k == 0 then None else Some(all[k - 1]), limit);
            var n := if k + limit <= |all| then k + limit else |all|;
            && page.events == all[k..n]
            && (n > k ==> page.next == Some(all[n - 1]))
            && page.hasMore == (n < |all|)
  {
    hide Listing, PageOf;
    ScanContinues(live, gone, k);
    PageOfSuffix(Listing(live), k, limit);
  }
}
