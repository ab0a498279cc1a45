/** The conversation list: rows are inserted and bumped to later times during a walk. */
module Conversations {
  import opened Basics
  import opened Keyset
  import opened TextOrder

  datatype Row = Row(tenant: string, updatedAt: int)

  type Table = map<string, Row>

  function RowKey(t: Table, id: string): Key
    requires id in t
  {
    Key(t[id].updatedAt, id)
  }

  // No tenant means a superadmin, who sees every row.
  predicate Shown(r: Row, tenant: Option<string>) { tenant.None? || r.tenant == tenant.value }

  function Visible(t: Table, tenant: Option<string>): set<Key> {
    set id | id in t && Shown(t[id], tenant) :: RowKey(t, id)
  }

  function Views(tables: seq<Table>, tenant: Option<string>): seq<set<Key>> {
    seq(|tables|, i requires 0 <= i < |tables| => Visible(tables[i], tenant))
  }

  ghost function List(tables: seq<Table>, tenant: Option<string>, limit: nat): seq<Page> {
    Walk(Descending, Views(tables, tenant), None, limit)
  }

  // From one fetch to a later one: rows stay, keep their tenant, and only move up.
  predicate Bumped(t: Table, u: Table) {
    forall id :: id in t ==> id in u && u[id].tenant == t[id].tenant && t[id].updatedAt <= u[id].updatedAt
  }

  ghost predicate Live(tables: seq<Table>) {
    forall i, j :: 0 <= i < j < |tables| ==> Bumped(tables[i], tables[j])
  }

  // The same, for the key sets the queries see: a row that is seen again has not moved down.
  ghost predicate Rising(views: seq<set<Key>>) {
    && (forall i, j, k, l :: 0 <= i < j < |views| && k in views[i] && l in views[j] && k.id == l.id ==> k.at <= l.at)
    && (forall i :: 0 <= i < |views| ==> UniqueIds(views[i]))
  }

  ghost predicate UniqueIds(s: set<Key>) {
    forall k, l :: k in s && l in s && k.id == l.id ==> k == l
  }

  lemma ViewsRise(tables: seq<Table>, tenant: Option<string>)
    requires Live(tables)
    ensures Rising(Views(tables, tenant))
  {
    var views := Views(tables, tenant);
    forall i, j, k: Key, l: Key | 0 <= i < j < |views| && k in views[i] && l in views[j] && k.id == l.id
      ensures k.at <= l.at
    {
      assert Bumped(tables[i], tables[j]);
    }
  }

  lemma {:induction false} FollowsShort(
    d: Direction, views: seq<set<Key>>, cursor: Option<Key>, limit: nat, w: seq<Page>)
    requires Follows(d, views, cursor, limit, w)
    ensures |w| <= |views|
    decreases |views|
  {
    if |w| == 1 {
    } else {
      FollowsShort(d, views[1..], w[0].next, limit, w[1..]);
    }
  }

  // Every returned row was seen by some fetch.
  lemma {:induction false} ItemSource(
    d: Direction, views: seq<set<Key>>, cursor: Option<Key>, limit: nat, w: seq<Page>, k: Key)
    requires Follows(d, views, cursor, limit, w) && k in Items(w)
    ensures |w| <= |views| && exists i :: 0 <= i < |w| && k in views[i]
    decreases |views|
  {
    if |w| == 1 {
      ItemsSingle(w);
      assert k in views[0];
    } else if k in w[0].items {
      FollowsShort(d, views, cursor, limit, w);
      assert k in views[0];
    } else {
      ItemSource(d, views[1..], w[0].next, limit, w[1..], k);
      var i :| 0 <= i < |w[1..]| && k in views[1..][i];
      assert k in views[i + 1];
    }
  }

  // A row on the first page does not come back: by then it sorts no later than it did.
  lemma NotAgain(views: seq<set<Key>>, next: Option<Key>, limit: nat, more: seq<Page>, x: Key, y: Key)
    requires views != [] && Rising(views) && x in views[0]
    requires Follows(Descending, views[1..], next, limit, more) && y in Items(more) && Before(Descending, x, y)
    ensures x.id != y.id
  {
    ItemSource(Descending, views[1..], next, limit, more, y);
    var i :| 0 <= i < |more| && y in views[1..][i];
    assert y in views[i + 1];
    TextTotal(x.id, x.id);
  }

  lemma {:induction false} NoRowTwice(
    views: seq<set<Key>>, cursor: Option<Key>, limit: nat, w: seq<Page>, x: Key, y: Key)
    requires Rising(views) && Follows(Descending, views, cursor, limit, w)
    requires Before(Descending, x, y) && x in Items(w) && y in Items(w)
    ensures x.id != y.id
    decreases |views|
  {
    var p := w[0];
    BeforeTotal(Descending, x, y);
    BeforeTotal(Descending, x, x);
    if |w| == 1 {
      ItemsSingle(w);
      assert x in views[0] && y in views[0];
    } else if x in p.items {
      if y in p.items { assert x in views[0] && y in views[0]; }
      else { NotAgain(views, p.next, limit, w[1..], x, y); }
    } else {
      WalkInOrder(Descending, views[1..], p.next, limit, w[1..]);
      assert y !in p.items by {
        if y in p.items && y != p.next.value { BeforeTransitive(Descending, y, p.next.value, x); }
      }
      RestSteady(views);
      NoRowTwice(views[1..], p.next, limit, w[1..], x, y);
    }
  }

  lemma RestSteady(views: seq<set<Key>>)
    requires views != [] && Rising(views)
    ensures Rising(views[1..])
  {
  }

  // A row the tenant may see: its own, or any for the superadmin.
  predicate MayList(tenant: Option<string>, owner: string) {
    match tenant
    case None => true
    case Some(t) => owner == t
  }

  // The row was there at one of the fetches, with this time, and the tenant may see it.
  ghost predicate Genuine(tables: seq<Table>, fetches: nat, tenant: Option<string>, k: Key)
    requires fetches <= |tables|
  {
    exists i :: 0 <= i < fetches && k.id in tables[i] && tables[i][k.id].updatedAt == k.at
             && MayList(tenant, tables[i][k.id].tenant)
  }

  lemma ListedIsGenuine(tables: seq<Table>, tenant: Option<string>, limit: nat, k: Key)
    requires limit >= 1 && tables != [] && k in Items(List(tables, tenant, limit))
    ensures Genuine(tables, |List(tables, tenant, limit)|, tenant, k)
  {
    var views, w := Views(tables, tenant), List(tables, tenant, limit);
    WalkFollows(Descending, views, None, limit);
    ItemSource(Descending, views, None, limit, w, k);
    var i :| 0 <= i < |w| && k in views[i];
    assert k in Visible(tables[i], tenant);
  }

  // No row of the tenant at the first fetch is missing that was not bumped meanwhile.
  ghost predicate HasUntouched(tables: seq<Table>, fetches: nat, tenant: Option<string>, all: seq<Key>)
    requires fetches <= |tables| && tables != []
  {
    forall id :: id in tables[0] && MayList(tenant, tables[0][id].tenant) && Untouched(tables, fetches, id) ==>
      Key(tables[0][id].updatedAt, id) in all
  }

  // MAIN: walking the list while rows are inserted and bumped.  Rows come in descending
  // (updated_at, id) order, all of them the tenant's own rows as they stood at a fetch, no
  // conversation twice, and a finished walk has returned every conversation of the tenant at
  // the first fetch that was not bumped meanwhile.
  lemma ConversationsWalk(tables: seq<Table>, tenant: Option<string>, limit: nat)
    requires limit >= 1 && tables != [] && Live(tables)
    ensures var w := List(tables, tenant, limit);
            var all := Items(w);
            && InOrder(Descending, all)
            && (forall k :: k in all ==> Genuine(tables, |w|, tenant, k))
            && (forall m, n :: 0 <= m < n < |all| ==> all[m].id != all[n].id)
            && (Complete(w) ==> HasUntouched(tables, |w|, tenant, all))
  {
    var views := Views(tables, tenant);
    var w := List(tables, tenant, limit);
    ViewsRise(tables, tenant);
    WalkFollows(Descending, views, None, limit);
    WalkInOrder(Descending, views, None, limit, w);
    forall m, n | 0 <= m < n < |Items(w)| ensures Items(w)[m].id != Items(w)[n].id {
      NoRowTwice(views, None, limit, w, Items(w)[m], Items(w)[n]);
    }
    forall k | k in Items(w) ensures Genuine(tables, |w|, tenant, k) { ListedIsGenuine(tables, tenant, limit, k); }
    forall id | Complete(w) && id in tables[0] && MayList(tenant, tables[0][id].tenant) && Untouched(tables, |w|, id)
      ensures RowKey(tables[0], id) in Items(w)
    {
      forall i | 0 <= i < |w| ensures RowKey(tables[0], id) in views[i] {
        assert tables[i][id] == tables[0][id];
        assert RowKey(tables[i], id) in Visible(tables[i], tenant);
      }
      WalkCovers(Descending, views, None, limit, w, RowKey(tables[0], id));
    }
  }

  ghost predicate Untouched(tables: seq<Table>, n: nat, id: string)
    requires n <= |tables| && tables != [] && id in tables[0]
  {
    forall i :: 0 <= i < n ==> id in tables[i] && tables[i][id] == tables[0][id]
  }

  // ---------------------------------------------------------------- length of a walk

  function Ids(s: set<Key>): set<string> { set k | k in s :: k.id }

  lemma {:induction false} IdsSize(s: set<Key>)
    requires UniqueIds(s)
    ensures |Ids(s)| == |s|
    decreases |s|
  {
    if s == {} {
    } else {
      var k :| k in s;
      IdsSize(s - {k});
      assert Ids(s) == Ids(s - {k}) + {k.id};
    }
  }

  // Rows unknown to an earlier fetch are newer than `top`.
  ghost predicate Newcomers(views: seq<set<Key>>, top: int) {
    forall i, j, k :: 0 <= i < j < |views| && k in views[j] && k.id !in Ids(views[i]) ==> k.at > top
  }

  // What is left behind the next cursor was left behind this one, and is not on this page.
  lemma LeftShrinks(views: seq<set<Key>>, cursor: Option<Key>, limit: nat, p: Page, top: int, k: Key)
    requires |views| > 1 && Rising(views) && Newcomers(views, top)
    requires forall x :: x in After(Descending, views[0], cursor) ==> x.at <= top
    requires IsPage(Descending, views[0], cursor, limit, p) && p.next.Some?
    requires k in After(Descending, views[1], p.next)
    ensures k.at <= top && k.id in Ids(After(Descending, views[0], cursor) - Elems(p.items))
  {
    assert k.id in Ids(views[0]);
    var l :| l in views[0] && l.id == k.id;
    assert l.at <= k.at;
    var c := p.next.value;
    assert Less(l, c);
    if cursor.Some? { BeforeTransitive(Descending, cursor.value, c, l); }
    assert l in After(Descending, views[0], cursor);
    BeforeTotal(Descending, l, c);
    BeforeTotal(Descending, c, c);
    assert l !in Elems(p.items);
  }

  lemma LeftCount(views: seq<set<Key>>, cursor: Option<Key>, limit: nat, p: Page, top: int)
    requires |views| > 1 && Rising(views) && Newcomers(views, top)
    requires forall x :: x in After(Descending, views[0], cursor) ==> x.at <= top
    requires IsPage(Descending, views[0], cursor, limit, p) && p.next.Some?
    ensures |After(Descending, views[1], p.next)| + limit <= |After(Descending, views[0], cursor)|
    ensures forall x :: x in After(Descending, views[1], p.next) ==> x.at <= top
  {
    var here, there := After(Descending, views[0], cursor), After(Descending, views[1], p.next);
    var gone := Elems(p.items);
    forall k | k in there ensures k.at <= top && k.id in Ids(here - gone) {
      LeftShrinks(views, cursor, limit, p, top, k);
    }
    IdsSize(there);
    IdsSize(here - gone);
    SubsetSize(Ids(there), Ids(here - gone));
    ElemsSize(p.items);
    assert gone <= here;
    assert |here - gone| == |here| - |gone|;
  }

  lemma {:induction false} ElemsSize(ks: seq<Key>)
    requires InOrder(Descending, ks)
    ensures |Elems(ks)| == |ks|
    decreases |ks|
  {
    if ks == [] {
    } else {
      var last := ks[|ks| - 1];
      ElemsSize(ks[..|ks| - 1]);
      if last in ks[..|ks| - 1] { BeforeTotal(Descending, last, last); }
      assert Elems(ks) == Elems(ks[..|ks| - 1]) + {last};
    }
  }

  lemma PagesAdd(pages: nat, views: nat, limit: nat, left: nat, n: nat)
    requires left + limit <= n && limit < n
    requires pages > 1 ==> (pages - 1) * limit < left
    ensures pages * limit < n
    ensures (views + 1) * limit >= n ==> views * limit >= left
  {
    assert pages * limit == (pages - 1) * limit + limit;
    assert (views + 1) * limit == views * limit + limit;
  }

  // At most ceil(n / limit) pages for n rows, and fetching that often reaches the end.
  ghost predicate Short(pages: seq<Page>, fetches: nat, n: nat, limit: nat) {
    && (|pages| > 1 ==> (|pages| - 1) * limit < n)
    && (fetches * limit >= n ==> Complete(pages))
  }

  lemma ShortStep(pages: seq<Page>, more: seq<Page>, fetches: nat, n: nat, left: nat, limit: nat)
    requires |pages| == |more| + 1 && (Complete(pages) <==> Complete(more))
    requires left + limit <= n && limit < n && Short(more, fetches, left, limit)
    ensures Short(pages, fetches + 1, n, limit)
  {
    PagesAdd(|more|, fetches, limit, left, n);
  }

  lemma ShortLast(views: seq<set<Key>>, cursor: Option<Key>, limit: nat, w: seq<Page>)
    requires Follows(Descending, views, cursor, limit, w) && |w| == 1
    ensures Short(w, |views|, |After(Descending, views[0], cursor)|, limit)
  {
  }

  lemma RestNewcomers(views: seq<set<Key>>, top: int)
    requires views != [] && Newcomers(views, top)
    ensures Newcomers(views[1..], top)
  {
  }

  lemma RestOfWalk(views: seq<set<Key>>, cursor: Option<Key>, limit: nat, w: seq<Page>, top: int)
    requires Rising(views) && Newcomers(views, top) && Follows(Descending, views, cursor, limit, w) && |w| > 1
    requires forall x :: x in After(Descending, views[0], cursor) ==> x.at <= top
    ensures Follows(Descending, views[1..], w[0].next, limit, w[1..]) && views[1..][0] == views[1]
    ensures Rising(views[1..]) && Newcomers(views[1..], top)
    ensures forall x :: x in After(Descending, views[1], w[0].next) ==> x.at <= top
    ensures |After(Descending, views[1], w[0].next)| + limit <= |After(Descending, views[0], cursor)|
    ensures limit < |After(Descending, views[0], cursor)|
  {
    LeftCount(views, cursor, limit, w[0], top);
    RestSteady(views);
    RestNewcomers(views, top);
  }

  lemma CompleteRest(w: seq<Page>)
    requires |w| > 1
    ensures |w| == |w[1..]| + 1 && (Complete(w) <==> Complete(w[1..]))
  {
  }

  // Each page leaves at least its own length less to fetch.
  ghost predicate Shrinks(views: seq<set<Key>>, cursor: Option<Key>, limit: nat, w: seq<Page>)
    requires views != []
    decreases |views|
  {
    var n := |After(Descending, views[0], cursor)|;
    if |w| <= 1 || |views| == 1 then Short(w, |views|, n, limit)
    else
      && |After(Descending, views[1..][0], w[0].next)| + limit <= n && limit < n
      && Shrinks(views[1..], w[0].next, limit, w[1..])
  }

  lemma {:induction false} WalkShrinks(views: seq<set<Key>>, cursor: Option<Key>, limit: nat, w: seq<Page>, top: int)
    requires Rising(views) && Newcomers(views, top) && Follows(Descending, views, cursor, limit, w)
    requires forall x :: x in After(Descending, views[0], cursor) ==> x.at <= top
    ensures Shrinks(views, cursor, limit, w)
    decreases |views|
  {
    if |w| == 1 {
      ShortLast(views, cursor, limit, w);
    } else {
      RestOfWalk(views, cursor, limit, w, top);
      WalkShrinks(views[1..], w[0].next, limit, w[1..], top);
    }
  }

  lemma {:induction false} WalkLength(views: seq<set<Key>>, cursor: Option<Key>, limit: nat, w: seq<Page>)
    requires views != [] && w != [] && Shrinks(views, cursor, limit, w)
    ensures Short(w, |views|, |After(Descending, views[0], cursor)|, limit)
    decreases |views|
  {
    if |w| <= 1 || |views| == 1 {
    } else {
      var n, left := |After(Descending, views[0], cursor)|, |After(Descending, views[1..][0], w[0].next)|;
      WalkLength(views[1..], w[0].next, limit, w[1..]);
      CompleteRest(w);
      ShortStep(w, w[1..], |views[1..]|, n, left, limit);
    }
  }

  lemma VisibleCount(t: Table, tenant: Option<string>)
    ensures |Visible(t, tenant)| == |set id | id in t && MayList(tenant, t[id].tenant)|
  {
    var ids := set id | id in t && MayList(tenant, t[id].tenant);
    assert Ids(Visible(t, tenant)) == ids by {
      forall id | id in ids ensures id in Ids(Visible(t, tenant)) { assert RowKey(t, id) in Visible(t, tenant); }
    }
    IdsSize(Visible(t, tenant));
  }

  lemma StaysVisible(t: Table, u: Table, tenant: Option<string>, k: Key)
    requires Bumped(t, u) && k in Visible(u, tenant)
    ensures k.id in t ==> k.id in Ids(Visible(t, tenant))
  {
    if k.id in t { assert RowKey(t, k.id) in Visible(t, tenant); }
  }

  // MAIN: rows created after the first fetch never lengthen the walk.  It takes at most
  // ceil(n / limit) pages for the n rows present at the first fetch (one page if n is 0),
  // and a client that fetches that often has reached the end.
  lemma ConversationsWalkEnds(tables: seq<Table>, tenant: Option<string>, limit: nat, clock: int)
    requires limit >= 1 && tables != [] && Live(tables)
    requires forall id :: id in tables[0] ==> tables[0][id].updatedAt <= clock
    requires forall i, id :: 0 <= i < |tables| && id in tables[i] && id !in tables[0] ==>
               tables[i][id].updatedAt > clock
    ensures var w := List(tables, tenant, limit);
            var n := |set id | id in tables[0] && MayList(tenant, tables[0][id].tenant)|;
            && (|w| > 1 ==> (|w| - 1) * limit < n)
            && (|tables| * limit >= n ==> Complete(w))
  {
    var views := Views(tables, tenant);
    ViewsRise(tables, tenant);
    forall i, j, k: Key | 0 <= i < j < |views| && k in views[j] && k.id !in Ids(views[i])
      ensures k.at > clock
    {
      assert Bumped(tables[i], tables[j]);
      assert i > 0 ==> Bumped(tables[0], tables[i]);
      StaysVisible(tables[i], tables[j], tenant, k);
    }
    WalkFollows(Descending, views, None, limit);
    WalkShrinks(views, None, limit, List(tables, tenant, limit), clock);
    WalkLength(views, None, limit, List(tables, tenant, limit));
    VisibleCount(tables[0], tenant);
  }
}
