/** The order of text columns: character by character, a prefix first. */
module TextOrder {

  predicate TextLess(a: string, b: string) {
    b != [] && (a == [] || a[0] < b[0] || (a[0] == b[0] && TextLess(a[1..], b[1..])))
  }

  lemma {:induction false} TextTotal(a: string, b: string)
    ensures a == b || TextLess(a, b) || TextLess(b, a)
    ensures !(TextLess(a, b) && TextLess(b, a))
    ensures !TextLess(a, a)
  {
    if a == [] {
    } else {
      TextTotal(a[1..], if b != [] then b[1..] else []);
      if b != [] && a[0] == b[0] && a[1..] == b[1..] {
        assert a == [a[0]] + a[1..] && b == [b[0]] + b[1..];
      }
    }
  }

  lemma {:induction false} TextTransitive(a: string, b: string, c: string)
    requires TextLess(a, b) && TextLess(b, c)
    ensures TextLess(a, c)
  {
    if a != [] && b != [] && c != [] && a[0] == b[0] == c[0] {
      TextTransitive(a[1..], b[1..], c[1..]);
    }
  }
}

/**
 * Keyset pagination: sorted queries with a (timestamp, id) cursor, the page a
 * service call cuts from them, and a client that walks page after page while
 * the table changes underneath.
 */
module Keyset {
  import opened Basics
  import opened TextOrder

  datatype Key = Key(at: int, id: string)

  datatype Direction = Ascending | Descending

  predicate Less(a: Key, b: Key) { a.at < b.at || (a.at == b.at && TextLess(a.id, b.id)) }

  // a is listed before b
  predicate Before(d: Direction, a: Key, b: Key) {
    if d.Ascending? then Less(a, b) else Less(b, a)
  }

  lemma BeforeTotal(d: Direction, a: Key, b: Key)
    ensures a == b || Before(d, a, b) || Before(d, b, a)
    ensures !(Before(d, a, b) && Before(d, b, a))
    ensures !Before(d, a, a)
  {
    TextTotal(a.id, b.id);
    TextTotal(a.id, a.id);
  }

  lemma BeforeTransitive(d: Direction, a: Key, b: Key, c: Key)
    requires Before(d, a, b) && Before(d, b, c)
    ensures Before(d, a, c)
  {
    if a.at == b.at == c.at {
      if d.Ascending? { TextTransitive(a.id, b.id, c.id); } else { TextTransitive(c.id, b.id, a.id); }
    }
  }

  // ---------------------------------------------------------------- sorting

  ghost predicate InOrder(d: Direction, ks: seq<Key>) {
    forall i, j :: 0 <= i < j < |ks| ==> Before(d, ks[i], ks[j])
  }

  // ks lists the rows s in order
  ghost predicate Lists(d: Direction, s: set<Key>, ks: seq<Key>) {
    InOrder(d, ks) && Elems(ks) == s && |ks| == |s|
  }

  ghost predicate IsFirst(d: Direction, s: set<Key>, m: Key) {
    m in s && forall k :: k in s && k != m ==> Before(d, m, k)
  }

  lemma {:induction false} FirstExists(d: Direction, s: set<Key>) returns (m: Key)
    requires s != {}
    ensures IsFirst(d, s, m)
    decreases |s|
  {
    var x :| x in s;
    if s == {x} {
      m := x;
    } else {
      m := FirstExists(d, s - {x});
      BeforeTotal(d, x, m);
      if !Before(d, m, x) {
        forall k | k in s && k != x ensures Before(d, x, k) {
          if k != m { BeforeTransitive(d, x, m, k); }
        }
        m := x;
      }
    }
  }

  lemma {:induction false} ListExists(d: Direction, s: set<Key>) returns (ks: seq<Key>)
    ensures Lists(d, s, ks)
    decreases |s|
  {
    if s == {} {
      ks := [];
    } else {
      var m := FirstExists(d, s);
      var rest := ListExists(d, s - {m});
      ks := [m] + rest;
      assert Elems(ks) == {m} + Elems(rest);
      forall i, j | 0 <= i < j < |ks| ensures Before(d, ks[i], ks[j]) {
        assert ks[j] in Elems(rest);
      }
    }
  }

  // ORDER BY timestamp, id: the one list of these rows in order.
  ghost function Sorted(d: Direction, s: set<Key>): (ks: seq<Key>)
    ensures Lists(d, s, ks)
  {
    assert exists ks :: Lists(d, s, ks) by { var ks := ListExists(d, s); }
    var ks :| Lists(d, s, ks);
    ks
  }

  lemma NonEmpty(a: seq<Key>)
    ensures a != [] ==> Elems(a) != {}
  {
    if a != [] { assert a[0] in Elems(a); }
  }

  // A list in order is determined by its elements.
  lemma {:induction false} InOrderUnique(d: Direction, a: seq<Key>, b: seq<Key>)
    requires InOrder(d, a) && InOrder(d, b) && Elems(a) == Elems(b)
    ensures a == b
    decreases |a|
  {
    if a == [] {
      NonEmpty(b);
    } else {
      assert a[0] in Elems(a) && a[0] in b;
      assert b[0] in Elems(b) && b[0] in a;
      BeforeTotal(d, a[0], b[0]);
      assert a[0] == b[0];
      forall k ensures k in a[1..] <==> k in b[1..] {
        RestElems(d, a, k);
        RestElems(d, b, k);
        assert k in a <==> k in Elems(a);
        assert k in b <==> k in Elems(b);
      }
      InOrderUnique(d, a[1..], b[1..]);
      assert a == [a[0]] + a[1..] && b == [b[0]] + b[1..];
    }
  }

  lemma RestElems(d: Direction, a: seq<Key>, k: Key)
    requires InOrder(d, a) && a != []
    ensures k in a[1..] <==> k in a && k != a[0]
  {
    BeforeTotal(d, a[0], a[0]);
    if k in a && k != a[0] {
      var i :| 0 <= i < |a| && a[i] == k;
      assert a[1..][i - 1] == k;
    }
  }

  // The rows a cursor leaves: the keyset condition of the query.
  function After(d: Direction, s: set<Key>, cursor: Option<Key>): set<Key> {
    if cursor.None? then s else set k | k in s && Before(d, cursor.value, k)
  }

  // Cutting the sorted list behind its m-th row is the same as asking again from that row.
  lemma SortedAfter(d: Direction, s: set<Key>, m: nat)
    requires 0 < m <= |Sorted(d, s)|
    ensures Sorted(d, After(d, s, Some(Sorted(d, s)[m - 1]))) == Sorted(d, s)[m..]
  {
    var all := Sorted(d, s);
    var c := all[m - 1];
    var rest := After(d, s, Some(c));
    assert forall j :: 0 <= j < m - 1 ==> Before(d, all[j], c);
    forall k ensures k in all[m..] <==> k in rest {
      if k in all[m..] {
        var i :| m <= i < |all| && all[i] == k;
        assert k in Elems(all);
      }
      if k in rest {
        assert k in Elems(all);
        var i :| 0 <= i < |all| && all[i] == k;
        BeforeTotal(d, c, k);
        assert all[m..][i - m] == k;
      }
    }
    assert Elems(all[m..]) == rest;
    InOrderUnique(d, all[m..], Sorted(d, rest));
  }

  // ---------------------------------------------------------------- one page

  datatype Page = Page(items: seq<Key>, next: Option<Key>)

  function Take<T>(s: seq<T>, n: nat): seq<T> { if |s| <= n then s else s[..n] }

  // The repository query: sorted, behind the cursor, at most n rows.
  ghost function Query(d: Direction, s: set<Key>, cursor: Option<Key>, n: nat): seq<Key> {
    Take(Sorted(d, After(d, s, cursor)), n)
  }

  // The service call: ask for one row more than the page, cut it off, point at the last row.
  ghost function FetchPage(d: Direction, s: set<Key>, cursor: Option<Key>, limit: nat): Page {
    var rows := Query(d, s, cursor, limit + 1);
    var hasMore := |rows| > limit;
    var items := if hasMore then rows[..limit] else rows;
    Page(items, if hasMore && items != [] then Some(items[|items| - 1]) else None)
  }

  // What a page is, without saying how it is computed.
  lemma PageMeaning(d: Direction, s: set<Key>, cursor: Option<Key>, limit: nat)
    requires limit >= 1
    ensures var p := FetchPage(d, s, cursor, limit);
            var rest := Sorted(d, After(d, s, cursor));
            && p.items == Take(rest, limit)
            && (p.next.None? <==> |After(d, s, cursor)| <= limit)
            && (p.next.Some? ==> |p.items| == limit && p.next.value == p.items[limit - 1])
  {
  }

  // ---------------------------------------------------------------- a walk

  // views[i] is what the query can see at the time of the i-th fetch.
  ghost function Walk(d: Direction, views: seq<set<Key>>, cursor: Option<Key>, limit: nat): (w: seq<Page>)
    ensures |w| <= |views|
    decreases |views|
  {
    if views == [] then []
    else
      var p := FetchPage(d, views[0], cursor, limit);
      [p] + (if p.next.None? then [] else Walk(d, views[1..], p.next, limit))
  }

  function Items(pages: seq<Page>): seq<Key> {
    if pages == [] then [] else pages[0].items + Items(pages[1..])
  }

  predicate Complete(pages: seq<Page>) { pages != [] && pages[|pages| - 1].next.None? }

  // What a client can rely on: the rows of a page are in order and behind the cursor; what
  // the page leaves out sorts behind its last row, which is the next cursor.
  ghost predicate IsPage(d: Direction, s: set<Key>, cursor: Option<Key>, limit: nat, p: Page) {
    && InOrder(d, p.items)
    && (forall k :: k in p.items ==> k in After(d, s, cursor))
    && (p.next.None? ==> forall k :: k in After(d, s, cursor) ==> k in p.items)
    && (p.next.Some? ==>
          && |p.items| == limit < |After(d, s, cursor)| && p.next.value in p.items
          && (forall k :: k in p.items ==> k == p.next.value || Before(d, k, p.next.value))
          && (forall k :: k in After(d, s, cursor) && k !in p.items ==> Before(d, p.next.value, k)))
  }

  lemma FetchIsPage(d: Direction, s: set<Key>, cursor: Option<Key>, limit: nat)
    requires limit >= 1
    ensures IsPage(d, s, cursor, limit, FetchPage(d, s, cursor, limit))
  {
    var p := FetchPage(d, s, cursor, limit);
    var rest := Sorted(d, After(d, s, cursor));
    PageMeaning(d, s, cursor, limit);
    forall k | k in p.items ensures k in After(d, s, cursor) {
      assert k in Elems(rest);
    }
    forall k | k in After(d, s, cursor) && k !in p.items
      ensures p.next.Some? && Before(d, p.next.value, k)
    {
      assert k in Elems(rest);
      var i :| 0 <= i < |rest| && rest[i] == k;
      assert forall j :: 0 <= j < |p.items| ==> p.items[j] == rest[j];
      assert i >= |p.items|;
    }
  }

  // Pages w, fetched one after the other, each from the cursor of the page before.
  ghost predicate Follows(d: Direction, views: seq<set<Key>>, cursor: Option<Key>, limit: nat, w: seq<Page>)
    decreases |views|
  {
    && views != [] && w != [] && IsPage(d, views[0], cursor, limit, w[0])
    && if w[0].next.None? || |views| == 1 then |w| == 1
       else Follows(d, views[1..], w[0].next, limit, w[1..])
  }

  lemma {:induction false} WalkFollows(d: Direction, views: seq<set<Key>>, cursor: Option<Key>, limit: nat)
    requires limit >= 1 && views != []
    ensures Follows(d, views, cursor, limit, Walk(d, views, cursor, limit))
    decreases |views|
  {
    var p := FetchPage(d, views[0], cursor, limit);
    FetchIsPage(d, views[0], cursor, limit);
    if p.next.None? || |views| == 1 {
      LastPage(d, views, cursor, limit);
    } else {
      WalkFollows(d, views[1..], p.next, limit);
      assert Walk(d, views, cursor, limit)[1..] == Walk(d, views[1..], p.next, limit);
    }
  }

  lemma LastPage(d: Direction, views: seq<set<Key>>, cursor: Option<Key>, limit: nat)
    requires views != []
    requires FetchPage(d, views[0], cursor, limit).next.None? || |views| == 1
    ensures var p := FetchPage(d, views[0], cursor, limit);
            Walk(d, views, cursor, limit) == [p] && Items([p]) == p.items
  {
    var p := FetchPage(d, views[0], cursor, limit);
    assert p.next.Some? ==> Walk(d, views[1..], p.next, limit) == [];
    assert [p][1..] == [] && Items([]) == [];
  }

  lemma ItemsSingle(w: seq<Page>)
    requires |w| == 1
    ensures Items(w) == w[0].items
  {
    assert w[1..] == [] && Items([]) == [];
  }

  // Rows behind the last row of a page are behind every row of it.
  lemma BehindPage(d: Direction, p: Page, more: seq<Key>)
    requires p.next.Some? && InOrder(d, p.items) && InOrder(d, more)
    requires forall k :: k in p.items ==> k == p.next.value || Before(d, k, p.next.value)
    requires forall k :: k in more ==> Before(d, p.next.value, k)
    ensures InOrder(d, p.items + more)
  {
    var all := p.items + more;
    forall i, j | 0 <= i < j < |all| ensures Before(d, all[i], all[j]) {
      if i < |p.items| <= j {
        assert all[j] in more && all[i] in p.items;
        if all[i] != p.next.value { BeforeTransitive(d, all[i], p.next.value, all[j]); }
      }
    }
  }

  // MAIN: whatever happens to the table, the rows returned over a whole walk come in
  // strict list order, all behind the cursor the walk started from.
  lemma {:induction false} WalkInOrder(
    d: Direction, views: seq<set<Key>>, cursor: Option<Key>, limit: nat, w: seq<Page>)
    requires Follows(d, views, cursor, limit, w)
    ensures InOrder(d, Items(w))
    ensures cursor.Some? ==> forall k :: k in Items(w) ==> Before(d, cursor.value, k)
    decreases |views|
  {
    var p := w[0];
    if |w| == 1 {
      ItemsSingle(w);
    } else {
      WalkInOrder(d, views[1..], p.next, limit, w[1..]);
      BehindPage(d, p, Items(w[1..]));
      forall k | k in Items(w) && cursor.Some? ensures Before(d, cursor.value, k) {
        if k !in p.items { BeforeTransitive(d, cursor.value, p.next.value, k); }
      }
    }
  }

  // MAIN: a row every fetch of a complete walk could see is returned.
  lemma {:induction false} WalkCovers(
    d: Direction, views: seq<set<Key>>, cursor: Option<Key>, limit: nat, w: seq<Page>, k: Key)
    requires Follows(d, views, cursor, limit, w) && Complete(w) && |w| <= |views|
    requires forall i :: 0 <= i < |w| ==> k in views[i]
    requires cursor.Some? ==> Before(d, cursor.value, k)
    ensures k in Items(w)
    decreases |views|
  {
    assert k in views[0];
    if k !in w[0].items {
      WalkCovers(d, views[1..], w[0].next, limit, w[1..], k);
    }
  }

  // ---------------------------------------------------------------- growing lists

  // New rows all sort behind the cursor the next fetch starts from.
  ghost predicate Orderly(d: Direction, views: seq<set<Key>>, cursor: Option<Key>, limit: nat)
    decreases |views|
  {
    if views == [] then true
    else
      var p := FetchPage(d, views[0], cursor, limit);
      p.next.Some? && |views| > 1 ==>
        && Grows(d, views[0], views[1], p.next.value)
        && Orderly(d, views[1..], p.next, limit)
  }

  predicate Grows(d: Direction, s: set<Key>, t: set<Key>, cursor: Key) {
    s <= t && forall k :: k in t && k !in s ==> Before(d, cursor, k)
  }

  // The first m rows of s, followed by everything of t behind them.
  lemma JoinBehind(d: Direction, s: set<Key>, t: set<Key>, m: nat)
    requires s <= t && 0 < m <= |Sorted(d, s)| && Grows(d, s, t, Sorted(d, s)[m - 1])
    ensures Sorted(d, t) == Sorted(d, s)[..m] + Sorted(d, After(d, t, Some(Sorted(d, s)[m - 1])))
  {
    var a := Sorted(d, s);
    var c := a[m - 1];
    var tail := Sorted(d, After(d, t, Some(c)));
    var joined := a[..m] + tail;
    forall i, j | 0 <= i < j < |joined| ensures Before(d, joined[i], joined[j]) {
      if i < m <= j {
        assert joined[j] in Elems(tail);
        if i < m - 1 { BeforeTransitive(d, a[i], c, joined[j]); }
      }
    }
    forall k ensures k in Elems(joined) <==> k in t {
      assert k in a <==> k in Elems(a);
      assert k in tail <==> k in Elems(tail);
      assert k in joined <==> k in a[..m] || k in tail;
      if k in t && !Before(d, c, k) {
        var i :| 0 <= i < |a| && a[i] == k;
        assert a[..m][i] == k;
      }
    }
    InOrderUnique(d, joined, Sorted(d, t));
  }

  // Elements that a common prefix does not hold sort behind it.
  lemma BehindPrefix(d: Direction, a: seq<Key>, b: seq<Key>, m: nat, k: Key)
    requires InOrder(d, b) && 0 < m <= |a| && m <= |b| && b[..m] == a[..m]
    requires k in b && k !in a
    ensures Before(d, a[m - 1], k)
  {
    assert forall i :: 0 <= i < m ==> b[i] == b[..m][i] == a[..m][i] == a[i];
  }

  // The first m rows stay the first m rows exactly when every new row sorts behind the m-th.
  lemma PrefixKeptExactly(d: Direction, s: set<Key>, t: set<Key>, m: nat)
    requires s <= t && 0 < m <= |Sorted(d, s)|
    ensures Grows(d, s, t, Sorted(d, s)[m - 1]) <==>
              m <= |Sorted(d, t)| && Sorted(d, t)[..m] == Sorted(d, s)[..m]
  {
    var a, b := Sorted(d, s), Sorted(d, t);
    if Grows(d, s, t, a[m - 1]) {
      JoinBehind(d, s, t, m);
    } else if m <= |b| && b[..m] == a[..m] {
      var k :| k in t && k !in s && !Before(d, a[m - 1], k);
      assert k in Elems(b) && k !in Elems(a);
      BehindPrefix(d, a, b, m, k);
    }
  }

  lemma CutContinues(list: seq<Key>, m: nat, rest: seq<Key>, p: Page, limit: nat)
    requires limit >= 1 && m <= |list| && rest == list[m..] && p.items == Take(rest, limit)
    requires p.next.None? <==> |rest| <= limit
    requires p.next.Some? ==> |p.items| == limit && p.next.value == p.items[limit - 1]
    ensures Continues(list, m, p)
  {
  }

  // p is the stretch of the list from m on, and points at its own last row.
  ghost predicate Continues(list: seq<Key>, m: nat, p: Page) {
    && m + |p.items| <= |list| && p.items == list[m..m + |p.items|]
    && (p.next.None? ==> m + |p.items| == |list|)
    && (p.next.Some? ==> |p.items| > 0 && p.next.value == list[m + |p.items| - 1])
  }

  // A page continues the list right where the cursor stands.
  lemma PageContinues(d: Direction, s: set<Key>, m: nat, cursor: Option<Key>, limit: nat)
    requires limit >= 1 && m <= |Sorted(d, s)|
    requires cursor == if m == 0 then None else Some(Sorted(d, s)[m - 1])
    ensures Continues(Sorted(d, s), m, FetchPage(d, s, cursor, limit))
  {
    var rest := After(d, s, cursor);
    assert Sorted(d, rest) == Sorted(d, s)[m..] by {
      if m > 0 { SortedAfter(d, s, m); } else { assert Sorted(d, s)[0..] == Sorted(d, s); }
    }
    PageMeaning(d, s, cursor, limit);
    CutContinues(Sorted(d, s), m, Sorted(d, rest), FetchPage(d, s, cursor, limit), limit);
  }

  lemma StretchGrows(list: seq<Key>, m: nat, p: Page, list1: seq<Key>, more: seq<Key>, all: seq<Key>)
    requires Continues(list, m, p) && all == p.items + more
    requires m + |p.items| <= |list1| && list1[..m + |p.items|] == list[..m + |p.items|]
    ensures list[..m] + all == list1[..m + |p.items|] + more
  {
    assert list[..m] + p.items == list[..m + |p.items|];
    assert list[..m] + (p.items + more) == (list[..m] + p.items) + more;
  }

  // The first m rows of the list and the rows of the walk are, together, the beginning of
  // the list as the last fetch sees it, and all of it when the walk is complete.
  ghost predicate ReadsOn(d: Direction, views: seq<set<Key>>, m: nat, w: seq<Page>)
    requires |w| <= |views| && views != [] && m <= |Sorted(d, views[0])|
  {
    && w != []
    && Sorted(d, views[0])[..m] + Items(w) <= Sorted(d, views[|w| - 1])
    && (Complete(w) ==> Sorted(d, views[0])[..m] + Items(w) == Sorted(d, views[|w| - 1]))
  }

  lemma ReadsStep(d: Direction, views: seq<set<Key>>, m: nat, p: Page, w: seq<Page>, more: seq<Page>, n: nat)
    requires |w| <= |views| && |views| > 1 && m <= |Sorted(d, views[0])| && n == m + |p.items|
    requires Continues(Sorted(d, views[0]), m, p)
    requires n <= |Sorted(d, views[1])| && Sorted(d, views[1])[..n] == Sorted(d, views[0])[..n]
    requires |w| == |more| + 1 && Items(w) == p.items + Items(more) && (Complete(w) <==> Complete(more))
    requires more != []
    ensures ReadsOn(d, views, m, w) <==> ReadsOn(d, views[1..], n, more)
  {
    assert views[1..][|more| - 1] == views[|w| - 1];
    StretchGrows(Sorted(d, views[0]), m, p, Sorted(d, views[1]), Items(more), Items(w));
  }

  // MAIN: a walk over a list that only grows behind its cursor returns, page after page,
  // exactly the next rows of the list as it stands at the last fetch: no gap, no repeat.
  lemma {:induction false} WalkIsPrefix(d: Direction, views: seq<set<Key>>, m: nat, cursor: Option<Key>, limit: nat)
    requires limit >= 1 && views != [] && m <= |Sorted(d, views[0])|
    requires cursor == if m == 0 then None else Some(Sorted(d, views[0])[m - 1])
    requires Orderly(d, views, cursor, limit)
    ensures ReadsOn(d, views, m, Walk(d, views, cursor, limit))
    decreases |views|
  {
    var p := FetchPage(d, views[0], cursor, limit);
    PageContinues(d, views[0], m, cursor, limit);
    if p.next.None? || |views| == 1 {
      LastPage(d, views, cursor, limit);
      ReadsLast(d, views, m, p);
    } else {
      var n := m + |p.items|;
      CursorMoves(d, views, m, p, n);
      WalkIsPrefix(d, views[1..], n, p.next, limit);
      NextPages(d, views, cursor, limit);
      ReadsStep(d, views, m, p, Walk(d, views, cursor, limit), Walk(d, views[1..], p.next, limit), n);
    }
  }

  lemma ReadsLast(d: Direction, views: seq<set<Key>>, m: nat, p: Page)
    requires views != [] && m <= |Sorted(d, views[0])| && Continues(Sorted(d, views[0]), m, p)
    ensures ReadsOn(d, views, m, [p])
  {
    assert Items([p]) == p.items + Items([]) == p.items;
    LastStretch(Sorted(d, views[0]), m, p);
  }

  // Seen from the next fetch, the next cursor stands at the same place of the list.
  lemma CursorMoves(d: Direction, views: seq<set<Key>>, m: nat, p: Page, n: nat)
    requires |views| > 1 && m <= |Sorted(d, views[0])| && Continues(Sorted(d, views[0]), m, p)
    requires p.next.Some? && n == m + |p.items| && Grows(d, views[0], views[1], p.next.value)
    ensures n > 0 && views[1..][0] == views[1]
    ensures n <= |Sorted(d, views[1])| && Sorted(d, views[1])[..n] == Sorted(d, views[0])[..n]
    ensures p.next == Some(Sorted(d, views[1])[n - 1])
  {
    PrefixKeptExactly(d, views[0], views[1], n);
    SamePlace(Sorted(d, views[0]), Sorted(d, views[1]), n);
  }

  lemma LastStretch(list: seq<Key>, m: nat, p: Page)
    requires Continues(list, m, p)
    ensures list[..m] + p.items <= list && (p.next.None? ==> list[..m] + p.items == list)
  {
    assert list[..m] + p.items == list[..m + |p.items|];
  }

  lemma SamePlace(a: seq<Key>, b: seq<Key>, n: nat)
    requires 0 < n <= |a| && n <= |b| && a[..n] == b[..n]
    ensures a[n - 1] == b[n - 1]
  {
    assert a[n - 1] == a[..n][n - 1] && b[n - 1] == b[..n][n - 1];
  }

  lemma NextPages(d: Direction, views: seq<set<Key>>, cursor: Option<Key>, limit: nat)
    requires |views| > 1 && FetchPage(d, views[0], cursor, limit).next.Some?
    ensures var p := FetchPage(d, views[0], cursor, limit);
            var more := Walk(d, views[1..], p.next, limit);
            var w := Walk(d, views, cursor, limit);
            && |w| == |more| + 1 && Items(w) == p.items + Items(more)
            && more != [] && (Complete(w) <==> Complete(more))
  {
    var p := FetchPage(d, views[0], cursor, limit);
    assert Walk(d, views, cursor, limit)[1..] == Walk(d, views[1..], p.next, limit);
  }

  // ---------------------------------------------------------------- the exact condition

  // Rows are only added.
  ghost predicate Growing(views: seq<set<Key>>) { forall i, j :: 0 <= i < j < |views| ==> views[i] <= views[j] }

  // The beginning of a list in order holds whatever comes before one of its rows.
  lemma BeginningIsClosed(d: Direction, all: seq<Key>, q: seq<Key>, c: Key, k: Key)
    requires InOrder(d, all) && q <= all && c in q && k in all && Before(d, k, c)
    ensures k in q
  {
    var i :| 0 <= i < |q| && q[i] == c;
    var j :| 0 <= j < |all| && all[j] == k;
    BeforeTotal(d, k, c);
    assert j < i && q[j] == all[j];
  }

  // A new row in front of the cursor is missed for good.
  lemma MissedRow(d: Direction, views: seq<set<Key>>, m: nat, cursor: Option<Key>, limit: nat, w: seq<Page>, k: Key)
    requires |views| > 1 && Growing(views) && m <= |Sorted(d, views[0])| && |w| <= |views|
    requires Follows(d, views, cursor, limit, w) && w[0].next.Some?
    requires k in views[1] && k !in views[0] && !Before(d, w[0].next.value, k)
    ensures !ReadsOn(d, views, m, w)
  {
    var c, last := w[0].next.value, views[|w| - 1];
    var q := Sorted(d, views[0])[..m] + Items(w);
    assert |w| > 1 && k in last && Items(w) == w[0].items + Items(w[1..]);
    WalkInOrder(d, views[1..], w[0].next, limit, w[1..]);
    BeforeTotal(d, c, k);
    assert c in q && k !in q by {
      assert k !in Sorted(d, views[0])[..m] by { assert k !in Elems(Sorted(d, views[0])); }
      assert k !in w[0].items && k !in Items(w[1..]);
    }
    assert k in Elems(Sorted(d, last));
    if q <= Sorted(d, last) { BeginningIsClosed(d, Sorted(d, last), q, c, k); }
  }

  lemma GrowingRest(views: seq<set<Key>>)
    requires views != [] && Growing(views)
    ensures Growing(views[1..])
  {
    forall i, j | 0 <= i < j < |views[1..]| ensures views[1..][i] <= views[1..][j] {
      assert views[i + 1] <= views[j + 1];
    }
  }

  // MAIN: over a list to which rows are only added, a walk reads on without gap or repeat if
  // and only if each new row sorts behind the cursor of the next fetch.
  lemma {:induction false} ReadsOnExactly(d: Direction, views: seq<set<Key>>, m: nat, cursor: Option<Key>, limit: nat)
    requires limit >= 1 && views != [] && Growing(views) && m <= |Sorted(d, views[0])|
    requires cursor == if m == 0 then None else Some(Sorted(d, views[0])[m - 1])
    ensures ReadsOn(d, views, m, Walk(d, views, cursor, limit)) <==> Orderly(d, views, cursor, limit)
    decreases |views|
  {
    var p := FetchPage(d, views[0], cursor, limit);
    PageContinues(d, views[0], m, cursor, limit);
    if p.next.None? || |views| == 1 {
      LastPage(d, views, cursor, limit);
      ReadsLast(d, views, m, p);
    } else if Grows(d, views[0], views[1], p.next.value) {
      var n := m + |p.items|;
      CursorMoves(d, views, m, p, n);
      GrowingRest(views);
      ReadsOnExactly(d, views[1..], n, p.next, limit);
      NextPages(d, views, cursor, limit);
      ReadsStep(d, views, m, p, Walk(d, views, cursor, limit), Walk(d, views[1..], p.next, limit), n);
    } else {
      var k :| k in views[1] && k !in views[0] && !Before(d, p.next.value, k);
      WalkFollows(d, views, cursor, limit);
      MissedRow(d, views, m, cursor, limit, Walk(d, views, cursor, limit), k);
    }
  }

  // Each new row is as late as any before it, and still the walk leaves a gap.
  ghost predicate LeavesGap(views: seq<set<Key>>, limit: nat) {
    && views != [] && Growing(views)
    && (forall i, j, k, x :: 0 <= i < j < |views| && k in views[j] && k !in views[i] && x in views[i] ==> x.at <= k.at)
    && !ReadsOn(Ascending, views, 0, Walk(Ascending, views, None, limit))
  }

  // A message with the timestamp of the cursor's row and a smaller id is never returned.
  lemma EqualTimestampSkips(a: Key, b: Key, c: Key)
    requires a.at == b.at == c.at && TextLess(a.id, b.id) && TextLess(b.id, c.id)
    ensures LeavesGap([{b, c}, {a, b, c}], 1)
  {
    var views := [{b, c}, {a, b, c}];
    BeforeTotal(Ascending, a, b);
    BeforeTotal(Ascending, b, c);
    BeforeTransitive(Ascending, a, b, c);
    BeforeTotal(Ascending, a, c);
    FirstOfTwo(Ascending, b, c);
    NotOrderly(Ascending, views, FetchPage(Ascending, views[0], None, 1).next.value, a);
    ReadsOnExactly(Ascending, views, 0, None, 1);
  }

  lemma EqualTimestampExample()
    ensures exists views, limit: nat :: limit >= 1 && LeavesGap(views, limit)
  {
    EqualTimestampSkips(Key(0, "a"), Key(0, "b"), Key(0, "c"));
  }

  lemma FirstOfTwo(d: Direction, b: Key, c: Key)
    requires b != c
    ensures var next := FetchPage(d, {b, c}, None, 1).next;
            next == Some(b) || next == Some(c)
  {
    PageMeaning(d, {b, c}, None, 1);
    FetchIsPage(d, {b, c}, None, 1);
    assert |{b, c}| == 2;
  }

  lemma NotOrderly(d: Direction, views: seq<set<Key>>, c: Key, k: Key)
    requires |views| == 2 && FetchPage(d, views[0], None, 1).next == Some(c)
    requires k in views[1] && k !in views[0] && !Before(d, c, k)
    ensures !Orderly(d, views, None, 1)
  {
  }

  // Rows that arrive later than every row present, as messages with a running clock do,
  // sort behind any cursor.
  predicate Appended(d: Direction, s: set<Key>, t: set<Key>) {
    s <= t && forall k, x :: k in t && k !in s && x in s ==> Before(d, x, k)
  }

  ghost predicate AppendOnly(d: Direction, views: seq<set<Key>>) {
    forall i, j :: 0 <= i < j < |views| ==> Appended(d, views[i], views[j])
  }

  lemma {:induction false} AppendOnlyIsOrderly(d: Direction, views: seq<set<Key>>, cursor: Option<Key>, limit: nat)
    requires limit >= 1 && AppendOnly(d, views)
    ensures Orderly(d, views, cursor, limit)
    decreases |views|
  {
    if |views| > 1 {
      var p := FetchPage(d, views[0], cursor, limit);
      FetchIsPage(d, views[0], cursor, limit);
      if p.next.Some? {
        assert p.next.value in views[0];
        assert Appended(d, views[0], views[1]);
        AppendOnlyIsOrderly(d, views[1..], p.next, limit);
      }
    }
  }

  // MAIN: reading a conversation from the start while messages are appended.
  lemma MessagesWalk(views: seq<set<Key>>, limit: nat)
    requires limit >= 1 && views != [] && AppendOnly(Ascending, views)
    ensures var w := Walk(Ascending, views, None, limit);
            && w != []
            && Items(w) <= Sorted(Ascending, views[|w| - 1])
            && (Complete(w) ==> Items(w) == Sorted(Ascending, views[|w| - 1]))
  {
    AppendOnlyIsOrderly(Ascending, views, None, limit);
    WalkIsPrefix(Ascending, views, 0, None, limit);
    var w := Walk(Ascending, views, None, limit);
    assert Sorted(Ascending, views[0])[..0] + Items(w) == Items(w);
  }
}
