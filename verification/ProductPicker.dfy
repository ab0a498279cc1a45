/**
 * The list pickers for removing a product and for changing a price: a page of
 * products with navigation rows, and what tapping a row means.
 */
module ProductPicker {
  import opened Basics
  import opened Text

  const PAGE_SIZE := 8
  const MAX_ROWS := 10
  const PREV_TITLE := "\U{2B05} Previous page"
  const NEXT_TITLE := "Next page \U{27A1}"

  datatype Picker = Removing | Pricing

  datatype Row = Row(id: string, title: string, description: string)

  type Product = (string, int)

  function Prefix(k: Picker): string { if k.Removing? then "RM" else "PR" }

  function Cut(s: string, n: nat): string { if |s| <= n then s else s[..n] }

  function Naira(n: int): string { if n >= 0 then "N" + Grouped(n) else "N-" + Grouped(-n) }

  function ProductId(k: Picker, name: string): string { Cut(Prefix(k) + "_" + name, 72) }

  function ProductRow(k: Picker, p: Product): Row {
    Row(ProductId(k, p.0), Cut(p.0, 24), if k.Removing? then Naira(p.1) else "Current: " + Naira(p.1))
  }

  datatype Way = Prev | Next

  function Word(way: Way): string { if way.Prev? then "PREV" else "NEXT" }

  function Title(way: Way): string { if way.Prev? then PREV_TITLE else NEXT_TITLE }

  function NavId(k: Picker, way: Way, page: nat): string { Prefix(k) + "_" + (Word(way) + "_" + Decimal(page)) }

  function NavRow(k: Picker, way: Way, page: nat, total: nat): Row {
    Row(NavId(k, way, page), Title(way), "Page " + Decimal(page) + " of " + Decimal(total))
  }

  function Total(n: nat): (t: nat)
    ensures t >= 1
  {
    if n <= MAX_ROWS then 1 else (n + PAGE_SIZE - 1) / PAGE_SIZE
  }

  function Clamp(page: int, total: nat): (p: nat)
    requires total >= 1
    ensures 1 <= p <= total
  {
    if page < 1 then 1 else if page > total then total else page
  }

  function ProductRows(k: Picker, ps: seq<Product>): (rows: seq<Row>)
    ensures |rows| == |ps| && forall i :: 0 <= i < |ps| ==> rows[i] == ProductRow(k, ps[i])
  {
    seq(|ps|, i requires 0 <= i < |ps| => ProductRow(k, ps[i]))
  }

  function Least(a: nat, b: nat): nat { if a < b then a else b }

  // The products of one page.
  function Slice(ps: seq<Product>, page: nat): seq<Product>
    requires page >= 1
  {
    if |ps| <= MAX_ROWS then ps
    else ps[Least((page - 1) * PAGE_SIZE, |ps|)..Least(page * PAGE_SIZE, |ps|)]
  }

  function NavRows(k: Picker, page: nat, total: nat): seq<Row>
    requires page >= 1
  {
    (if page > 1 then [NavRow(k, Prev, page - 1, total)] else [])
    + (if page < total then [NavRow(k, Next, page + 1, total)] else [])
  }

  // What the picker shows when asked for a page.
  function Shows(k: Picker, ps: seq<Product>, asked: int): seq<Row> {
    var page := Clamp(asked, Total(|ps|));
    ProductRows(k, Slice(ps, page)) + NavRows(k, page, Total(|ps|))
  }

  lemma TakeOneMore(rows: seq<Row>, i: nat)
    requires i < |rows|
    ensures rows[..i] + [rows[i]] == rows[..i + 1]
  {
  }

  method AppendProducts(k: Picker, ps: seq<Product>) returns (rows: seq<Row>)
    ensures rows == ProductRows(k, ps)
  {
    rows := [];
    for i := 0 to |ps|
      invariant rows == ProductRows(k, ps)[..i]
    {
      TakeOneMore(ProductRows(k, ps), i);
      rows := rows + [ProductRow(k, ps[i])];
    }
  }

  method AppendNav(k: Picker, products: seq<Row>, page: nat, total: nat) returns (rows: seq<Row>)
    requires 1 <= page <= total
    ensures rows == products + NavRows(k, page, total) && |rows| <= |products| + 2
  {
    rows := products;
    if page > 1 {
      rows := rows + [NavRow(k, Prev, page - 1, total)];
    }
    if page < total {
      rows := rows + [NavRow(k, Next, page + 1, total)];
    }
  }

  method PaginateProductRows(k: Picker, ps: seq<Product>, asked: int) returns (rows: seq<Row>, total: nat)
    ensures rows == Shows(k, ps, asked) && total == Total(|ps|)
    ensures |rows| <= MAX_ROWS
  {
    if |ps| <= MAX_ROWS {
      rows := AppendProducts(k, ps);
      assert NavRows(k, 1, 1) == [];
      return rows, 1;
    }
    total := (|ps| + PAGE_SIZE - 1) / PAGE_SIZE;
    var page := if asked < total then asked else total;
    page := if page > 1 then page else 1;
    var start := (page - 1) * PAGE_SIZE;
    var end := if start + PAGE_SIZE < |ps| then start + PAGE_SIZE else |ps|;
    SliceBounds(ps, page, start, end);
    rows := AppendProducts(k, ps[start..end]);
    rows := AppendNav(k, rows, page, total);
  }

  lemma SliceBounds(ps: seq<Product>, page: nat, start: nat, end: nat)
    requires |ps| > MAX_ROWS && 1 <= page <= Total(|ps|) && start == (page - 1) * PAGE_SIZE
    requires end == if start + PAGE_SIZE < |ps| then start + PAGE_SIZE else |ps|
    ensures start <= end <= |ps| && end - start <= PAGE_SIZE && Slice(ps, page) == ps[start..end]
  {
  }

  // ---------------------------------------------------------------- the pages together

  predicate Ascii(s: string) { forall i :: 0 <= i < |s| ==> s[i] < 128 as char }

  predicate Names(ps: seq<Product>) { forall i :: 0 <= i < |ps| ==> Ascii(ps[i].0) }

  predicate IsNav(r: Row) { r.title == PREV_TITLE || r.title == NEXT_TITLE }

  function WithoutNav(rows: seq<Row>): seq<Row> {
    if rows == [] then []
    else (if IsNav(rows[0]) then [] else [rows[0]]) + WithoutNav(rows[1..])
  }

  // All pages up to the given one, without the navigation rows.
  function Pages(k: Picker, ps: seq<Product>, n: nat): seq<Row> {
    if n == 0 then [] else Pages(k, ps, n - 1) + WithoutNav(Shows(k, ps, n))
  }

  lemma ProductIsNoNav(k: Picker, p: Product)
    requires Ascii(p.0)
    ensures !IsNav(ProductRow(k, p))
  {
    var t := ProductRow(k, p).title;
    assert forall i :: 0 <= i < |t| ==> t[i] == p.0[i];
    assert PREV_TITLE[0] == '\U{2B05}' && NEXT_TITLE[10] == '\U{27A1}';
  }

  lemma {:induction false} WithoutNavAppend(rows: seq<Row>, nav: seq<Row>)
    requires forall i :: 0 <= i < |rows| ==> !IsNav(rows[i])
    requires forall i :: 0 <= i < |nav| ==> IsNav(nav[i])
    ensures WithoutNav(rows + nav) == rows
  {
    if rows != [] {
      assert (rows + nav)[1..] == rows[1..] + nav;
      WithoutNavAppend(rows[1..], nav);
    } else if nav != [] {
      assert (rows + nav) == nav && nav[1..] == rows + nav[1..];
      WithoutNavAppend(rows, nav[1..]);
    }
  }

  lemma ShownProducts(k: Picker, ps: seq<Product>, page: nat)
    requires Names(ps) && 1 <= page <= Total(|ps|)
    ensures WithoutNav(Shows(k, ps, page)) == ProductRows(k, Slice(ps, page))
  {
    var s := Slice(ps, page);
    forall i | 0 <= i < |s| ensures !IsNav(ProductRow(k, s[i])) {
      assert s[i] in ps;
      ProductIsNoNav(k, s[i]);
    }
    WithoutNavAppend(ProductRows(k, s), NavRows(k, page, Total(|ps|)));
  }

  lemma ProductRowsAppend(k: Picker, a: seq<Product>, b: seq<Product>)
    ensures ProductRows(k, a + b) == ProductRows(k, a) + ProductRows(k, b)
  {
  }

  lemma Prefixes(ps: seq<Product>, a: nat, b: nat)
    requires a <= b <= |ps|
    ensures ps[..b] == ps[..a] + ps[a..b]
  {
  }

  lemma {:induction false} PagesSoFar(k: Picker, ps: seq<Product>, n: nat)
    requires Names(ps) && |ps| > MAX_ROWS && n <= Total(|ps|)
    ensures Pages(k, ps, n) == ProductRows(k, ps[..Least(n * PAGE_SIZE, |ps|)])
  {
    if n == 0 {
    } else {
      PagesSoFar(k, ps, n - 1);
      ShownProducts(k, ps, n);
      var a, b := Least((n - 1) * PAGE_SIZE, |ps|), Least(n * PAGE_SIZE, |ps|);
      assert Slice(ps, n) == ps[a..b];
      Prefixes(ps, a, b);
      ProductRowsAppend(k, ps[..a], ps[a..b]);
    }
  }

  // The pages together are the whole list, in order, each product once.
  lemma PagesPartition(k: Picker, ps: seq<Product>)
    requires Names(ps)
    ensures Pages(k, ps, Total(|ps|)) == ProductRows(k, ps)
  {
    if |ps| <= MAX_ROWS {
      ShownProducts(k, ps, 1);
      assert Pages(k, ps, 0) == [];
      assert Pages(k, ps, 1) == Pages(k, ps, 0) + WithoutNav(Shows(k, ps, 1));
    } else {
      PagesSoFar(k, ps, Total(|ps|));
      assert ps[..|ps|] == ps;
    }
  }

  // ---------------------------------------------------------------- taps

  datatype Tap = GoTo(page: int) | Pick(name: string) | NoTap

  function UpperChar(c: char): char { if 'a' <= c <= 'z' then (c as int - 32) as char else c }

  predicate BeginsAnyCase(s: string, upper: string) {
    |upper| <= |s| && forall i :: 0 <= i < |upper| ==> UpperChar(s[i]) == upper[i]
  }

  predicate NavLike(suffix: string) { BeginsAnyCase(suffix, "NEXT_") || BeginsAnyCase(suffix, "PREV_") }

  function Last(parts: seq<string>): string
    requires parts != []
  {
    parts[|parts| - 1]
  }

  predicate IsUnderscore(c: char) { c == '_' }

  // int(s) for a text without underscores
  function ReadInt(s: string): Option<int> {
    var t := Strip(s);
    var digits := if t != [] && (t[0] == '+' || t[0] == '-') then t[1..] else t;
    if digits == [] || !AllDigits(digits) then None
    else Some(if t[0] == '-' then 0 - Value(digits) else Value(digits))
  }

  function TapOf(k: Picker, message: string): Tap {
    var m := Strip(message);
    if !BeginsAnyCase(m, Prefix(k) + "_") then NoTap
    else if NavLike(m[3..]) then GoTo(PageOf(m[3..]))
    else Pick(m[3..])
  }

  function PageOf(suffix: string): int {
    var n := ReadInt(Last(Split(suffix, IsUnderscore)));
    if n.Some? then n.value else 1
  }

  lemma ReadDecimal(n: nat)
    ensures ReadInt(Decimal(n)) == Some(n)
  {
    StripTrimmed(Decimal(n));
    ValueOfDecimal(n);
  }

  lemma PageOfNav(way: Way, n: nat)
    ensures PageOf(Word(way) + "_" + Decimal(n)) == n
  {
    SplitFirst(Word(way), '_', Decimal(n), IsUnderscore);
    assert Word(way) + ['_'] + Decimal(n) == Word(way) + "_" + Decimal(n);
    SplitOne(Decimal(n), IsUnderscore);
    ReadDecimal(n);
  }

  lemma WordIsNav(way: Way, rest: string)
    ensures NavLike(Word(way) + "_" + rest)
  {
    var s := Word(way) + "_" + rest;
    assert if way.Prev? then BeginsAnyCase(s, "PREV_") else BeginsAnyCase(s, "NEXT_");
  }

  // A row id without white space at its end is read whole.
  lemma TapReads(k: Picker, suffix: string)
    requires suffix != [] ==> !IsSpace(suffix[|suffix| - 1])
    ensures TapOf(k, Prefix(k) + "_" + suffix) == if NavLike(suffix) then GoTo(PageOf(suffix)) else Pick(suffix)
  {
    var m := Prefix(k) + "_" + suffix;
    assert m[0] == Prefix(k)[0] && |Prefix(k)| == 2;
    StripTrimmed(m);
    assert m[3..] == suffix;
    assert BeginsAnyCase(m, Prefix(k) + "_");
  }

  // Tapping a navigation row asks for the page it names.
  lemma NavTap(k: Picker, way: Way, n: nat)
    ensures TapOf(k, NavId(k, way, n)) == GoTo(n)
  {
    var suffix := Word(way) + "_" + Decimal(n);
    assert suffix[|suffix| - 1] == Decimal(n)[|Decimal(n)| - 1];
    TapReads(k, suffix);
    WordIsNav(way, Decimal(n));
    PageOfNav(way, n);
  }

  // Where the row with the given title is.
  function Titled(rows: seq<Row>, title: string): nat {
    if rows == [] || rows[0].title == title then 0 else 1 + Titled(rows[1..], title)
  }

  // The page asked for by tapping the row with the given title; without such a row, the same page.
  function Follow(k: Picker, ps: seq<Product>, page: int, title: string): int {
    Tapped(k, Shows(k, ps, page), page, title)
  }

  function Tapped(k: Picker, rows: seq<Row>, page: int, title: string): int {
    var at := Titled(rows, title);
    if at < |rows| && TapOf(k, rows[at].id).GoTo? then TapOf(k, rows[at].id).page else page
  }

  lemma {:induction false} TitledSkips(rows: seq<Row>, nav: seq<Row>, title: string)
    requires forall i :: 0 <= i < |rows| ==> rows[i].title != title
    ensures Titled(rows + nav, title) == |rows| + Titled(nav, title)
  {
    if rows == [] {
      assert rows + nav == nav;
    } else {
      assert (rows + nav)[1..] == rows[1..] + nav;
      TitledSkips(rows[1..], nav, title);
    }
  }

  lemma TappedSkips(k: Picker, rows: seq<Row>, nav: seq<Row>, page: int, title: string)
    requires forall i :: 0 <= i < |rows| ==> rows[i].title != title
    ensures Tapped(k, rows + nav, page, title) == Tapped(k, nav, page, title)
  {
    TitledSkips(rows, nav, title);
  }

  lemma ProductTitles(k: Picker, s: seq<Product>, way: Way)
    requires Names(s)
    ensures forall i :: 0 <= i < |s| ==> ProductRows(k, s)[i].title != Title(way)
  {
    forall i | 0 <= i < |s| ensures ProductRows(k, s)[i].title != Title(way) { ProductIsNoNav(k, s[i]); }
  }

  lemma TitlesDiffer()
    ensures Title(Prev) != Title(Next)
  {
    assert Title(Prev)[0] != Title(Next)[0];
  }

  // Tapping one of at most two rows with different titles.
  lemma TappedOfTwo(k: Picker, a: Row, b: Row, page: int, m: int, n: int)
    requires a.title != b.title && TapOf(k, a.id) == GoTo(m) && TapOf(k, b.id) == GoTo(n)
    ensures Tapped(k, [], page, a.title) == page && Tapped(k, [], page, b.title) == page
    ensures Tapped(k, [a], page, a.title) == m && Tapped(k, [a], page, b.title) == page
    ensures Tapped(k, [b], page, a.title) == page && Tapped(k, [b], page, b.title) == n
    ensures Tapped(k, [a, b], page, a.title) == m && Tapped(k, [a, b], page, b.title) == n
  {
    ShortLists(a, b);
  }

  lemma NavRowsAre(k: Picker, page: nat, total: nat)
    requires 1 <= page <= total
    ensures var a, b := NavRow(k, Prev, page - 1, total), NavRow(k, Next, page + 1, total);
            NavRows(k, page, total) ==
              if page > 1 then (if page < total then [a, b] else [a]) else (if page < total then [b] else [])
  {
  }

  lemma NavTapped(k: Picker, page: nat, total: nat)
    requires 1 <= page <= total
    ensures Tapped(k, NavRows(k, page, total), page, Title(Next)) == if page < total then page + 1 else page
    ensures Tapped(k, NavRows(k, page, total), page, Title(Prev)) == if page > 1 then page - 1 else page
  {
    var a, b := NavRow(k, Prev, page - 1, total), NavRow(k, Next, page + 1, total);
    TitlesDiffer();
    NavTap(k, Next, page + 1);
    NavTap(k, Prev, page - 1);
    NavRowsAre(k, page, total);
    TappedOfTwo(k, a, b, page, page - 1, page + 1);
  }

  lemma ShortLists(a: Row, b: Row)
    requires a.title != b.title
    ensures Titled([], a.title) == 0 && Titled([], b.title) == 0
    ensures Titled([a], a.title) == 0 && Titled([a], b.title) == 1
    ensures Titled([b], a.title) == 1 && Titled([b], b.title) == 0
    ensures Titled([a, b], a.title) == 0 && Titled([a, b], b.title) == 1
  {
    assert [a][1..] == [] && [b][1..] == [] && [a, b][1..] == [b];
  }

  lemma SliceNames(ps: seq<Product>, page: nat)
    requires Names(ps) && page >= 1
    ensures Names(Slice(ps, page))
  {
  }

  // NEXT leads one page on and is missing on the last page only; PREV the other way.
  lemma FollowMeaning(k: Picker, ps: seq<Product>, page: nat)
    requires Names(ps) && 1 <= page <= Total(|ps|)
    ensures Follow(k, ps, page, Title(Next)) == if page < Total(|ps|) then page + 1 else page
    ensures Follow(k, ps, page, Title(Prev)) == if page > 1 then page - 1 else page
  {
    var total := Total(|ps|);
    var s := Slice(ps, page);
    SliceNames(ps, page);
    ProductTitles(k, s, Next);
    ProductTitles(k, s, Prev);
    TappedSkips(k, ProductRows(k, s), NavRows(k, page, total), page, Title(Next));
    TappedSkips(k, ProductRows(k, s), NavRows(k, page, total), page, Title(Prev));
    NavTapped(k, page, total);
  }

  lemma PrevUndoesNext(k: Picker, ps: seq<Product>, page: nat)
    requires Names(ps) && 1 <= page < Total(|ps|)
    ensures Follow(k, ps, Follow(k, ps, page, Title(Next)), Title(Prev)) == page
    ensures Follow(k, ps, Follow(k, ps, page + 1, Title(Prev)), Title(Next)) == page + 1
  {
    FollowMeaning(k, ps, page);
    FollowMeaning(k, ps, page + 1);
  }

  function Repeat(f: int -> int, page: int, times: nat): int {
    if times == 0 then page else f(Repeat(f, page, times - 1))
  }

  // The page after so many taps on NEXT, starting from the first.
  function Browse(k: Picker, ps: seq<Product>, taps: nat): int {
    Repeat(page => Follow(k, ps, page, Title(Next)), 1, taps)
  }

  lemma {:induction false} RepeatClimbs(f: int -> int, total: nat, times: nat)
    requires total >= 1 && forall p :: 1 <= p <= total ==> f(p) == if p < total then p + 1 else p
    ensures Repeat(f, 1, times) == Least(times + 1, total)
  {
    if times == 0 {
    } else {
      RepeatClimbs(f, total, times - 1);
    }
  }

  // Each page in turn, once, and then the last for good.
  lemma BrowseVisitsAll(k: Picker, ps: seq<Product>, taps: nat)
    requires Names(ps)
    ensures Browse(k, ps, taps) == Least(taps + 1, Total(|ps|))
  {
    var total := Total(|ps|);
    var f := page => Follow(k, ps, page, Title(Next));
    forall p | 1 <= p <= total ensures f(p) == if p < total then p + 1 else p { FollowMeaning(k, ps, p); }
    RepeatClimbs(f, total, taps);
  }

  // ---------------------------------------------------------------- picking a product

  lemma {:induction false} StripKeepsHead(h: string, s: string)
    requires h != [] && !IsSpace(h[0]) && !IsSpace(h[|h| - 1])
    ensures Strip(h + s) == h + TrimRight(s)
    decreases |s|
  {
    assert TrimLeft(h + s) == h + s;
    if s == [] {
      assert h + s == h;
    } else if IsSpace(s[|s| - 1]) {
      var t := s[..|s| - 1];
      assert (h + s)[..|h + s| - 1] == h + t;
      StripKeepsHead(h, t);
      assert TrimLeft(h + t) == h + t;
    }
  }

  // What a tap on a product row picks: the name as far as it fits, without white space at its end.
  lemma ProductTap(k: Picker, name: string)
    ensures var read := TrimRight(Cut(name, 69));
            TapOf(k, ProductId(k, name)) == if NavLike(read) then GoTo(PageOf(read)) else Pick(read)
  {
    var head := Prefix(k) + "_";
    var fits := Cut(name, 69);
    assert |head| == 3 && !IsSpace(head[0]) && !IsSpace(head[2]);
    assert ProductId(k, name) == head + fits;
    StripKeepsHead(head, fits);
    TrimRightCore(fits);
    var read := TrimRight(fits);
    TapReads(k, read);
    StripKeepsHead(head, read);
    assert TrimRight(read) == read;
  }

  // Tapping a product row picks that product exactly when its name fits in the row id, does
  // not end in white space, and does not look like a navigation id.
  lemma ProductTapExactly(k: Picker, name: string)
    ensures TapOf(k, ProductId(k, name)) == Pick(name) <==>
            |name| <= 69 && (name != [] ==> !IsSpace(name[|name| - 1])) && !NavLike(name)
  {
    ProductTap(k, name);
    TrimRightCore(Cut(name, 69));
  }

  // A product called "NEXT_1" turns the page instead of being picked.
  lemma NavNameIsNotPicked(k: Picker)
    ensures TapOf(k, ProductId(k, "NEXT_1")) == GoTo(1)
  {
    var name := "NEXT_1";
    assert Decimal(1) == "1" && Word(Next) + "_" + Decimal(1) == name;
    assert TrimRight(name) == name;
    ProductTap(k, name);
    WordIsNav(Next, "1");
    PageOfNav(Next, 1);
  }

  // ---------------------------------------------------------------- what a row shows

  function DigitsOf(s: string): (d: string)
    ensures AllDigits(d)
  {
    if s == [] then [] else (if IsDigit(s[0]) then [s[0]] else []) + DigitsOf(s[1..])
  }

  lemma {:induction false} DigitsAppend(a: string, b: string)
    ensures DigitsOf(a + b) == DigitsOf(a) + DigitsOf(b)
  {
    if a == [] {
      assert a + b == b;
    } else {
      assert (a + b)[1..] == a[1..] + b;
      DigitsAppend(a[1..], b);
    }
  }

  lemma {:induction false} DigitsOfDigits(s: string)
    requires AllDigits(s)
    ensures DigitsOf(s) == s
  {
    if s == [] {
    } else {
      DigitsOfDigits(s[1..]);
    }
  }

  lemma {:induction false} DigitsOfOthers(s: string)
    requires forall i :: 0 <= i < |s| ==> !IsDigit(s[i])
    ensures DigitsOf(s) == []
  {
    if s == [] {
    } else {
      DigitsOfOthers(s[1..]);
    }
  }

  lemma {:induction false} DigitsOfGrouped(n: nat)
    ensures DigitsOf(Grouped(n)) == Decimal(n)
  {
    if n < 1000 {
      DigitsOfDigits(Decimal(n));
    } else {
      var t := ThreeDigits(n % 1000);
      DigitsOfGrouped(n / 1000);
      DigitsAppend(Grouped(n / 1000) + ",", t);
      DigitsAppend(Grouped(n / 1000), ",");
      DigitsOfOthers(",");
      DigitsOfDigits(t);
      DecimalByThousands(n);
    }
  }

  // What comes before the digits of a price.
  function PriceLabel(k: Picker, price: int): string {
    (if k.Removing? then "" else "Current: ") + (if price < 0 then "N-" else "N")
  }

  lemma PriceReads(lead: string, n: nat)
    requires forall i :: 0 <= i < |lead| ==> !IsDigit(lead[i])
    ensures Value(DigitsOf(lead + Grouped(n))) == n
  {
    DigitsAppend(lead, Grouped(n));
    DigitsOfOthers(lead);
    DigitsOfGrouped(n);
    assert [] + Decimal(n) == Decimal(n);
    ValueOfDecimal(n);
  }

  lemma LabelHasNoDigit(k: Picker, price: int)
    ensures forall i :: 0 <= i < |PriceLabel(k, price)| ==> !IsDigit(PriceLabel(k, price)[i])
  {
  }

  lemma DescriptionIs(k: Picker, p: Product, n: nat)
    requires n == if p.1 < 0 then -p.1 else p.1
    ensures ProductRow(k, p).description == PriceLabel(k, p.1) + Grouped(n)
  {
    var g := Grouped(n);
    assert "Current: " + ("N" + g) == "Current: " + "N" + g && "Current: " + ("N-" + g) == "Current: " + "N-" + g;
    assert "" + "N" == "N" && "" + "N-" == "N-";
  }

  // A row shows the first 24 characters of the name, and a price that reads back.
  lemma RowShows(k: Picker, p: Product, n: nat)
    requires n == if p.1 < 0 then -p.1 else p.1
    ensures var r := ProductRow(k, p);
            && r.title == (if |p.0| <= 24 then p.0 else p.0[..24])
            && r.description == PriceLabel(k, p.1) + Grouped(n)
            && Value(DigitsOf(r.description)) == n
  {
    DescriptionIs(k, p, n);
    LabelHasNoDigit(k, p.1);
    PriceReads(PriceLabel(k, p.1), n);
  }

  // Ten products or fewer are one page; more come in pages of eight.
  lemma PageHolds(k: Picker, ps: seq<Product>, page: nat)
    requires Names(ps) && 1 <= page
    ensures |ps| <= 10 ==> WithoutNav(Shows(k, ps, page)) == ProductRows(k, ps)
    ensures |ps| > 10 && 8 * (page - 1) < |ps| ==>
              var end := if 8 * page < |ps| then 8 * page else |ps|;
              WithoutNav(Shows(k, ps, page)) == ProductRows(k, ps[8 * (page - 1)..end])
  {
    if |ps| <= 10 {
      ShownProducts(k, ps, 1);
    } else if 8 * (page - 1) < |ps| {
      ShownProducts(k, ps, page);
    }
  }

  // A page number out of range means the nearest page.
  lemma OutOfRange(k: Picker, ps: seq<Product>, asked: int)
    ensures asked < 1 ==> Shows(k, ps, asked) == Shows(k, ps, 1)
    ensures asked > Total(|ps|) ==> Shows(k, ps, asked) == Shows(k, ps, Total(|ps|))
  {
  }
}
