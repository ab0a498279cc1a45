/** Cart orders sent from a store's page. */
module Carts {
  import opened Basics
  import opened Text
  import Slugs

  datatype CartItem = CartItem(name: string, qty: nat)

  datatype Cart = Cart(slug: string, items: seq<CartItem>)

  // str.splitlines within ASCII; CR LF counts twice here, which only adds a blank line, and
  // blank lines are dropped.
  predicate LineBreak(c: char) { '\n' <= c <= '\r' || 28 as char <= c <= 30 as char }

  predicate RefChar(c: char) { 'a' <= c <= 'z' || IsUpper(c) || IsDigit(c) || c == '_' || c == '-' }

  // white space, x, digits, white space, end
  predicate QtyTail(t: string) {
    var a := RunOf(t, IsSpace);
    && 1 <= a < |t| && (t[a] == 'x' || t[a] == 'X')
    && RunOf(t[a + 1..], IsDigit) >= 1
    && AllSpace(t[a + 1..][RunOf(t[a + 1..], IsDigit)..])
  }

  function TailQty(t: string): nat
    requires QtyTail(t)
  {
    var rest := t[RunOf(t, IsSpace) + 1..];
    Value(rest[..RunOf(rest, IsDigit)])
  }

  // The first place, after at least one character, from which the rest of the line is a quantity.
  function NameEnd(line: string, from: nat): (end: Option<nat>)
    ensures end.Some? ==> from <= end.value <= |line| && QtyTail(line[end.value..])
    decreases |line| - from
  {
    if from >= |line| then None
    else if QtyTail(line[from..]) then Some(from)
    else NameEnd(line, from + 1)
  }

  function ReadLine(line: string): seq<CartItem> {
    match NameEnd(line, 1)
    case None => []
    case Some(end) =>
      var name, qty := Strip(line[..end]), TailQty(line[end..]);
      if name != [] && qty > 0 then [CartItem(name, qty)] else []
  }

  function ReadLines(lines: seq<string>): seq<CartItem> {
    if lines == [] then [] else ReadLine(lines[0]) + ReadLines(lines[1..])
  }

  function NonBlank(lines: seq<string>): seq<string> {
    if lines == [] then []
    else (if Strip(lines[0]) != [] then [Strip(lines[0])] else []) + NonBlank(lines[1..])
  }

  function Lines(message: string): seq<string> { NonBlank(Split(Strip(message), LineBreak)) }

  // ORDER: in any case, then the reference
  predicate OrderPrefix(line: string) {
    |line| > 6 && Lower(line[..6]) == "order:" && RefChar(line[6])
  }

  function OrderSlug(line: string): string
    requires OrderPrefix(line)
  {
    Lower(line[6..6 + RunOf(line[6..], RefChar)])
  }

  function ParseCart(message: string): Option<Cart> {
    var lines := Lines(message);
    if lines == [] || !OrderPrefix(lines[0]) then None
    else Some(Cart(OrderSlug(lines[0]), ReadLines(lines[1..])))
  }

  method CollectLines(message: string) returns (lines: seq<string>)
    ensures lines == Lines(message)
  {
    var pieces := Split(Strip(message), LineBreak);
    lines := [];
    assert pieces[0..] == pieces;
    for i := 0 to |pieces|
      invariant NonBlank(pieces) == lines + NonBlank(pieces[i..])
    {
      NonBlankStep(pieces, i);
      ghost var before, rest := lines, NonBlank(pieces[i + 1..]);
      var line := Strip(pieces[i]);
      if line != [] {
        lines := lines + [line];
      }
      RegroupLines(before, if line != [] then [line] else [], rest);
    }
    assert pieces[|pieces|..] == [];
  }

  lemma RegroupLines(a: seq<string>, b: seq<string>, c: seq<string>)
    ensures a + (b + c) == a + b + c && a + [] == a
  {
  }

  lemma NonBlankStep(pieces: seq<string>, i: nat)
    requires i < |pieces|
    ensures NonBlank(pieces[i..]) ==
            (if Strip(pieces[i]) != [] then [Strip(pieces[i])] else []) + NonBlank(pieces[i + 1..])
  {
    assert pieces[i..][1..] == pieces[i + 1..];
  }

  lemma ReadLinesStep(lines: seq<string>, i: nat)
    requires i < |lines|
    ensures ReadLines(lines[i..]) == ReadLine(lines[i]) + ReadLines(lines[i + 1..])
  {
    assert lines[i..][1..] == lines[i + 1..];
  }

  method ReadItems(lines: seq<string>) returns (items: seq<CartItem>)
    ensures items == ReadLines(lines)
  {
    items := [];
    assert lines[0..] == lines;
    for i := 0 to |lines|
      invariant ReadLines(lines) == items + ReadLines(lines[i..])
    {
      ReadLinesStep(lines, i);
      ghost var before, rest := items, ReadLines(lines[i + 1..]);
      var end := NameEnd(lines[i], 1);
      if end.Some? {
        var name, qty := Strip(lines[i][..end.value]), TailQty(lines[i][end.value..]);
        if name != [] && qty > 0 {
          items := items + [CartItem(name, qty)];
        }
      }
      assert items == before + ReadLine(lines[i]);
      Regroup(before, ReadLine(lines[i]), rest);
    }
    assert lines[|lines|..] == [];
  }

  lemma Regroup(a: seq<CartItem>, b: seq<CartItem>, c: seq<CartItem>)
    ensures a + (b + c) == a + b + c
  {
  }

  method ParseCartMessage(message: string) returns (slug: Option<string>, items: seq<CartItem>)
    ensures match ParseCart(message)
            case None => slug == None && items == []
            case Some(cart) => slug == Some(cart.slug) && items == cart.items
  {
    var lines := CollectLines(message);
    if lines == [] || !OrderPrefix(lines[0]) { return None, []; }
    slug := Some(OrderSlug(lines[0]));
    items := ReadItems(lines[1..]);
  }

  // ---------------------------------------------------------------- what a cart looks like

  predicate GoodRef(slug: string) {
    slug != [] && forall i :: 0 <= i < |slug| ==> RefChar(slug[i]) && !IsUpper(slug[i])
  }

  predicate GoodItem(i: CartItem) { i.name != [] && Trimmed(i.name) && Free(i.name, LineBreak) && i.qty > 0 }

  predicate GoodCart(c: Cart) { GoodRef(c.slug) && forall i :: 0 <= i < |c.items| ==> GoodItem(c.items[i]) }

  // An item line: the name, white space, an x in either case, and the quantity.
  datatype Line = Line(item: CartItem, gap: string, mark: char)

  predicate GoodLine(l: Line) {
    && GoodItem(l.item) && l.gap != [] && AllSpace(l.gap) && Free(l.gap, LineBreak)
    && (l.mark == 'x' || l.mark == 'X')
  }

  predicate GoodLines(lines: seq<Line>) { forall i :: 0 <= i < |lines| ==> GoodLine(lines[i]) }

  function ShowLine(l: Line): string { l.item.name + (l.gap + [l.mark] + Decimal(l.item.qty)) }

  function ShowLines(lines: seq<Line>): string {
    if lines == [] then [] else "\n" + (ShowLine(lines[0]) + ShowLines(lines[1..]))
  }

  function Items(lines: seq<Line>): seq<CartItem> { seq(|lines|, i requires 0 <= i < |lines| => lines[i].item) }

  // The way the store's page writes a cart.
  function Plainly(items: seq<CartItem>): seq<Line> {
    seq(|items|, i requires 0 <= i < |items| => Line(items[i], " ", 'x'))
  }

  function ShowCart(c: Cart): string { "ORDER:" + c.slug + ShowLines(Plainly(c.items)) }

  // ---------------------------------------------------------------- reading one line back

  lemma TailOf(gap: string, mark: char, digits: string)
    requires AllDigits(digits) && digits != [] && gap != [] && AllSpace(gap) && (mark == 'x' || mark == 'X')
    ensures QtyTail(gap + [mark] + digits) && TailQty(gap + [mark] + digits) == Value(digits)
  {
    var t := gap + [mark] + digits;
    assert t == gap + ([mark] + digits);
    RunOfExact(gap, [mark] + digits, IsSpace);
    assert t[|gap| + 1..] == digits;
    assert digits == digits + [];
    RunOfExact(digits, [], IsDigit);
    assert digits[..|digits|] == digits;
  }

  lemma NotATail(t: string, k: nat, j: nat)
    requires k < j < |t| && !IsSpace(t[k]) && (t[j] == 'x' || t[j] == 'X')
    ensures !QtyTail(t)
  {
    var a := RunOf(t, IsSpace);
    assert a <= k;
    var rest := t[a + 1..];
    var d := RunOf(rest, IsDigit);
    assert rest[j - a - 1] == t[j];
    assert d <= j - a - 1;
    assert rest[d..][j - a - 1 - d] == t[j];
  }

  lemma NoEarlierTail(name: string, tail: string, j: nat, i: nat)
    requires name != [] && Trimmed(name) && 1 <= i < |name| && j < |tail| && (tail[j] == 'x' || tail[j] == 'X')
    ensures !QtyTail((name + tail)[i..])
  {
    var t := (name + tail)[i..];
    assert t[|name| - 1 - i] == name[|name| - 1] && t[|name| + j - i] == tail[j];
    NotATail(t, |name| - 1 - i, |name| + j - i);
  }

  lemma {:induction false} NameEndIs(line: string, from: nat, end: nat)
    requires from <= end < |line| && QtyTail(line[end..])
    requires forall i :: from <= i < end ==> !QtyTail(line[i..])
    ensures NameEnd(line, from) == Some(end)
    decreases end - from
  {
    if from < end { NameEndIs(line, from + 1, end); }
  }

  lemma LineReads(name: string, gap: string, mark: char, digits: string)
    requires name != [] && Trimmed(name) && AllDigits(digits) && digits != []
    requires gap != [] && AllSpace(gap) && (mark == 'x' || mark == 'X')
    ensures NameEnd(name + (gap + [mark] + digits), 1) == Some(|name|)
  {
    var tail := gap + [mark] + digits;
    var line := name + tail;
    TailOf(gap, mark, digits);
    assert line[|name|..] == tail && tail[|gap|] == mark;
    forall i | 1 <= i < |name| ensures !QtyTail(line[i..]) { NoEarlierTail(name, tail, |gap|, i); }
    NameEndIs(line, 1, |name|);
  }

  lemma ItemReads(l: Line)
    requires GoodLine(l)
    ensures ReadLine(ShowLine(l)) == [l.item]
  {
    var d, i := Decimal(l.item.qty), l.item;
    LineReads(i.name, l.gap, l.mark, d);
    TailOf(l.gap, l.mark, d);
    ValueOfDecimal(i.qty);
    StripTrimmed(i.name);
    assert ShowLine(l)[..|i.name|] == i.name && ShowLine(l)[|i.name|..] == l.gap + [l.mark] + d;
  }

  lemma ItemLine(l: Line)
    requires GoodLine(l)
    ensures ShowLine(l) != [] && Free(ShowLine(l), LineBreak) && Trimmed(ShowLine(l))
    ensures Strip(ShowLine(l)) == ShowLine(l)
  {
    var d := Decimal(l.item.qty);
    var line := ShowLine(l);
    assert line[|line| - 1] == d[|d| - 1] && line[0] == l.item.name[0];
    StripTrimmed(line);
  }

  // ---------------------------------------------------------------- the whole message

  function ItemLines(lines: seq<Line>): seq<string> {
    if lines == [] then [] else [ShowLine(lines[0])] + ItemLines(lines[1..])
  }

  lemma {:induction false} SplitItems(first: string, lines: seq<Line>)
    requires Free(first, LineBreak) && GoodLines(lines)
    ensures Split(first + ShowLines(lines), LineBreak) == [first] + ItemLines(lines)
    decreases |lines|
  {
    if lines == [] {
      assert first + ShowLines(lines) == first;
      SplitOne(first, LineBreak);
    } else {
      var rest := ShowLine(lines[0]) + ShowLines(lines[1..]);
      assert first + ShowLines(lines) == first + ['\n'] + rest;
      SplitFirst(first, '\n', rest, LineBreak);
      ItemLine(lines[0]);
      SplitItems(ShowLine(lines[0]), lines[1..]);
    }
  }

  lemma {:induction false} LinesKept(lines: seq<Line>)
    requires GoodLines(lines)
    ensures NonBlank(ItemLines(lines)) == ItemLines(lines)
  {
    if lines == [] {
    } else {
      ItemLine(lines[0]);
      LinesKept(lines[1..]);
      NonBlankCons(ShowLine(lines[0]), ItemLines(lines[1..]));
    }
  }

  lemma ItemsCons(lines: seq<Line>)
    requires lines != []
    ensures Items(lines) == [lines[0].item] + Items(lines[1..])
  {
  }

  lemma {:induction false} LinesRead(lines: seq<Line>)
    requires GoodLines(lines)
    ensures ReadLines(ItemLines(lines)) == Items(lines)
  {
    if lines == [] {
    } else {
      ItemReads(lines[0]);
      LinesRead(lines[1..]);
      ReadLinesCons(ShowLine(lines[0]), ItemLines(lines[1..]));
      ItemsCons(lines);
    }
  }

  lemma {:induction false} ShowLinesEnd(lines: seq<Line>)
    requires lines != [] && GoodLines(lines)
    ensures ShowLines(lines) != [] && !IsSpace(ShowLines(lines)[|ShowLines(lines)| - 1])
  {
    ItemLine(lines[0]);
    if |lines| > 1 {
      ShowLinesEnd(lines[1..]);
    } else {
      assert ShowLine(lines[0]) + ShowLines(lines[1..]) == ShowLine(lines[0]);
    }
  }

  lemma HeaderLine(word: string, ref: string)
    requires Lower(word) == "order:" && ref != [] && forall i :: 0 <= i < |ref| ==> RefChar(ref[i])
    ensures var line := word + ref;
            && Free(line, LineBreak) && Trimmed(line) && Strip(line) == line
            && OrderPrefix(line) && OrderSlug(line) == Lower(ref)
  {
    var line := word + ref;
    HeaderWord(word);
    assert line[|line| - 1] == ref[|ref| - 1];
    assert Free(line, LineBreak) by {
      forall i | 0 <= i < |line| ensures !LineBreak(line[i]) {
        if i >= 6 { assert line[i] == ref[i - 6]; } else { assert line[i] == word[i]; }
      }
    }
    StripTrimmed(line);
    assert line[..6] == word && line[6..] == ref;
    assert ref == ref + [];
    RunOfExact(ref, [], RefChar);
    assert line[6..6 + |ref|] == ref;
  }

  lemma HeaderWord(word: string)
    requires Lower(word) == "order:"
    ensures |word| == 6 && !IsSpace(word[0]) && forall i :: 0 <= i < 6 ==> !LineBreak(word[i])
  {
    assert |word| == |Lower(word)|;
    forall i | 0 <= i < 6 ensures !LineBreak(word[i]) && !IsSpace(word[i]) {
      assert LowerChar(word[i]) == Lower(word)[i];
    }
  }

  lemma LowerHeader()
    ensures Lower("ORDER:") == "order:"
  {
  }

  // MAIN: a message with the order word in any case, a reference in any case, and item lines
  // with any spacing and either x, is read as that cart: the slug in lower case, the items in
  // order.
  lemma CartReads(word: string, ref: string, lines: seq<Line>)
    requires Lower(word) == "order:" && ref != [] && (forall i :: 0 <= i < |ref| ==> RefChar(ref[i]))
    requires GoodLines(lines)
    ensures ParseCart(word + ref + ShowLines(lines)) == Some(Cart(Lower(ref), Items(lines)))
  {
    var head := word + ref;
    var m := head + ShowLines(lines);
    HeaderLine(word, ref);
    if lines != [] {
      ShowLinesEnd(lines);
      assert m[|m| - 1] == ShowLines(lines)[|ShowLines(lines)| - 1];
    } else {
      assert m == head;
    }
    assert m[0] == head[0];
    StripTrimmed(m);
    SplitItems(head, lines);
    LinesKept(lines);
    LinesRead(lines);
    var pieces := [head] + ItemLines(lines);
    assert pieces[1..] == ItemLines(lines);
    assert NonBlank(pieces) == pieces;
  }

  // Any cart written as a message is read back: the same slug, the same items in order.
  lemma CartRoundTrip(c: Cart)
    requires GoodCart(c)
    ensures ParseCart(ShowCart(c)) == Some(c)
  {
    LowerHeader();
    assert Lower(c.slug) == c.slug;
    assert Items(Plainly(c.items)) == c.items;
    CartReads("ORDER:", c.slug, Plainly(c.items));
  }

  // ---------------------------------------------------------------- whatever is read is a good cart

  lemma StripFree(s: string)
    requires Free(s, LineBreak)
    ensures Free(Strip(s), LineBreak)
  {
    StripTrims(s);
    forall i | 0 <= i < |Strip(s)| ensures !LineBreak(Strip(s)[i]) { assert Strip(s)[i] in s; }
  }

  lemma {:induction false} PiecesToLines(pieces: seq<string>)
    requires forall i :: 0 <= i < |pieces| ==> Free(pieces[i], LineBreak)
    ensures forall i :: 0 <= i < |NonBlank(pieces)| ==> Free(NonBlank(pieces)[i], LineBreak)
  {
    if pieces == [] {
    } else {
      PiecesToLines(pieces[1..]);
      StripFree(pieces[0]);
    }
  }

  lemma LineIsGood(line: string)
    requires Free(line, LineBreak)
    ensures forall i :: 0 <= i < |ReadLine(line)| ==> GoodItem(ReadLine(line)[i])
  {
    var end := NameEnd(line, 1);
    if end.Some? {
      StripTrims(line[..end.value]);
      StripFree(line[..end.value]);
    }
  }

  lemma {:induction false} LinesAreGood(lines: seq<string>)
    requires forall i :: 0 <= i < |lines| ==> Free(lines[i], LineBreak)
    ensures forall i :: 0 <= i < |ReadLines(lines)| ==> GoodItem(ReadLines(lines)[i])
  {
    if lines == [] {
    } else {
      LineIsGood(lines[0]);
      LinesAreGood(lines[1..]);
    }
  }

  lemma SlugIsGood(line: string)
    requires OrderPrefix(line)
    ensures GoodRef(OrderSlug(line))
  {
    var rest := line[6..];
    var n := RunOf(rest, RefChar);
    assert n >= 1 by { if n == 0 { assert rest[0] == line[6]; } }
    assert line[6..6 + n] == rest[..n];
  }

  lemma ParsedIsGood(message: string)
    ensures ParseCart(message).Some? ==> GoodCart(ParseCart(message).value)
  {
    var lines := Lines(message);
    SplitFree(Strip(message), LineBreak);
    PiecesToLines(Split(Strip(message), LineBreak));
    if lines != [] && OrderPrefix(lines[0]) {
      SlugIsGood(lines[0]);
      LinesAreGood(lines[1..]);
    }
  }

  // The reference ends where its characters end.
  lemma SlugEnds(word: string, ref: string, rest: string)
    requires Lower(word) == "order:" && ref != [] && (forall i :: 0 <= i < |ref| ==> RefChar(ref[i]))
    requires rest == [] || !RefChar(rest[0])
    ensures OrderPrefix(word + ref + rest) && OrderSlug(word + ref + rest) == Lower(ref)
  {
    var line := word + ref + rest;
    HeaderWord(word);
    assert line[..6] == word && line[6..] == ref + rest && line[6] == ref[0];
    RunOfExact(ref, rest, RefChar);
    assert line[6..6 + |ref|] == ref;
  }

  // A cart is read only from a message whose first line begins with the order word.
  lemma NoOrderNoCart(message: string)
    ensures ParseCart(message).Some? <==>
            && Lines(message) != [] && |Lines(message)[0]| > 6
            && Lower(Lines(message)[0][..6]) == "order:" && RefChar(Lines(message)[0][6])
  {
  }

  // The line is this item: the name is the shortest beginning that leaves only a quantity.
  ghost predicate Reads(line: string, end: nat, item: CartItem) {
    && 1 <= end < |line| && QtyTail(line[end..])
    && (forall i :: 1 <= i < end ==> !QtyTail(line[i..]))
    && item.name == Strip(line[..end]) && item.name != []
    && item.qty == TailQty(line[end..]) && item.qty > 0
  }

  ghost predicate NoTail(line: string, from: nat, end: nat)
    requires end <= |line|
  {
    forall i :: from <= i < end ==> !QtyTail(line[i..])
  }

  lemma NoTailFirst(line: string, from: nat, end: nat)
    requires from < end <= |line| && !QtyTail(line[from..]) && NoTail(line, from + 1, end)
    ensures NoTail(line, from, end)
  {
  }

  lemma {:induction false} NameEndFirst(line: string, from: nat)
    ensures match NameEnd(line, from)
            case Some(end) => end < |line| && NoTail(line, from, end)
            case None => NoTail(line, from, |line|)
    decreases |line| - from
  {
    if from >= |line| || QtyTail(line[from..]) {
    } else {
      NameEndFirst(line, from + 1);
      var end := NameEnd(line, from + 1);
      NoTailFirst(line, from, if end.Some? then end.value else |line|);
    }
  }

  // An item is found in a line exactly when the line is that item, and never two.
  lemma LineMeaning(line: string)
    ensures |ReadLine(line)| <= 1
    ensures forall item :: item in ReadLine(line) <==> exists end :: Reads(line, end, item)
  {
    NameEndFirst(line, 1);
    forall item ensures item in ReadLine(line) <==> exists end :: Reads(line, end, item) {
      if end: nat :| Reads(line, end, item) { NameEndIs(line, 1, end); }
      if item in ReadLine(line) { assert Reads(line, NameEnd(line, 1).value, item); }
    }
  }

  lemma ReadLinesCons(x: string, rest: seq<string>)
    ensures ReadLines([x] + rest) == ReadLine(x) + ReadLines(rest)
  {
    assert ([x] + rest)[1..] == rest;
  }

  lemma NonBlankCons(x: string, rest: seq<string>)
    ensures NonBlank([x] + rest) == (if Strip(x) != [] then [Strip(x)] else []) + NonBlank(rest)
  {
    assert ([x] + rest)[1..] == rest;
  }

  // Lines are read one by one, so a line that is no item costs only itself.
  lemma {:induction false} LinesReadApart(a: seq<string>, b: seq<string>)
    ensures ReadLines(a + b) == ReadLines(a) + ReadLines(b)
  {
    if a == [] {
      assert a + b == b;
    } else {
      assert a + b == [a[0]] + (a[1..] + b) && a == [a[0]] + a[1..];
      LinesReadApart(a[1..], b);
      ReadLinesCons(a[0], a[1..] + b);
      ReadLinesCons(a[0], a[1..]);
      Regroup(ReadLine(a[0]), ReadLines(a[1..]), ReadLines(b));
    }
  }

  // And so does a blank line.
  lemma {:induction false} BlanksDropApart(a: seq<string>, b: seq<string>)
    ensures NonBlank(a + b) == NonBlank(a) + NonBlank(b)
  {
    if a == [] {
      assert a + b == b;
    } else {
      assert a + b == [a[0]] + (a[1..] + b) && a == [a[0]] + a[1..];
      BlanksDropApart(a[1..], b);
      NonBlankCons(a[0], a[1..] + b);
      NonBlankCons(a[0], a[1..]);
      RegroupLines(if Strip(a[0]) != [] then [Strip(a[0])] else [], NonBlank(a[1..]), NonBlank(b));
    }
  }

  // The carts that messages can express are exactly the good ones.
  lemma CartsExactly(c: Cart)
    ensures GoodCart(c) <==> exists m :: ParseCart(m) == Some(c)
  {
    if GoodCart(c) { CartRoundTrip(c); }
    forall m | ParseCart(m) == Some(c) ensures GoodCart(c) { ParsedIsGood(m); }
  }

  // So every generated slug is understood in a cart message.
  lemma SlugInCart(slug: string, items: seq<CartItem>)
    requires Slugs.IsSlug(slug) && forall i :: 0 <= i < |items| ==> GoodItem(items[i])
    ensures ParseCart(ShowCart(Cart(slug, items))) == Some(Cart(slug, items))
  {
    assert forall i :: 0 <= i < |slug| ==> Slugs.SlugChar(slug[i]);
    CartRoundTrip(Cart(slug, items));
  }
}
