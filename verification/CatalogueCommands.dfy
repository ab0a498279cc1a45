/**
 * The trader's ADD and PRICE commands: one message may list many products, with
 * prices written "3500" or "3,500", separated by commas or by line breaks.
 */
module CatalogueCommands {
  import opened Basics
  import opened Text

  datatype Item = Item(name: string, price: nat)

  // ---------------------------------------------------------------- parsing

  // Every digit-comma-digit, left to right and without overlap, loses its comma.
  function DropSeparators(s: string): string {
    if s == [] then []
    else if |s| >= 3 && IsDigit(s[0]) && s[1] == ',' && IsDigit(s[2]) then
      [s[0], s[2]] + DropSeparators(s[3..])
    else
      [s[0]] + DropSeparators(s[1..])
  }

  predicate Cut(c: char) { c == ',' || c == '\n' }

  function SpaceRun(s: string): nat { RunOf(s, IsSpace) }

  predicate NumberChar(c: char) { IsDigit(c) || c == ',' }

  function NumberRun(s: string): nat { RunOf(s, NumberChar) }

  // White space, a number, white space, and nothing else.
  predicate PriceTail(t: string) {
    var a := SpaceRun(t);
    && 1 <= a < |t| && IsDigit(t[a])
    && AllSpace(t[a + NumberRun(t[a..])..])
  }

  function TailNumber(t: string): string {
    var a := SpaceRun(t);
    t[a..a + NumberRun(t[a..])]
  }

  // Where the shortest name ends: the first place, after at least one character, from
  // which the rest of the line is a price.
  function NameEnd(line: string, from: nat): (end: Option<nat>)
    ensures end.Some? ==> from <= end.value <= |line|
    decreases |line| - from
  {
    if from > |line| then None
    else if PriceTail(line[from..]) then Some(from)
    else if from == |line| then None
    else NameEnd(line, from + 1)
  }

  lemma {:induction false} NameEndIs(line: string, from: nat, end: nat)
    requires from <= end <= |line| && PriceTail(line[end..])
    requires forall i :: from <= i < end ==> !PriceTail(line[i..])
    ensures NameEnd(line, from) == Some(end)
    decreases end - from
  {
    if from < end { NameEndIs(line, from + 1, end); }
  }

  function ParsePart(part: string): seq<Item> {
    var line := Strip(part);
    var end := NameEnd(line, 1);
    if line == [] || end.None? then []
    else
      var name, number := Strip(line[..end.value]), TailNumber(line[end.value..]);
      if AllDigits(number) && name != [] && Value(number) > 0
      then [Item(name, Value(number))] else []
  }

  function ParseParts(parts: seq<string>): seq<Item> {
    if parts == [] then [] else ParsePart(parts[0]) + ParseParts(parts[1..])
  }

  predicate StartsWith(s: string, word: string) {
    |word| <= |s| && Lower(s[..|word|]) == word
  }

  function AddBody(s: string): string {
    if StartsWith(s, "add") then TrimLeft(s[3..]) else s
  }

  function ParseAdd(message: string): seq<Item> {
    var body := AddBody(Strip(message));
    if body == [] then [] else ParseParts(Split(DropSeparators(body), Cut))
  }

  ghost predicate NoTail(line: string, from: nat, end: nat)
    requires end <= |line| + 1
  {
    forall i :: from <= i < end ==> !PriceTail(line[i..])
  }

  lemma NoTailFirst(line: string, from: nat, end: nat)
    requires from <= |line| && from < end <= |line| + 1 && !PriceTail(line[from..]) && NoTail(line, from + 1, end)
    ensures NoTail(line, from, end)
  {
  }

  lemma {:induction false} NameEndFirst(line: string, from: nat)
    ensures var end := NameEnd(line, from);
            && (end.Some? ==> PriceTail(line[end.value..]) && NoTail(line, from, end.value))
            && (end.None? ==> NoTail(line, from, |line| + 1))
    decreases |line| - from
  {
    if from <= |line| && !PriceTail(line[from..]) {
      if from == |line| {
        NoTailFirst(line, from, |line| + 1);
      } else {
        NameEndFirst(line, from + 1);
        var end := NameEnd(line, from + 1);
        NoTailFirst(line, from, if end.Some? then end.value else |line| + 1);
      }
    }
  }

  // The line is this product: its name is the shortest beginning that leaves only a price.
  ghost predicate Reads(line: string, end: nat, item: Item) {
    && 1 <= end <= |line| && PriceTail(line[end..])
    && (forall i :: 1 <= i < end ==> !PriceTail(line[i..]))
    && item.name == Strip(line[..end]) && item.name != []
    && AllDigits(TailNumber(line[end..])) && item.price == Value(TailNumber(line[end..])) && item.price > 0
  }

  lemma ReadsAtFirst(line: string, end: nat, item: Item)
    requires Reads(line, end, item)
    ensures NameEnd(line, 1) == Some(end)
  {
    NameEndIs(line, 1, end);
  }

  lemma ParsedReads(part: string, item: Item)
    requires item in ParsePart(part)
    ensures NameEnd(Strip(part), 1).Some? && Reads(Strip(part), NameEnd(Strip(part), 1).value, item)
  {
    NameEndFirst(Strip(part), 1);
  }

  lemma PartMeaning(part: string)
    ensures |ParsePart(part)| <= 1
    ensures forall item :: item in ParsePart(part) <==> exists end :: Reads(Strip(part), end, item)
  {
    forall item ensures item in ParsePart(part) <==> exists end :: Reads(Strip(part), end, item) {
      if end: nat :| Reads(Strip(part), end, item) { ReadsAtFirst(Strip(part), end, item); }
      if item in ParsePart(part) { ParsedReads(part, item); }
    }
  }

  // The loop the program runs, and what it does with one part: it finds a product exactly
  // when the trimmed part is one.
  method ReadPart(part: string) returns (found: seq<Item>)
    ensures |found| <= 1 && forall item :: item in found <==> exists end :: Reads(Strip(part), end, item)
    ensures found == ParsePart(part)
  {
    PartMeaning(part);
    var line := Strip(part);
    if line == [] { return []; }
    var end := NameEnd(line, 1);
    if end.None? { return []; }
    var name, number := Strip(line[..end.value]), TailNumber(line[end.value..]);
    if AllDigits(number) && name != [] && Value(number) > 0 {
      return [Item(name, Value(number))];
    }
    return [];
  }

  method ReadParts(parts: seq<string>) returns (items: seq<Item>)
    ensures items == ParseParts(parts)
  {
    items := [];
    assert parts[0..] == parts;
    for i := 0 to |parts|
      invariant ParseParts(parts) == items + ParseParts(parts[i..])
    {
      PartsFrom(parts, i);
      ghost var before, rest := items, ParseParts(parts[i + 1..]);
      var found := ReadPart(parts[i]);
      items := items + found;
      Gather(before, found, rest);
    }
    assert parts[|parts|..] == [];
  }

  lemma Gather(x: seq<Item>, y: seq<Item>, z: seq<Item>)
    ensures x + (y + z) == (x + y) + z
  {
  }

  lemma PartsFrom(parts: seq<string>, i: nat)
    requires i < |parts|
    ensures ParseParts(parts[i..]) == ParsePart(parts[i]) + ParseParts(parts[i + 1..])
  {
    assert parts[i..][0] == parts[i] && parts[i..][1..] == parts[i + 1..];
  }

  method ParseAddItems(message: string) returns (items: seq<Item>)
    ensures items == ParseAdd(message)
  {
    var body := AddBody(Strip(message));
    if body == [] { return []; }
    items := ReadParts(Split(DropSeparators(body), Cut));
  }

  // Parts are read one by one, so a part that is no product costs only itself.
  lemma {:induction false} PartsReadApart(a: seq<string>, b: seq<string>)
    ensures ParseParts(a + b) == ParseParts(a) + ParseParts(b)
  {
    if a == [] {
      assert a + b == b;
    } else {
      assert (a + b)[1..] == a[1..] + b;
      PartsReadApart(a[1..], b);
      Gather(ParsePart(a[0]), ParseParts(a[1..]), ParseParts(b));
    }
  }

  // ---------------------------------------------------------------- layer one

  datatype Intent =
    | OrderCommand(verb: string, ref: string)
    | TraderAdd(items: seq<Item>)
    | TraderPrice(items: seq<Item>)
    | Unmatched

  predicate HexChar(c: char) { IsDigit(c) || 'a' <= c <= 'f' || 'A' <= c <= 'F' }

  predicate WordChar(c: char) { IsDigit(c) || 'a' <= c <= 'z' || IsUpper(c) || c == '_' }

  function HexRun(s: string): nat { RunOf(s, HexChar) }

  // verb, white space, 6 to 16 hex digits, end of the word
  function OrderRef(s: string, verb: string): Option<string> {
    if !StartsWith(s, verb) then None
    else
      var rest := s[|verb|..];
      var a := SpaceRun(rest);
      var n := HexRun(rest[a..]);
      if a >= 1 && 6 <= n <= 16 && (a + n == |rest| || !WordChar(rest[a + n]))
      then Some(Lower(rest[a..a + n])) else None
  }

  function FirstRef(s: string, verbs: seq<string>): Option<Intent> {
    if verbs == [] then None
    else
      var r := OrderRef(s, verbs[0]);
      if r.Some? then Some(OrderCommand(verbs[0], r.value)) else FirstRef(s, verbs[1..])
  }

  const VERBS := ["confirm", "cancel", "paid", "credit"]

  predicate HasCommand(s: string, word: string) {
    StartsWith(s, word) && |s| > |word| && IsSpace(s[|word|])
  }

  function Layer1(message: string): Intent {
    var s := Strip(message);
    var command := FirstRef(s, VERBS);
    if command.Some? then command.value
    else
      var adds := if HasCommand(s, "add") then ParseAdd(s) else [];
      if adds != [] then TraderAdd(adds)
      else
        var prices := if HasCommand(s, "price") then ParseAdd("ADD" + s[5..]) else [];
        if prices != [] then TraderPrice(prices) else Unmatched
  }

  // ---------------------------------------------------------------- printing

  predicate GoodItem(i: Item) {
    i.name != [] && Trimmed(i.name) && Free(i.name, Cut) && i.price > 0
  }

  predicate GoodItems(items: seq<Item>) { forall i :: 0 <= i < |items| ==> GoodItem(items[i]) }

  // Products are separated by a comma, a comma and a space, or a line break.
  predicate GoodSeparator(sep: string) { sep == "," || sep == ", " || sep == "\n" }

  // A bare comma before a digit is taken for a grouping comma.
  predicate Separable(items: seq<Item>, sep: string) {
    sep == "," ==> forall k :: 1 <= k < |items| && items[k].name != [] ==> !IsDigit(items[k].name[0])
  }

  datatype Style = WithCommas | Plain

  function Number(n: nat, style: Style): string { if style.Plain? then Decimal(n) else Grouped(n) }

  function ShowItem(i: Item, style: Style): string { i.name + " " + Number(i.price, style) }

  function Show(items: seq<Item>, sep: string, style: Style): string {
    if items == [] then []
    else if |items| == 1 then ShowItem(items[0], style)
    else ShowItem(items[0], style) + sep + Show(items[1..], sep, style)
  }

  function Command(word: string, items: seq<Item>, sep: string): string {
    word + " " + Show(items, sep, WithCommas)
  }

  // ---------------------------------------------------------------- removing grouping commas

  lemma DropChar(c: char, rest: string)
    requires !IsDigit(c) || rest == [] || rest[0] != ',' || |rest| < 2 || !IsDigit(rest[1])
    ensures DropSeparators([c] + rest) == [c] + DropSeparators(rest)
  {
    var s := [c] + rest;
    assert s[1..] == rest;
  }

  lemma {:induction false} DropPlain(a: string, rest: string)
    requires ',' !in a && (rest == [] || rest[0] != ',')
    ensures DropSeparators(a + rest) == a + DropSeparators(rest)
  {
    if a == [] {
      assert a + rest == rest;
    } else {
      var tail := a[1..] + rest;
      assert a + rest == [a[0]] + tail;
      assert tail == [] || tail[0] != ',';
      DropChar(a[0], tail);
      DropPlain(a[1..], rest);
      Prepend(a, DropSeparators(rest));
    }
  }

  lemma Prepend(a: string, r: string)
    requires a != []
    ensures [a[0]] + (a[1..] + r) == a + r
  {
  }

  // One group boundary: the comma goes, and the scan stands at the group's last digit.
  lemma DropJoint(last: char, t: string, rest: string)
    requires IsDigit(last) && |t| == 3 && AllDigits(t)
    ensures DropSeparators([last] + ("," + t + rest)) == [last, t[0], t[1]] + DropSeparators([t[2]] + rest)
  {
    var s := [last] + ("," + t + rest);
    assert s[0] == last && s[1] == ',' && s[2] == t[0];
    assert s[3..] == [t[1]] + ([t[2]] + rest);
    DropChar(t[1], [t[2]] + rest);
    var dropped := DropSeparators([t[2]] + rest);
    assert [last, t[0]] + ([t[1]] + dropped) == [last, t[0], t[1]] + dropped;
  }

  // `g` is a way to write the digits `d`: everything up to the last digit comes out without
  // commas, and the scan stands at that last digit.
  ghost predicate Writes(g: string, d: string, rest: string) {
    d != [] && DropSeparators(g + rest) == d[..|d| - 1] + DropSeparators([d[|d| - 1]] + rest)
  }

  lemma DigitsWrite(d: string, rest: string)
    requires d != [] && AllDigits(d)
    ensures Writes(d, d, rest)
  {
    var a, b := d[..|d| - 1], [d[|d| - 1]] + rest;
    assert d + rest == a + b;
    DropPlain(a, b);
  }

  lemma GroupWrites(g: string, e: string, t: string, rest: string)
    requires |t| == 3 && AllDigits(t) && e != [] && AllDigits(e) && Writes(g, e, "," + t + rest)
    ensures Writes(g + "," + t, e + t, rest)
  {
    var last, init := e[|e| - 1], e[..|e| - 1];
    DropJoint(last, t, rest);
    assert g + "," + t + rest == g + ("," + t + rest);
    var d := e + t;
    assert d[..|d| - 1] == init + [last, t[0], t[1]] && d[|d| - 1] == t[2];
    assert init + ([last, t[0], t[1]] + DropSeparators([t[2]] + rest)) ==
           init + [last, t[0], t[1]] + DropSeparators([t[2]] + rest);
  }

  // However many groups there are.
  lemma {:induction false} DropGrouped(n: nat, rest: string)
    ensures Writes(Grouped(n), Decimal(n), rest)
  {
    if n < 1000 {
      DigitsWrite(Decimal(n), rest);
    } else {
      var t := ThreeDigits(n % 1000);
      DropGrouped(n / 1000, "," + t + rest);
      GroupWrites(Grouped(n / 1000), Decimal(n / 1000), t, rest);
      DecimalByThousands(n);
    }
  }

  // What follows a price never continues its digits.
  predicate Safe(rest: string) { rest == [] || rest[0] != ',' || |rest| < 2 || !IsDigit(rest[1]) }

  lemma Rejoin(a: string, d: string, r: string)
    requires d != []
    ensures a + (d[..|d| - 1] + ([d[|d| - 1]] + r)) == a + d + r
  {
    assert d == d[..|d| - 1] + [d[|d| - 1]];
  }

  lemma DropWritten(a: string, g: string, d: string, rest: string)
    requires ',' !in a && g != [] && g[0] != ',' && Safe(rest) && Writes(g, d, rest)
    ensures DropSeparators(a + g + rest) == a + d + DropSeparators(rest)
  {
    assert a + g + rest == a + (g + rest);
    DropPlain(a, g + rest);
    DropChar(d[|d| - 1], rest);
    Rejoin(a, d, DropSeparators(rest));
  }

  lemma DropItem(i: Item, rest: string)
    requires Free(i.name, Cut) && Safe(rest)
    ensures DropSeparators(ShowItem(i, WithCommas) + rest) == ShowItem(i, Plain) + DropSeparators(rest)
  {
    assert ',' !in i.name by { assert forall k :: 0 <= k < |i.name| ==> !Cut(i.name[k]); }
    DropGrouped(i.price, rest);
    DropWritten(i.name + " ", Grouped(i.price), Decimal(i.price), rest);
  }

  lemma DropSeparator(sep: string, rest: string)
    requires GoodSeparator(sep)
    ensures DropSeparators(sep + rest) == sep + DropSeparators(rest)
  {
    if sep == ", " {
      assert sep + rest == [','] + ([' '] + rest);
      DropChar(',', [' '] + rest);
      DropChar(' ', rest);
      assert [','] + ([' '] + DropSeparators(rest)) == sep + DropSeparators(rest);
    } else {
      DropChar(sep[0], rest);
      assert sep == [sep[0]];
    }
  }

  lemma Associate(x: string, y: string, z: string)
    ensures x + (y + z) == x + y + z
  {
  }

  // A bare comma between a price and a digit goes, like a grouping comma.
  lemma DropGlueDigit(last: char, y: string)
    requires IsDigit(last) && |y| >= 2 && IsDigit(y[0]) && y[1] != ','
    ensures DropSeparators([last] + ("," + y)) == [last] + DropSeparators(y)
  {
    var s := [last] + ("," + y);
    assert s[0] == last && s[1] == ',' && s[2] == y[0] && s[3..] == y[1..];
    assert y == [y[0]] + y[1..];
    DropChar(y[0], y[1..]);
  }

  lemma DropGlue(a: string, g: string, d: string, y: string)
    requires ',' !in a && g != [] && g[0] != ',' && AllDigits(d) && Writes(g, d, "," + y)
    requires |y| >= 2 && IsDigit(y[0]) && y[1] != ','
    ensures DropSeparators(a + g + ("," + y)) == a + d + DropSeparators(y)
  {
    assert a + g + ("," + y) == a + (g + ("," + y));
    DropPlain(a, g + ("," + y));
    DropGlueDigit(d[|d| - 1], y);
    Rejoin(a, d, DropSeparators(y));
  }

  lemma DropItemGlued(i: Item, y: string)
    requires Free(i.name, Cut) && |y| >= 2 && IsDigit(y[0]) && y[1] != ','
    ensures DropSeparators(ShowItem(i, WithCommas) + ("," + y)) == ShowItem(i, Plain) + DropSeparators(y)
  {
    assert ',' !in i.name by { assert forall k :: 0 <= k < |i.name| ==> !Cut(i.name[k]); }
    DropGrouped(i.price, "," + y);
    DropGlue(i.name + " ", Grouped(i.price), Decimal(i.price), y);
  }

  // What is left of the separator before an item.
  function Left(sep: string, next: Item): string {
    if sep == "," && next.name != [] && IsDigit(next.name[0]) then "" else sep
  }

  // The list as the rewrite leaves it.
  function Glued(items: seq<Item>, sep: string): string {
    if items == [] then []
    else if |items| == 1 then ShowItem(items[0], Plain)
    else ShowItem(items[0], Plain) + (Left(sep, items[1]) + Glued(items[1..], sep))
  }

  lemma ShowBegins(items: seq<Item>, sep: string)
    requires GoodItems(items) && items != []
    ensures var s := Show(items, sep, WithCommas);
            |s| >= 2 && s[0] == items[0].name[0] && s[1] != ','
  {
    var name := items[0].name;
    assert Free(name, Cut);
    assert ShowItem(items[0], WithCommas)[..|name| + 1] == name + " ";
    assert Show(items, sep, WithCommas)[..|name| + 1] == name + " ";
  }

  lemma DropNext(i: Item, sep: string, next: Item, y: string)
    requires GoodItem(i) && GoodItem(next) && GoodSeparator(sep)
    requires |y| >= 2 && y[0] == next.name[0] && y[1] != ','
    ensures DropSeparators(ShowItem(i, WithCommas) + sep + y) ==
            ShowItem(i, Plain) + (Left(sep, next) + DropSeparators(y))
  {
    assert ShowItem(i, WithCommas) + sep + y == ShowItem(i, WithCommas) + (sep + y);
    if sep == "," && IsDigit(y[0]) {
      DropItemGlued(i, y);
      assert Left(sep, next) + DropSeparators(y) == DropSeparators(y);
    } else {
      assert Safe(sep + y);
      DropItem(i, sep + y);
      DropSeparator(sep, y);
    }
  }

  // MAIN: the non-overlapping rewrite removes every grouping comma, and of the separators
  // exactly the bare commas before a digit.
  lemma {:induction false} DropShow(items: seq<Item>, sep: string)
    requires GoodItems(items) && GoodSeparator(sep)
    ensures DropSeparators(Show(items, sep, WithCommas)) == Glued(items, sep)
  {
    if |items| == 1 {
      DropItem(items[0], []);
      assert ShowItem(items[0], WithCommas) + [] == ShowItem(items[0], WithCommas);
      assert ShowItem(items[0], Plain) + DropSeparators([]) == ShowItem(items[0], Plain);
    } else if items != [] {
      ShowBegins(items[1..], sep);
      DropNext(items[0], sep, items[1], Show(items[1..], sep, WithCommas));
      DropShow(items[1..], sep);
    }
  }

  lemma SeparableFirst(items: seq<Item>, sep: string)
    requires |items| > 1 && GoodItems(items)
    ensures Separable(items, sep) <==> Left(sep, items[1]) == sep && Separable(items[1..], sep)
  {
    if Separable(items, sep) {
      assert forall k :: 1 <= k < |items[1..]| ==> items[1..][k] == items[k + 1];
    }
    if Left(sep, items[1]) == sep && Separable(items[1..], sep) {
      assert forall k :: 2 <= k < |items| ==> items[k] == items[1..][k - 1];
    }
  }

  lemma {:induction false} GluedPlain(items: seq<Item>, sep: string)
    requires GoodItems(items) && Separable(items, sep)
    ensures Glued(items, sep) == Show(items, sep, Plain)
  {
    if |items| > 1 {
      SeparableFirst(items, sep);
      GluedPlain(items[1..], sep);
      Associate(ShowItem(items[0], Plain), sep, Show(items[1..], sep, Plain));
    }
  }

  // ---------------------------------------------------------------- reading one line back

  lemma TailOf(digits: string)
    requires AllDigits(digits) && digits != []
    ensures PriceTail(" " + digits) && TailNumber(" " + digits) == digits
  {
    RunOfExact(" ", digits, IsSpace);
    assert (" " + digits)[1..] == digits;
    assert digits == digits + [];
    RunOfExact(digits, [], NumberChar);
  }

  // No shorter name fits: before the end of the name the rest is not a price, because the
  // name ends in something other than white space.
  lemma NotATail(t: string, k: nat)
    requires k + 1 < |t| && !IsSpace(t[k]) && t[k + 1] == ' ' && !IsSpace(t[|t| - 1])
    ensures !PriceTail(t)
  {
    var a := SpaceRun(t);
    assert forall j :: 0 <= j < a ==> IsSpace(t[..a][j]);
    assert a <= k;
    var n := NumberRun(t[a..]);
    assert !NumberChar(t[a..][k + 1 - a]);
    assert a + n <= k + 1;
    assert t[a + n..][|t| - 1 - (a + n)] == t[|t| - 1];
  }

  lemma NoEarlierTail(name: string, digits: string, i: nat)
    requires name != [] && Trimmed(name) && 1 <= i < |name|
    requires AllDigits(digits) && digits != []
    ensures !PriceTail((name + " " + digits)[i..])
  {
    NotATail((name + " " + digits)[i..], |name| - 1 - i);
  }

  lemma LineReads(name: string, digits: string)
    requires name != [] && Trimmed(name) && AllDigits(digits) && digits != []
    ensures NameEnd(name + " " + digits, 1) == Some(|name|)
  {
    var line := name + " " + digits;
    TailOf(digits);
    assert line[|name|..] == " " + digits;
    forall i | 1 <= i < |name| ensures !PriceTail(line[i..]) {
      NoEarlierTail(name, digits, i);
    }
    NameEndIs(line, 1, |name|);
  }

  lemma StripLead(lead: string, line: string)
    requires (lead == "" || lead == " ") && line != [] && Trimmed(line)
    ensures Strip(lead + line) == line
  {
    StripTrimmed(line);
    if lead == "" { assert lead + line == line; } else { assert (lead + line)[1..] == line; }
  }

  lemma LineSplits(name: string, digits: string)
    ensures var line := name + " " + digits;
            line[..|name|] == name && line[|name|..] == " " + digits
  {
  }

  lemma ParseOne(part: string, line: string, name: string, digits: string)
    requires Strip(part) == line && NameEnd(line, 1) == Some(|name|) && name != [] && Strip(name) == name
    requires |name| <= |line| && line[..|name|] == name && TailNumber(line[|name|..]) == digits
    requires AllDigits(digits) && Value(digits) > 0
    ensures ParsePart(part) == [Item(name, Value(digits))]
  {
  }

  lemma PartReads(i: Item, lead: string)
    requires GoodItem(i) && GoodLead(lead)
    ensures ParsePart(lead + ShowItem(i, Plain)) == [i]
  {
    var digits := Decimal(i.price);
    StripLead(lead, i.name + " " + digits);
    LineReads(i.name, digits);
    LineSplits(i.name, digits);
    TailOf(digits);
    StripTrimmed(i.name);
    ValueOfDecimal(i.price);
    ParseOne(lead + ShowItem(i, Plain), i.name + " " + digits, i.name, digits);
  }

  lemma ShowFree(i: Item, lead: string)
    requires GoodItem(i) && GoodLead(lead)
    ensures Free(lead + ShowItem(i, Plain), Cut)
  {
    assert AllDigits(Decimal(i.price));
  }

  lemma PartsCons(first: string, rest: seq<string>)
    ensures ParseParts([first] + rest) == ParsePart(first) + ParseParts(rest)
  {
    assert ([first] + rest)[1..] == rest;
  }

  lemma ShowCons(items: seq<Item>, sep: string, lead: string)
    requires |items| > 1 && sep != []
    ensures lead + Show(items, sep, Plain) ==
              (lead + ShowItem(items[0], Plain)) + [sep[0]] + (sep[1..] + Show(items[1..], sep, Plain))
  {
    Reassociate(lead, ShowItem(items[0], Plain), sep, Show(items[1..], sep, Plain));
  }

  lemma Reassociate(a: string, b: string, sep: string, c: string)
    requires sep != []
    ensures a + (b + sep + c) == (a + b) + [sep[0]] + (sep[1..] + c)
  {
    assert sep == [sep[0]] + sep[1..];
  }

  predicate GoodLead(lead: string) { lead == "" || lead == " " }

  lemma OneReads(i: Item, lead: string)
    requires GoodItem(i) && GoodLead(lead)
    ensures ParseParts(Split(lead + ShowItem(i, Plain), Cut)) == [i]
  {
    var first := lead + ShowItem(i, Plain);
    PartReads(i, lead);
    ShowFree(i, lead);
    SplitOne(first, Cut);
    PartsCons(first, []);
    assert [first] + [] == [first];
  }

  lemma NextReads(i: Item, lead: string, c: char, rest: string, more: seq<Item>)
    requires GoodItem(i) && GoodLead(lead) && Cut(c)
    requires ParseParts(Split(rest, Cut)) == more
    ensures ParseParts(Split((lead + ShowItem(i, Plain)) + [c] + rest, Cut)) == [i] + more
  {
    var first := lead + ShowItem(i, Plain);
    PartReads(i, lead);
    ShowFree(i, lead);
    SplitFirst(first, c, rest, Cut);
    PartsCons(first, Split(rest, Cut));
  }

  lemma {:induction false} ShowReads(items: seq<Item>, sep: string, lead: string)
    requires GoodItems(items) && items != [] && GoodSeparator(sep) && GoodLead(lead)
    ensures ParseParts(Split(lead + Show(items, sep, Plain), Cut)) == items
    decreases |items|
  {
    if |items| == 1 {
      OneReads(items[0], lead);
      assert Show(items, sep, Plain) == ShowItem(items[0], Plain);
    } else {
      ShowCons(items, sep, lead);
      ShowReads(items[1..], sep, sep[1..]);
      NextReads(items[0], lead, sep[0], sep[1..] + Show(items[1..], sep, Plain), items[1..]);
      assert [items[0]] + items[1..] == items;
    }
  }

  // ---------------------------------------------------------------- lost separators

  lemma {:induction false} SplitBehind(a: string, b: string)
    requires Free(a, Cut)
    ensures |Split(a + b, Cut)| == |Split(b, Cut)|
  {
    if a == [] {
      assert a + b == b;
    } else {
      assert (a + b)[1..] == a[1..] + b;
      SplitBehind(a[1..], b);
    }
  }

  lemma {:induction false} AtMostOnePerPart(parts: seq<string>)
    ensures |ParseParts(parts)| <= |parts|
  {
    if parts == [] {
    } else {
      AtMostOnePerPart(parts[1..]);
    }
  }

  lemma GluedPart(i: Item, sep: string, rest: string)
    requires GoodItem(i) && (sep == "" || sep == ",")
    ensures |Split(ShowItem(i, Plain) + (sep + rest), Cut)| == |Split(rest, Cut)| + |sep|
  {
    var x := ShowItem(i, Plain);
    ShowFree(i, "");
    assert "" + x == x;
    if sep == "" {
      assert sep + rest == rest;
      SplitBehind(x, rest);
    } else {
      assert x + (sep + rest) == x + [','] + rest;
      SplitFirst(x, ',', rest, Cut);
    }
  }

  // With a bare comma there are fewer parts than products as soon as one comma is lost.
  lemma {:induction false} GluedParts(items: seq<Item>)
    requires GoodItems(items) && items != []
    ensures |Split(Glued(items, ","), Cut)| <= |items|
    ensures !Separable(items, ",") ==> |Split(Glued(items, ","), Cut)| < |items|
  {
    if |items| == 1 {
      ShowFree(items[0], "");
      assert "" + ShowItem(items[0], Plain) == ShowItem(items[0], Plain);
      SplitOne(ShowItem(items[0], Plain), Cut);
    } else {
      SeparableFirst(items, ",");
      GluedParts(items[1..]);
      GluedPart(items[0], Left(",", items[1]), Glued(items[1..], ","));
    }
  }

  // Reading the rewritten list gives the products back exactly when no separator was lost.
  lemma GluedReads(items: seq<Item>, sep: string)
    requires GoodItems(items) && items != [] && GoodSeparator(sep)
    ensures ParseParts(Split(Glued(items, sep), Cut)) == items <==> Separable(items, sep)
  {
    if Separable(items, sep) {
      GluedPlain(items, sep);
      ShowReads(items, sep, "");
      assert "" + Show(items, sep, Plain) == Show(items, sep, Plain);
    } else {
      GluedParts(items);
      AtMostOnePerPart(Split(Glued(items, sep), Cut));
    }
  }

  lemma {:induction false} ShowEnds(items: seq<Item>, sep: string)
    requires GoodItems(items) && items != []
    ensures var s := Show(items, sep, WithCommas);
            s != [] && !IsSpace(s[0]) && IsDigit(s[|s| - 1])
    decreases |items|
  {
    if |items| > 1 { ShowEnds(items[1..], sep); }
  }

  lemma KeywordChars(word: string, lower: string)
    requires Lower(word) == lower && forall i :: 0 <= i < |lower| ==> 'a' <= lower[i] <= 'z'
    ensures |word| == |lower| && forall i :: 0 <= i < |word| ==> !IsSpace(word[i])
  {
    assert forall i :: 0 <= i < |word| ==> LowerChar(word[i]) == Lower(word)[i];
  }

  // The shape of a written command.
  lemma CommandShape(word: string, lower: string, items: seq<Item>, sep: string)
    requires Lower(word) == lower && lower != [] && forall i :: 0 <= i < |lower| ==> 'a' <= lower[i] <= 'z'
    requires GoodItems(items) && items != []
    ensures var s := Command(word, items, sep);
            && Strip(s) == s && |word| == |lower|
            && HasCommand(s, lower)
            && TrimLeft(s[|word|..]) == Show(items, sep, WithCommas)
  {
    ShowEnds(items, sep);
    KeywordChars(word, lower);
    WordThen(word, Show(items, sep, WithCommas));
  }

  lemma WordThen(word: string, shown: string)
    requires word != [] && !IsSpace(word[0]) && shown != [] && !IsSpace(shown[0]) && !IsSpace(shown[|shown| - 1])
    ensures var s := word + " " + shown;
            && Strip(s) == s && s[..|word|] == word && IsSpace(s[|word|])
            && TrimLeft(s[|word|..]) == shown
  {
    var s := word + " " + shown;
    StripTrimmed(s);
    assert s[|word|..] == " " + shown;
    assert (" " + shown)[1..] == shown;
  }

  // MAIN: writing a list of products as a command and parsing it gives the list back, whatever
  // the case of the keyword, grouped prices included, with any separator, if and only if no
  // bare comma stands before a name that begins with a digit.
  lemma AddRoundTrip(word: string, items: seq<Item>, sep: string)
    requires Lower(word) == "add"
    requires GoodItems(items) && items != [] && GoodSeparator(sep)
    ensures ParseAdd(Command(word, items, sep)) == items <==> Separable(items, sep)
  {
    CommandShape(word, "add", items, sep);
    ShownReads(Command(word, items, sep), items, sep);
  }

  lemma ShownReads(s: string, items: seq<Item>, sep: string)
    requires Strip(s) == s && AddBody(s) == Show(items, sep, WithCommas)
    requires GoodItems(items) && items != [] && GoodSeparator(sep)
    ensures ParseAdd(s) == items <==> Separable(items, sep)
  {
    ShowEnds(items, sep);
    DropShow(items, sep);
    GluedReads(items, sep);
  }

  lemma {:induction false} TrimGap(gap: string, shown: string)
    requires AllSpace(gap) && shown != [] && !IsSpace(shown[0])
    ensures TrimLeft(gap + shown) == shown
  {
    if gap == [] {
      assert gap + shown == shown;
    } else {
      assert (gap + shown)[1..] == gap[1..] + shown;
      TrimGap(gap[1..], shown);
    }
  }

  // The same with any white space after the keyword, or none.
  lemma AddAnyGap(word: string, gap: string, items: seq<Item>, sep: string)
    requires Lower(word) == "add" && AllSpace(gap)
    requires GoodItems(items) && items != [] && GoodSeparator(sep)
    ensures ParseAdd(word + gap + Show(items, sep, WithCommas)) == items <==> Separable(items, sep)
  {
    var shown := Show(items, sep, WithCommas);
    KeywordChars(word, "add");
    ShowEnds(items, sep);
    GapShape(word, gap, shown);
    ShownReads(word + gap + shown, items, sep);
  }

  lemma GapShape(word: string, gap: string, shown: string)
    requires Lower(word) == "add" && |word| == 3 && !IsSpace(word[0]) && AllSpace(gap)
    requires shown != [] && !IsSpace(shown[0]) && !IsSpace(shown[|shown| - 1])
    ensures Strip(word + gap + shown) == word + gap + shown && AddBody(word + gap + shown) == shown
  {
    var s := word + gap + shown;
    assert s[0] == word[0] && s[|s| - 1] == shown[|shown| - 1];
    StripTrimmed(s);
    assert s[..3] == word && s[3..] == gap + shown;
    TrimGap(gap, shown);
  }

  // No order command starts like a catalogue command.
  lemma StartChars(s: string, word: string)
    requires StartsWith(s, word) && |word| >= 2
    ensures |s| >= 2 && LowerChar(s[0]) == word[0] && LowerChar(s[1]) == word[1]
  {
    assert Lower(s[..|word|])[0] == LowerChar(s[0]) && Lower(s[..|word|])[1] == LowerChar(s[1]);
  }

  lemma {:induction false} NoVerb(s: string, verbs: seq<string>)
    requires |s| >= 2 && forall v :: v in verbs ==>
               |v| >= 2 && (LowerChar(s[0]) != v[0] || LowerChar(s[1]) != v[1])
    ensures FirstRef(s, verbs).None?
  {
    if verbs == [] {
    } else {
      assert verbs[0] in verbs;
      if StartsWith(s, verbs[0]) { StartChars(s, verbs[0]); assert false; }
      NoVerb(s, verbs[1..]);
    }
  }

  // ---------------------------------------------------------------- order commands

  lemma {:induction false} FirstRefAt(s: string, verbs: seq<string>, i: nat, ref: string)
    requires i < |verbs| && OrderRef(s, verbs[i]) == Some(ref)
    requires forall j :: 0 <= j < i ==> OrderRef(s, verbs[j]) == None
    ensures FirstRef(s, verbs) == Some(OrderCommand(verbs[i], ref))
  {
    if i == 0 {
    } else {
      FirstRefAt(s, verbs[1..], i - 1, ref);
    }
  }

  lemma RefReads(word: string, gap: string, ref: string, verb: string)
    requires Lower(word) == verb && gap != [] && AllSpace(gap)
    requires 6 <= |ref| <= 16 && forall i :: 0 <= i < |ref| ==> HexChar(ref[i])
    ensures OrderRef(word + gap + ref, verb) == Some(Lower(ref))
  {
    var s, rest := word + gap + ref, gap + ref;
    assert s[..|verb|] == word && s[|verb|..] == rest;
    assert !IsSpace(ref[0]);
    RunOfExact(gap, ref, IsSpace);
    assert rest[|gap|..] == ref && ref + [] == ref;
    RunOfExact(ref, [], HexChar);
    assert rest[|gap|..|gap| + |ref|] == ref;
  }

  lemma OtherVerb(s: string, word: string, verb: string)
    requires |s| >= 2 && |verb| >= 2 && |word| >= 2 && s[..2] == word[..2]
    requires LowerChar(word[0]) != verb[0] || LowerChar(word[1]) != verb[1]
    ensures OrderRef(s, verb) == None
  {
    assert s[0] == s[..2][0] && s[1] == s[..2][1] && word[0] == word[..2][0] && word[1] == word[..2][1];
    if StartsWith(s, verb) { StartChars(s, verb); assert false; }
  }

  lemma TwoLetters(word: string, verb: string)
    requires Lower(word) == verb && |verb| >= 2
    ensures |word| == |verb| && LowerChar(word[0]) == verb[0] && LowerChar(word[1]) == verb[1]
  {
    assert Lower(word)[0] == verb[0] && Lower(word)[1] == verb[1];
  }

  lemma VerbsDiffer(i: nat, j: nat)
    requires j < i < |VERBS|
    ensures |VERBS[i]| >= 2 && |VERBS[j]| >= 2 && (VERBS[i][0] != VERBS[j][0] || VERBS[i][1] != VERBS[j][1])
  {
  }

  lemma CommandAt(word: string, gap: string, ref: string, i: nat)
    requires i < |VERBS| && |VERBS[i]| >= 2 && Lower(word) == VERBS[i] && gap != [] && AllSpace(gap)
    requires 6 <= |ref| <= 16 && forall k :: 0 <= k < |ref| ==> HexChar(ref[k])
    ensures FirstRef(word + gap + ref, VERBS) == Some(OrderCommand(VERBS[i], Lower(ref)))
  {
    var s := word + gap + ref;
    TwoLetters(word, VERBS[i]);
    assert s[..2] == word[..2];
    RefReads(word, gap, ref, VERBS[i]);
    forall j | 0 <= j < i ensures OrderRef(s, VERBS[j]) == None {
      VerbsDiffer(i, j);
      OtherVerb(s, word, VERBS[j]);
    }
    FirstRefAt(s, VERBS, i, Lower(ref));
  }

  // MAIN: a verb in any case, white space and 6 to 16 hex digits are read as that command on
  // that order, the reference in lower case.
  lemma OrderCommandReads(word: string, gap: string, ref: string, i: nat)
    requires i < 4 && Lower(word) == ["confirm", "cancel", "paid", "credit"][i] && gap != [] && AllSpace(gap)
    requires 6 <= |ref| <= 16 && forall k :: 0 <= k < |ref| ==> HexChar(ref[k])
    ensures Layer1(word + gap + ref) == OrderCommand(["confirm", "cancel", "paid", "credit"][i], Lower(ref))
  {
    var s := word + gap + ref;
    CommandAt(word, gap, ref, i);
    CommandTrimmed(word, gap, ref, VERBS[i]);
    assert Strip(s) == s;
  }

  lemma CommandTrimmed(word: string, gap: string, ref: string, verb: string)
    requires Lower(word) == verb && verb != [] && 'a' <= verb[0] <= 'z' && ref != [] && HexChar(ref[|ref| - 1])
    ensures Strip(word + gap + ref) == word + gap + ref
  {
    var s := word + gap + ref;
    assert LowerChar(word[0]) == Lower(word)[0];
    assert s[0] == word[0] && s[|s| - 1] == ref[|ref| - 1];
    StripTrimmed(s);
  }

  lemma Layer1Add(word: string, items: seq<Item>, sep: string)
    requires Lower(word) == "add"
    requires GoodItems(items) && items != [] && GoodSeparator(sep)
    ensures Layer1(Command(word, items, sep)) == TraderAdd(items) <==> Separable(items, sep)
  {
    var s := Command(word, items, sep);
    CommandShape(word, "add", items, sep);
    StartChars(s, "add");
    NoVerb(s, VERBS);
    AddRoundTrip(word, items, sep);
    AddBranch(s, items);
  }

  lemma AddBranch(s: string, items: seq<Item>)
    requires Strip(s) == s && FirstRef(s, VERBS).None? && HasCommand(s, "add") && items != []
    ensures Layer1(s) == TraderAdd(items) <==> ParseAdd(s) == items
  {
  }

  lemma PriceBranch(s: string, items: seq<Item>)
    requires Strip(s) == s && FirstRef(s, VERBS).None? && !HasCommand(s, "add") && HasCommand(s, "price")
    requires items != []
    ensures Layer1(s) == TraderPrice(items) <==> ParseAdd("ADD" + s[5..]) == items
  {
  }

  lemma NotAdd(s: string)
    requires StartsWith(s, "price")
    ensures !StartsWith(s, "add")
  {
    StartChars(s, "price");
    if StartsWith(s, "add") { StartChars(s, "add"); assert false; }
  }

  lemma PriceAsAdd(word: string, items: seq<Item>, sep: string)
    requires |word| == 5
    ensures "ADD" + Command(word, items, sep)[5..] == Command("ADD", items, sep)
  {
    var shown := Show(items, sep, WithCommas);
    assert (word + " " + shown)[5..] == " " + shown;
  }

  lemma PriceItems(word: string, items: seq<Item>, sep: string)
    requires |word| == 5 && GoodItems(items) && items != [] && GoodSeparator(sep)
    ensures ParseAdd("ADD" + Command(word, items, sep)[5..]) == items <==> Separable(items, sep)
  {
    PriceAsAdd(word, items, sep);
    assert Lower("ADD") == "add";
    AddRoundTrip("ADD", items, sep);
  }

  lemma PriceReachesBranch(s: string)
    requires StartsWith(s, "price")
    ensures FirstRef(s, VERBS).None? && !HasCommand(s, "add")
  {
    StartChars(s, "price");
    NoVerb(s, VERBS);
    NotAdd(s);
  }

  lemma Layer1Price(word: string, items: seq<Item>, sep: string)
    requires Lower(word) == "price"
    requires GoodItems(items) && items != [] && GoodSeparator(sep)
    ensures Layer1(Command(word, items, sep)) == TraderPrice(items) <==> Separable(items, sep)
  {
    CommandShape(word, "price", items, sep);
    PriceReachesBranch(Command(word, items, sep));
    PriceItems(word, items, sep);
    PriceBranch(Command(word, items, sep), items);
  }

  // ---------------------------------------------------------------- nothing else is a command

  // The text is a verb in any case, white space and a reference of 6 to 16 hex digits that
  // ends at the end of a word.
  ghost predicate IsOrderCommand(s: string, verb: string, ref: string, a: nat, n: nat) {
    && 1 <= a && 6 <= n <= 16 && |verb| + a + n <= |s|
    && Lower(s[..|verb|]) == verb && AllSpace(s[|verb|..|verb| + a])
    && (forall i :: |verb| + a <= i < |verb| + a + n ==> HexChar(s[i]))
    && Lower(s[|verb| + a..|verb| + a + n]) == ref
    && (|verb| + a + n == |s| || !WordChar(s[|verb| + a + n]))
  }

  lemma RefMeans(s: string, verb: string)
    requires OrderRef(s, verb).Some?
    ensures exists a, n :: IsOrderCommand(s, verb, OrderRef(s, verb).value, a, n)
  {
    var rest := s[|verb|..];
    var a, n := SpaceRun(rest), HexRun(rest[SpaceRun(rest)..]);
    assert rest[a..][..n] == rest[a..a + n] == s[|verb| + a..|verb| + a + n];
    forall i | |verb| + a <= i < |verb| + a + n ensures HexChar(s[i]) { assert s[i] == rest[a..][i - |verb| - a]; }
    assert s[|verb|..|verb| + a] == rest[..a] && AllSpace(rest[..a]);
    assert IsOrderCommand(s, verb, OrderRef(s, verb).value, a, n);
  }

  lemma {:induction false} FirstRefMeans(s: string, verbs: seq<string>)
    requires FirstRef(s, verbs).Some?
    ensures var c := FirstRef(s, verbs).value;
            c.OrderCommand? && c.verb in verbs && OrderRef(s, c.verb) == Some(c.ref)
  {
    if OrderRef(s, verbs[0]).Some? {
      assert verbs[0] in verbs;
    } else {
      FirstRefMeans(s, verbs[1..]);
    }
  }

  ghost predicate BeginsWith(s: string, word: string) {
    |s| > |word| && Lower(s[..|word|]) == word && IsSpace(s[|word|])
  }

  // MAIN: an order command is read only where there is one, and products to add or to price
  // only after that word and white space.
  lemma Layer1Means(message: string)
    ensures var s, c := Strip(message), Layer1(message);
            match c
            case OrderCommand(verb, ref) =>
              verb in ["confirm", "cancel", "paid", "credit"] && exists a, n :: IsOrderCommand(s, verb, ref, a, n)
            case TraderAdd(items) => BeginsWith(s, "add") && items == ParseAdd(s) && items != []
            case TraderPrice(items) => BeginsWith(s, "price") && items != []
            case Unmatched => true
  {
    var s := Strip(message);
    if FirstRef(s, VERBS).Some? {
      FirstRefMeans(s, VERBS);
      RefMeans(s, FirstRef(s, VERBS).value.verb);
    }
  }

  // ---------------------------------------------------------------- normal form

  lemma PartIsGood(part: string)
    requires Free(part, Cut)
    ensures GoodItems(ParsePart(part))
  {
    var line := Strip(part);
    StripTrims(part);
    var end := NameEnd(line, 1);
    if line != [] && end.Some? {
      StripTrims(line[..end.value]);
      var name := Strip(line[..end.value]);
      forall i | 0 <= i < |name| ensures !Cut(name[i]) {
        assert name[i] in line[..end.value] && name[i] in line && name[i] in part;
      }
    }
  }

  lemma {:induction false} PartsAreGood(parts: seq<string>)
    requires forall i :: 0 <= i < |parts| ==> Free(parts[i], Cut)
    ensures GoodItems(ParseParts(parts))
  {
    if parts == [] {
    } else {
      PartIsGood(parts[0]);
      PartsAreGood(parts[1..]);
    }
  }

  // MAIN: whatever the trader typed, the parsed products are ones the printer can write,
  // so writing them out and parsing again changes nothing.
  lemma ParseIsNormal(message: string, sep: string)
    requires GoodSeparator(sep)
    ensures GoodItems(ParseAdd(message))
    ensures ParseAdd(message) != [] ==>
              (ParseAdd(Command("ADD", ParseAdd(message), sep)) == ParseAdd(message) <==>
               Separable(ParseAdd(message), sep))
  {
    var body := AddBody(Strip(message));
    SplitFree(DropSeparators(body), Cut);
    PartsAreGood(Split(DropSeparators(body), Cut));
    if ParseAdd(message) != [] { AddRoundTrip("ADD", ParseAdd(message), sep); }
  }

  // ---------------------------------------------------------------- which commas stay

  predicate JointAt(s: string, i: nat) {
    i + 2 < |s| && IsDigit(s[i]) && s[i + 1] == ',' && IsDigit(s[i + 2])
  }

  predicate ChainAt(s: string, i: nat) { JointAt(s, i) && JointAt(s, i + 2) }

  ghost predicate HasJoint(s: string) { exists i :: JointAt(s, i) }

  ghost predicate HasChain(s: string) { exists i :: ChainAt(s, i) }

  lemma JointFirst(s: string)
    requires s != []
    ensures HasJoint(s) <==> JointAt(s, 0) || HasJoint(s[1..])
  {
    if i: nat :| JointAt(s, i) && i > 0 { assert JointAt(s[1..], i - 1); }
    if i: nat :| JointAt(s[1..], i) { assert JointAt(s, i + 1); }
  }

  lemma ChainFirst(s: string)
    requires s != []
    ensures HasChain(s) <==> ChainAt(s, 0) || HasChain(s[1..])
  {
    if i: nat :| ChainAt(s, i) && i > 0 { assert ChainAt(s[1..], i - 1); }
    if i: nat :| ChainAt(s[1..], i) { assert ChainAt(s, i + 1); }
  }

  // The rewrite keeps the first character, and a comma together with what follows it.
  lemma DropBegins(s: string)
    requires s != []
    ensures DropSeparators(s) != [] && DropSeparators(s)[0] == s[0]
    ensures s[0] == ',' ==> DropSeparators(s) == [','] + DropSeparators(s[1..])
  {
  }

  // A digit in front of the rewritten rest makes a joint exactly when it did before.
  lemma JointBefore(c: char, rest: string)
    requires IsDigit(c)
    ensures JointAt([c] + DropSeparators(rest), 0) <==> JointAt([c] + rest, 0)
  {
    if rest != [] {
      DropBegins(rest);
      if rest[0] == ',' && |rest| > 1 {
        DropBegins(rest[1..]);
        assert ([c] + DropSeparators(rest))[2] == DropSeparators(rest[1..])[0];
      }
    }
  }

  // MAIN: after the rewrite a comma still stands between two digits if and only if the text
  // had digit, comma, digit, comma, digit in a row: the scan does not revisit a digit it used.
  lemma {:induction false} CommaStaysExactly(s: string)
    ensures HasJoint(DropSeparators(s)) <==> HasChain(s)
    decreases |s|
  {
    if s == [] {
      assert !HasJoint(DropSeparators(s)) && !HasChain(s);
    } else if JointAt(s, 0) {
      var rest := s[3..];
      CommaStaysExactly(rest);
      JointSkip(s);
    } else {
      CommaStaysExactly(s[1..]);
      var d := [s[0]] + DropSeparators(s[1..]);
      JointFirst(d);
      ChainFirst(s);
      assert d[1..] == DropSeparators(s[1..]) && [s[0]] + s[1..] == s;
      if IsDigit(s[0]) { JointBefore(s[0], s[1..]); }
    }
  }

  lemma JointSkip(s: string)
    requires JointAt(s, 0)
    ensures HasJoint(DropSeparators(s)) <==> JointAt(s, 2) || HasJoint(DropSeparators(s[3..]))
    ensures HasChain(s) <==> JointAt(s, 2) || HasChain(s[3..])
  {
    var rest := s[3..];
    var d1 := [s[2]] + DropSeparators(rest);
    var d := [s[0]] + d1;
    assert DropSeparators(s) == d;
    JointFirst(d);
    JointFirst(d1);
    assert d[1..] == d1 && d1[1..] == DropSeparators(rest);
    JointBefore(s[2], rest);
    assert [s[2]] + rest == s[2..];
    assert JointAt(s[2..], 0) <==> JointAt(s, 2);
    ChainFirst(s);
    ChainFirst(s[1..]);
    ChainFirst(s[2..]);
    assert s[1..][1..] == s[2..] && s[2..][1..] == rest;
    assert ChainAt(s[2..], 0) ==> JointAt(s, 2);
  }

  // So "1,2,3" is read as the price 12 and a stray 3.
  lemma OverlapKeepsComma(rest: string)
    requires Safe(rest)
    ensures DropSeparators("1,2,3" + rest) == "12,3" + DropSeparators(rest)
  {
    var s := "1,2,3" + rest;
    assert s[3..] == [','] + (['3'] + rest);
    DropChar(',', ['3'] + rest);
    DropChar('3', rest);
  }

  // And "A 3,7up 2" loses its separator.
  lemma DigitNameSwallowed()
    ensures Separable([Item("A", 3), Item("7up", 2)], ",") == false
    ensures ParseAdd(Command("ADD", [Item("A", 3), Item("7up", 2)], ",")) != [Item("A", 3), Item("7up", 2)]
  {
    var items := [Item("A", 3), Item("7up", 2)];
    assert IsDigit(items[1].name[0]) && Lower("ADD") == "add";
    AddRoundTrip("ADD", items, ",");
  }
}
