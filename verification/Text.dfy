/**
 * ASCII text as the message parsers see it: white space, digits, trimming,
 * lower-casing, decimal numbers and their thousands-grouped form.
 */
module Text {

  // What str.strip and \s take for white space, within ASCII.
  predicate IsSpace(c: char) { '\t' <= c <= '\r' || 28 as char <= c <= 31 as char || c == ' ' }

  predicate IsDigit(c: char) { '0' <= c <= '9' }

  predicate IsUpper(c: char) { 'A' <= c <= 'Z' }

  function LowerChar(c: char): char {
    if IsUpper(c) then (c as int + 32) as char else c
  }

  function Lower(s: string): string { seq(|s|, i requires 0 <= i < |s| => LowerChar(s[i])) }

  predicate AllDigits(s: string) { forall i :: 0 <= i < |s| ==> IsDigit(s[i]) }

  predicate AllSpace(s: string) { forall i :: 0 <= i < |s| ==> IsSpace(s[i]) }

  predicate Trimmed(s: string) {
    s != [] ==> !IsSpace(s[0]) && !IsSpace(s[|s| - 1])
  }

  function TrimLeft(s: string): string {
    if s != [] && IsSpace(s[0]) then TrimLeft(s[1..]) else s
  }

  function TrimRight(s: string): string {
    if s != [] && IsSpace(s[|s| - 1]) then TrimRight(s[..|s| - 1]) else s
  }

  function Strip(s: string): string { TrimRight(TrimLeft(s)) }

  // Stripping yields the trimmed core of the text, and the core is unique.
  lemma {:induction false} TrimLeftCore(s: string)
    ensures var t := TrimLeft(s);
            && |t| <= |s| && s[|s| - |t|..] == t && AllSpace(s[..|s| - |t|])
            && (t != [] ==> !IsSpace(t[0]))
  {
    if s != [] && IsSpace(s[0]) {
      TrimLeftCore(s[1..]);
      var n := |s| - |TrimLeft(s)|;
      assert forall i :: 0 < i < n ==> s[i] == s[1..][..n - 1][i - 1];
    }
  }

  lemma {:induction false} TrimRightCore(s: string)
    ensures var t := TrimRight(s);
            && |t| <= |s| && s[..|t|] == t && AllSpace(s[|t|..])
            && (t != [] ==> !IsSpace(t[|t| - 1]))
  {
    if s != [] && IsSpace(s[|s| - 1]) {
      TrimRightCore(s[..|s| - 1]);
      var n := |TrimRight(s)|;
      assert forall i :: n <= i < |s| - 1 ==> s[i] == s[..|s| - 1][n..][i - n];
    }
  }

  lemma StripTrims(s: string)
    ensures Trimmed(Strip(s))
    ensures forall c :: c in Strip(s) ==> c in s
  {
    TrimLeftCore(s);
    TrimRightCore(TrimLeft(s));
  }

  lemma StripTrimmed(s: string)
    requires Trimmed(s)
    ensures Strip(s) == s
  {
  }

  // ---------------------------------------------------------------- numbers

  function Digit(d: nat): char
    requires d < 10
  {
    (d + 48) as char
  }

  // str(n)
  function Decimal(n: nat): (s: string)
    ensures s != [] && AllDigits(s)
  {
    if n < 10 then [Digit(n)] else Decimal(n / 10) + [Digit(n % 10)]
  }

  // int(s) on a run of digits
  function Value(s: string): nat
    requires AllDigits(s)
  {
    if s == [] then 0 else 10 * Value(s[..|s| - 1]) + (s[|s| - 1] as int - 48)
  }

  lemma {:induction false} ValueOfDecimal(n: nat)
    ensures Value(Decimal(n)) == n
  {
    if n >= 10 {
      ValueOfDecimal(n / 10);
      var s := Decimal(n / 10) + [Digit(n % 10)];
      assert s[..|s| - 1] == Decimal(n / 10);
    }
  }

  lemma DecimalInjective(m: nat, n: nat)
    requires Decimal(m) == Decimal(n)
    ensures m == n
  {
    ValueOfDecimal(m);
    ValueOfDecimal(n);
  }

  function ThreeDigits(n: nat): (s: string)
    requires n < 1000
    ensures |s| == 3 && AllDigits(s)
  {
    [Digit(n / 100), Digit(n / 10 % 10), Digit(n % 10)]
  }

  // format(n, ",")
  function Grouped(n: nat): (s: string)
    ensures s != [] && IsDigit(s[0]) && IsDigit(s[|s| - 1])
    ensures forall c :: c in s ==> IsDigit(c) || c == ','
  {
    if n < 1000 then Decimal(n) else Grouped(n / 1000) + "," + ThreeDigits(n % 1000)
  }

  // The same digits without the commas.
  lemma DigitsOfThousand(n: nat)
    ensures n / 10 / 10 / 10 == n / 1000
    ensures n % 1000 % 10 == n % 10
    ensures n % 1000 / 10 % 10 == n / 10 % 10
    ensures n % 1000 / 100 == n / 10 / 10 % 10
  {
    var q, r := n / 1000, n % 1000;
    assert n == 1000 * q + r;
    assert n / 10 == 100 * q + r / 10;
    assert n / 10 / 10 == 10 * q + r / 10 / 10;
  }

  lemma DecimalByThousands(n: nat)
    requires n >= 1000
    ensures Decimal(n) == Decimal(n / 1000) + ThreeDigits(n % 1000)
  {
    DigitsOfThousand(n);
    DecimalSteps(n / 10 / 10 / 10, n / 10 / 10 % 10, n / 10 % 10, n % 10, n);
  }

  lemma DecimalSteps(top: nat, x: nat, y: nat, z: nat, n: nat)
    requires n >= 1000 && x == n / 10 / 10 % 10 && y == n / 10 % 10 && z == n % 10 && top == n / 10 / 10 / 10
    ensures Decimal(n) == Decimal(top) + [Digit(x), Digit(y), Digit(z)]
  {
    assert Decimal(n) == Decimal(n / 10) + [Digit(z)];
    assert Decimal(n / 10) == Decimal(n / 10 / 10) + [Digit(y)];
    assert Decimal(n / 10 / 10) == Decimal(top) + [Digit(x)];
  }

  // No leading zero.
  lemma {:induction false} DecimalLeads(n: nat)
    ensures n > 0 ==> Decimal(n)[0] != '0'
  {
    if n < 10 {
    } else {
      DecimalLeads(n / 10);
    }
  }

  // Counted from the end, every fourth character is a comma, and no other.
  lemma {:induction false} CommaPlaces(n: nat, i: nat)
    requires i < |Grouped(n)|
    ensures Grouped(n)[|Grouped(n)| - 1 - i] == ',' <==> i % 4 == 3
  {
    var g := Grouped(n);
    if n < 1000 {
      ShortDecimal(n);
      assert IsDigit(g[|g| - 1 - i]);
    } else if i < 3 {
      assert g[|g| - 1 - i] == ThreeDigits(n % 1000)[2 - i];
    } else if i == 3 {
      assert g[|g| - 4] == ',';
    } else {
      CommaPlaces(n / 1000, i - 4);
      var h := Grouped(n / 1000);
      assert g[|g| - 1 - i] == h[|h| - 1 - (i - 4)];
    }
  }

  lemma ShortDecimal(n: nat)
    requires n < 1000
    ensures |Decimal(n)| <= 3
  {
    if n >= 10 {
      assert |Decimal(n)| == |Decimal(n / 10)| + 1;
      if n / 10 >= 10 { assert |Decimal(n / 10)| == |Decimal(n / 10 / 10)| + 1; }
    }
  }

  // ---------------------------------------------------------------- runs and lines

  // How many characters of one kind the text begins with.
  function RunOf(s: string, p: char -> bool): (n: nat)
    ensures n <= |s| && (n < |s| ==> !p(s[n]))
    ensures forall i :: 0 <= i < n ==> p(s[i])
  {
    if s != [] && p(s[0]) then 1 + RunOf(s[1..], p) else 0
  }

  lemma RunOfExact(a: string, b: string, p: char -> bool)
    requires (forall i :: 0 <= i < |a| ==> p(a[i])) && (b == [] || !p(b[0]))
    ensures RunOf(a + b, p) == |a|
  {
    assert forall i :: 0 <= i < |a| ==> (a + b)[i] == a[i];
    assert b != [] ==> (a + b)[|a|] == b[0];
  }


  // Cutting a text at every separator; the pieces joined again give the text back.
  function Split(s: string, sep: char -> bool): (parts: seq<string>)
    ensures |parts| >= 1
  {
    if s == [] then [[]]
    else
      var rest := Split(s[1..], sep);
      if sep(s[0]) then [[]] + rest else [[s[0]] + rest[0]] + rest[1..]
  }

  predicate Free(s: string, sep: char -> bool) { forall i :: 0 <= i < |s| ==> !sep(s[i]) }

  lemma {:induction false} SplitOne(s: string, sep: char -> bool)
    requires Free(s, sep)
    ensures Split(s, sep) == [s]
  {
    if s == [] {
    } else {
      SplitOne(s[1..], sep);
      assert [s[0]] + s[1..] == s;
    }
  }

  lemma {:induction false} SplitFirst(a: string, c: char, b: string, sep: char -> bool)
    requires Free(a, sep) && sep(c)
    ensures Split(a + [c] + b, sep) == [a] + Split(b, sep)
  {
    var s := a + [c] + b;
    if a == [] {
      assert s[1..] == b;
    } else {
      assert s[1..] == a[1..] + [c] + b && s[0] == a[0];
      SplitFirst(a[1..], c, b, sep);
      assert [a[0]] + a[1..] == a;
    }
  }

  lemma {:induction false} SplitFree(s: string, sep: char -> bool)
    ensures forall i :: 0 <= i < |Split(s, sep)| ==> Free(Split(s, sep)[i], sep)
    ensures forall i, c :: 0 <= i < |Split(s, sep)| && c in Split(s, sep)[i] ==> c in s
  {
    if s == [] {
    } else {
      SplitFree(s[1..], sep);
      var rest := Split(s[1..], sep);
      forall i, c | 0 <= i < |Split(s, sep)| && c in Split(s, sep)[i] ensures c in s {
        if sep(s[0]) {
          assert i > 0 && Split(s, sep)[i] == rest[i - 1];
          assert c in s[1..];
        } else if i > 0 {
          assert Split(s, sep)[i] == rest[i];
          assert c in s[1..];
        } else {
          assert Split(s, sep)[0] == [s[0]] + rest[0];
          assert c == s[0] || c in s[1..];
        }
      }
    }
  }
}
