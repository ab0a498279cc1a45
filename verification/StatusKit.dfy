/** The daily choice of products for the Status Kit. */
module StatusKit {
  import opened Basics

  const PER_DAY := 3

  function Min(a: nat, b: nat): nat { if a < b then a else b }

  // len positions in a row, going round a list of n.
  function Round(n: nat, start: nat, len: nat): (r: seq<nat>)
    requires n > 0
    ensures |r| == len && forall j :: 0 <= j < len ==> r[j] == (start + j) % n
  {
    seq(len, j requires 0 <= j < len => (start + j) % n)
  }

  // The positions shown on a day.
  function Positions(n: nat, day: nat): seq<nat>
    requires n > 0
  {
    Round(n, day * PER_DAY % n, Min(PER_DAY, n))
  }

  // The positions shown on days, days + 1, ... in order.
  function Shown(n: nat, day: nat, days: nat): seq<nat>
    requires n > 0
  {
    if days == 0 then [] else Shown(n, day, days - 1) + Positions(n, day + days - 1)
  }

  method Select<T>(products: seq<T>, day: nat) returns (selected: seq<T>)
    ensures products == [] ==> selected == []
    ensures products != [] ==>
              var at := Positions(|products|, day);
              |selected| == |at| && forall i :: 0 <= i < |at| ==> at[i] < |products| && selected[i] == products[at[i]]
  {
    if products == [] { return []; }
    var n := Min(PER_DAY, |products|);
    var start := day * PER_DAY % |products|;
    selected := [];
    for i := 0 to n
      invariant |selected| == i
      invariant forall k :: 0 <= k < i ==>
                  (start + k) % |products| < |products| && selected[k] == products[(start + k) % |products|]
    {
      selected := selected + [products[(start + i) % |products|]];
    }
  }

  // ---------------------------------------------------------------- going round

  lemma Scale(n: nat, d: int)
    requires d >= 1
    ensures n * d >= n
  {
  }

  lemma NoMultiple(n: nat, d: int)
    requires 0 - n < n * d < n
    ensures d == 0
  {
    if d >= 1 { Scale(n, d); } else if d <= -1 { Scale(n, -d); }
  }

  // Quotient and remainder are the only ones that fit.
  lemma DivUnique(x: nat, n: nat, q: nat, r: nat)
    requires r < n && x == n * q + r
    ensures x / n == q && x % n == r
  {
    var d := q - x / n;
    assert n * d == n * q - n * (x / n);
    NoMultiple(n, d);
  }

  lemma SumOfRounds(n: nat, q: nat, q': nat, r: nat)
    requires r < n
    ensures (n * q + (n * q' + r)) % n == r
  {
    assert n * (q + q') == n * q + n * q';
    DivUnique(n * q + (n * q' + r), n, q + q', r);
  }

  lemma ModSum(a: nat, b: nat, n: nat)
    requires n > 0
    ensures (a % n + b) % n == (a + b) % n
  {
    var q, r := a / n, a % n;
    var q', r' := (r + b) / n, (r + b) % n;
    assert a == n * q + r && r + b == n * q' + r';
    SumOfRounds(n, q, q', r');
    assert a + b == n * q + (n * q' + r');
  }

  // One round further.
  lemma AddRound(a: nat, n: nat)
    requires n > 0
    ensures (a + n) % n == a % n && (a + n) / n == a / n + 1
  {
    assert n * (a / n + 1) == n * (a / n) + n;
    DivUnique(a + n, n, a / n + 1, a % n);
  }

  // Two positions less than a round apart are different.
  lemma ApartInRound(a: nat, b: nat, n: nat)
    requires a < b < a + n
    ensures a % n != b % n
  {
    if a % n == b % n {
      assert n * (b / n - a / n) == n * (b / n) - n * (a / n);
      NoMultiple(n, b / n - a / n);
    }
  }

  // How far round position p is from start.
  function Ahead(n: nat, start: nat, p: nat): nat
    requires p < n
  {
    if p >= start % n then p - start % n else p + n - start % n
  }

  lemma AheadArrives(n: nat, start: nat, p: nat)
    requires p < n
    ensures Ahead(n, start, p) < n && (start + Ahead(n, start, p)) % n == p
  {
    var r := Ahead(n, start, p);
    ModSum(start, r, n);
    if p < start % n { AddRound(p, n); }
    DivUnique(p, n, 0, p);
  }

  lemma {:induction false} RoundAppend(n: nat, start: nat, a: nat, b: nat)
    requires n > 0
    ensures Round(n, start, a + b) == Round(n, start, a) + Round(n, start + a, b)
  {
    var l, r := Round(n, start, a + b), Round(n, start, a) + Round(n, start + a, b);
    forall j | 0 <= j < a + b ensures l[j] == r[j] {
      if j >= a { assert start + a + (j - a) == start + j; }
    }
  }

  // A whole round meets each position once; less than one at most once.
  lemma ShortRound(n: nat, start: nat, len: nat, p: nat)
    requires p < n && len <= n
    ensures multiset(Round(n, start, len))[p] == if Ahead(n, start, p) < len then 1 else 0
  {
    var k := Ahead(n, start, p);
    var r := Round(n, start, len);
    AheadArrives(n, start, p);
    forall j | 0 <= j < len && j != k ensures r[j] != p {
      if j < k { ApartInRound(start + j, start + k, n); } else { ApartInRound(start + k, start + j, n); }
    }
    if k < len {
      assert r == r[..k] + [p] + r[k + 1..];
      assert p !in r[..k] && p !in r[k + 1..];
    } else {
      assert p !in r;
    }
  }

  // However long one goes round, no position is met more than once more often than another.
  lemma {:induction false} EvenRounds(n: nat, start: nat, len: nat, p: nat)
    requires p < n
    ensures len / n <= multiset(Round(n, start, len))[p] <= (len + n - 1) / n
    decreases len
  {
    if len < n {
      ShortRound(n, start, len, p);
      SmallQuotients(len, n);
    } else {
      EvenRounds(n, start + n, len - n, p);
      ShortRound(n, start, n, p);
      AheadArrives(n, start, p);
      RoundAppend(n, start, n, len - n);
      AddRound(len - n, n);
      AddRound(len - 1, n);
    }
  }

  lemma SmallQuotients(len: nat, n: nat)
    requires len < n
    ensures len / n == 0
    ensures (len + n - 1) / n == if len == 0 then 0 else 1
  {
    DivUnique(len, n, 0, len);
    if len > 0 { DivUnique(len + n - 1, n, 1, len - 1); } else { DivUnique(n - 1, n, 0, n - 1); }
  }

  // ---------------------------------------------------------------- the days together

  lemma {:induction false} ShownIsRound(n: nat, day: nat, days: nat)
    requires n >= PER_DAY
    ensures Shown(n, day, days) == Round(n, day * PER_DAY, days * PER_DAY)
  {
    if days == 0 {
    } else {
      ShownIsRound(n, day, days - 1);
      PositionsAreRound(n, day + days - 1);
      RoundAppend(n, day * PER_DAY, (days - 1) * PER_DAY, PER_DAY);
    }
  }

  lemma PositionsAreRound(n: nat, day: nat)
    requires n > 0
    ensures Positions(n, day) == Round(n, day * PER_DAY, Min(PER_DAY, n))
  {
    var a, b := Positions(n, day), Round(n, day * PER_DAY, Min(PER_DAY, n));
    forall i | 0 <= i < |a| ensures a[i] == b[i] { ModSum(day * PER_DAY, i, n); }
  }

  // The i-th product of a day, counting from the epoch three a day.
  lemma PositionAt(n: nat, day: nat, i: nat)
    requires n > 0 && i < 3 && i < n
    ensures |Positions(n, day)| == (if n < 3 then n else 3) && Positions(n, day)[i] == (3 * day + i) % n
  {
    PositionsAreRound(n, day);
    var round := Round(n, day * PER_DAY, Min(PER_DAY, n));
    assert round[i] == (day * PER_DAY + i) % n;
  }

  lemma RoundDistinct(n: nat, start: nat, len: nat)
    requires 0 < n && len <= n
    ensures Distinct(Round(n, start, len))
  {
    var a := Round(n, start, len);
    forall i, j | 0 <= i < j < len ensures a[i] != a[j] { ApartInRound(start + i, start + j, n); }
  }

  // No product twice on one day.
  lemma NoRepeatInADay(n: nat, day: nat)
    requires n > 0
    ensures Distinct(Positions(n, day)) && |Positions(n, day)| == Min(PER_DAY, n)
  {
    RoundDistinct(n, day * PER_DAY % n, Min(PER_DAY, n));
  }

  lemma DayOf(n: nat, r: nat)
    requires r < n
    ensures r / PER_DAY < (n + PER_DAY - 1) / PER_DAY && r % PER_DAY < Min(PER_DAY, n)
  {
  }

  lemma ShownOn(n: nat, d: nat, i: nat, m: nat)
    requires i < Min(PER_DAY, n) && m == d * PER_DAY + i
    ensures m % n in Positions(n, d)
  {
    PositionsAreRound(n, d);
    var round := Round(n, d * PER_DAY, Min(PER_DAY, n));
    assert round[i] == m % n;
  }

  // Every product within ceil(n / 3) days, whatever the first day.
  lemma CoversEveryProduct(n: nat, day: nat, p: nat)
    requires p < n
    ensures exists d :: day <= d < day + (n + PER_DAY - 1) / PER_DAY && p in Positions(n, d)
  {
    var r := Ahead(n, day * PER_DAY, p);
    AheadArrives(n, day * PER_DAY, p);
    DayOf(n, r);
    ShownOn(n, day + r / PER_DAY, r % PER_DAY, day * PER_DAY + r);
  }

  // Over any days in a row, each product is shown its even share, rounded down or up.
  lemma EvenShare(n: nat, day: nat, days: nat, p: nat)
    requires n >= PER_DAY && p < n
    ensures days * PER_DAY / n <= multiset(Shown(n, day, days))[p] <= (days * PER_DAY + n - 1) / n
  {
    ShownIsRound(n, day, days);
    EvenRounds(n, day * PER_DAY, days * PER_DAY, p);
  }

  // Over n days in a row, exactly three times.
  lemma ThreeTimesEach(n: nat, day: nat, p: nat)
    requires n >= PER_DAY && p < n
    ensures multiset(Shown(n, day, n))[p] == 3
  {
    EvenShare(n, day, n, p);
    DivUnique(n * PER_DAY, n, PER_DAY, 0);
    DivUnique(n * PER_DAY + n - 1, n, PER_DAY, n - 1);
  }

  // On sorted catalogue items, which are all different, the kit has no repeat either.
  lemma KitHasNoRepeat<T>(products: seq<T>, day: nat, selected: seq<T>)
    requires products != [] && Distinct(products)
    requires var at := Positions(|products|, day);
             |selected| == |at| && forall i :: 0 <= i < |at| ==> at[i] < |products| && selected[i] == products[at[i]]
    ensures Distinct(selected)
  {
    NoRepeatInADay(|products|, day);
    var at := Positions(|products|, day);
    forall i, j | 0 <= i < j < |selected| ensures selected[i] != selected[j] {
      assert at[i] != at[j];
      if at[i] < at[j] {
        assert products[at[i]] != products[at[j]];
      } else {
        assert products[at[j]] != products[at[i]];
      }
    }
  }
}
