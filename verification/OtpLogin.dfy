/**
 * One-time login codes for one phone number: at most five may be requested within
 * ten minutes, each is good for ten minutes and for one login.  Requests and
 * verifications are handled one at a time; time passes between Redis commands.
 */
module OtpLogin {
  import opened Basics

  const TTL := 600
  const MAX_REQUESTS := 5

  datatype Code = Code(text: string, expires: int, issue: nat)   // issue: its place in the log

  datatype Counter = Counter(count: nat, expires: int)

  datatype State = State(
    now: int,
    code: Option<Code>,
    attempts: Option<Counter>,
    issued: seq<int>,        // when each code was issued (its request counted)
    stored: seq<int>,        // when each code was written
    accepted: seq<(nat, int)>   // which issued code each login used, and when
  )

  const START := State(0, None, None, [], [], [])

  predicate CounterLive(s: State) { s.attempts.Some? && s.now < s.attempts.value.expires }

  function LiveCount(s: State): nat { if CounterLive(s) then s.attempts.value.count else 0 }

  function Wait(s: State, d: nat): State { s.(now := s.now + d) }

  // The counter is still there for INCR and gone for EXPIRE.
  predicate Slips(s: State, d1: nat, d2: nat, d3: nat) {
    CounterLive(Wait(s, d1 + d2)) && !CounterLive(Wait(s, d1 + d2 + d3))
  }

  // GET the counter, then SETEX the code, INCR and EXPIRE the counter, with pauses.  INCR
  // keeps the expiry of a counter that is still there; EXPIRE does nothing when it is gone.
  function Request(s: State, text: string, d1: nat, d2: nat, d3: nat): (State, bool) {
    if LiveCount(s) >= MAX_REQUESTS then (s, false)
    else
      var s1 := Wait(s, d1);
      var s2 := s1.(code := Some(Code(text, s1.now + TTL, |s.issued|)), stored := s.stored + [s1.now]);
      var s3 := Wait(s2, d2);
      var n := LiveCount(s3) + 1;
      var s4 := s3.(issued := s.issued + [s3.now]);
      var s5 := Wait(s4, d3);
      var expires := if Slips(s, d1, d2, d3) then s.attempts.value.expires else s5.now + TTL;
      (s5.(attempts := Some(Counter(n, expires))), true)
  }

  // GET the code, compare, DELETE it.
  function Verify(s: State, text: string, d: nat): (State, bool) {
    if s.code.Some? && s.now < s.code.value.expires && s.code.value.text == text
    then (Wait(s, d).(code := None, accepted := s.accepted + [(s.code.value.issue, s.now)]), true)
    else (s, false)
  }

  datatype Action =
    | Tick(seconds: nat)
    | Ask(text: string, d1: nat, d2: nat, d3: nat)
    | Login(text: string, d: nat)

  function Next(s: State, a: Action): State {
    match a
    case Tick(n) => Wait(s, n)
    case Ask(t, d1, d2, d3) => Request(s, t, d1, d2, d3).0
    case Login(t, d) => Verify(s, t, d).0
  }

  function Exec(s: State, acts: seq<Action>): State
    decreases |acts|
  {
    if acts == [] then s else Exec(Next(s, acts[0]), acts[1..])
  }

  // After a granted request, a login with some code succeeds exactly when it is the code
  // just issued and less than ten minutes have passed since it was written.
  lemma CodeWorksExactly(s: State, text: string, d1: nat, d2: nat, d3: nat, tried: string, later: nat, d: nat)
    requires Request(s, text, d1, d2, d3).1
    ensures var u := Wait(Request(s, text, d1, d2, d3).0, later);
            Verify(u, tried, d).1 <==> tried == text && u.now - (s.now + d1) < TTL
  {
  }

  // ---------------------------------------------------------------- the limiter

  ghost predicate Rising(log: seq<int>) {
    forall i, j :: 0 <= i < j < |log| ==> log[i] <= log[j]
  }

  // Any two codes five places apart are a window apart.
  ghost predicate Spread(log: seq<int>) {
    forall i, j :: 0 <= i && j == i + MAX_REQUESTS && j < |log| ==> log[j] - log[i] >= TTL
  }

  // The last n codes follow a gap of at least ten minutes.
  ghost predicate SinceGap(log: seq<int>, n: nat) {
    n <= |log| && (0 < n < |log| ==> log[|log| - n] - log[|log| - n - 1] >= TTL)
  }

  // The counter counts the codes since the last gap, although every request moves its expiry.
  ghost predicate LimiterOk(s: State) {
    && Rising(s.issued) && Spread(s.issued)
    && (forall i :: 0 <= i < |s.issued| ==> s.issued[i] <= s.now)
    && (s.issued == [] ==> s.attempts.None?)
    && (s.issued != [] ==> s.attempts.Some? && CounterOk(s.issued, s.now, s.attempts.value))
  }

  // The counter stays until ten minutes after the last code.
  ghost predicate CounterOk(log: seq<int>, now: int, c: Counter)
    requires log != []
  {
    && 1 <= c.count <= MAX_REQUESTS && SinceGap(log, c.count)
    && (log[|log| - 1] + TTL <= c.expires || (c.expires <= now && log[|log| - 1] + TTL <= now))
  }

  // One more code at time t, when k of the earlier ones still count.
  lemma RisingAppend(log: seq<int>, t: int)
    requires Rising(log) && (log != [] ==> log[|log| - 1] <= t)
    ensures Rising(log + [t])
  {
  }

  lemma FifthBack(log: seq<int>, t: int, k: nat)
    requires Rising(log) && k < MAX_REQUESTS <= |log| && SinceGap(log, k) && log[|log| - 1] <= t
    requires k == 0 ==> t - log[|log| - 1] >= TTL
    ensures t - log[|log| - MAX_REQUESTS] >= TTL
  {
    var n := |log|;
    assert log[n - MAX_REQUESTS] <= log[n - k - 1];
    assert k > 0 ==> log[n - k] <= log[n - 1];
  }

  lemma SpreadAppend(log: seq<int>, t: int)
    requires Spread(log) && (|log| >= MAX_REQUESTS ==> t - log[|log| - MAX_REQUESTS] >= TTL)
    ensures Spread(log + [t])
  {
    var all := log + [t];
    forall i, j | 0 <= i && j == i + MAX_REQUESTS && j < |all| ensures all[j] - all[i] >= TTL {
      if j < |log| { assert log[j] - log[i] >= TTL; }
    }
  }

  lemma GapAppend(log: seq<int>, t: int, k: nat)
    requires SinceGap(log, k) && (log != [] && k == 0 ==> t - log[|log| - 1] >= TTL)
    ensures SinceGap(log + [t], k + 1)
  {
  }

  lemma IssueKeepsSpread(log: seq<int>, t: int, k: nat)
    requires Rising(log) && Spread(log) && k < MAX_REQUESTS && SinceGap(log, k)
    requires log != [] ==> log[|log| - 1] <= t && (k == 0 ==> t - log[|log| - 1] >= TTL)
    ensures Rising(log + [t]) && Spread(log + [t]) && SinceGap(log + [t], k + 1)
  {
    RisingAppend(log, t);
    if |log| >= MAX_REQUESTS { FifthBack(log, t, k); }
    SpreadAppend(log, t);
    GapAppend(log, t, k);
  }

  lemma RequestShape(s: State, text: string, d1: nat, d2: nat, d3: nat)
    requires LiveCount(s) < MAX_REQUESTS
    ensures var t, k := s.now + d1 + d2, LiveCount(Wait(s, d1 + d2));
            var u := Request(s, text, d1, d2, d3).0;
            && u.issued == s.issued + [t] && u.now == t + d3 && u.attempts.Some? && u.attempts.value.count == k + 1
            && u.attempts.value.expires ==
                 (if Slips(s, d1, d2, d3) then s.attempts.value.expires else t + d3 + TTL)
            && (Slips(s, d1, d2, d3) ==> u.attempts.value.expires <= u.now)
  {
  }

  lemma CountAt(s: State, d: nat)
    requires LimiterOk(s) && LiveCount(s) < MAX_REQUESTS
    ensures var k := LiveCount(Wait(s, d));
            && k < MAX_REQUESTS && SinceGap(s.issued, k)
            && (s.issued != [] ==> s.issued[|s.issued| - 1] <= s.now + d)
            && (s.issued != [] && k == 0 ==> s.now + d - s.issued[|s.issued| - 1] >= TTL)
  {
  }

  lemma IssuedAt(u: State, log: seq<int>, t: int, k: nat)
    requires u.issued == log + [t] && t <= u.now && k < MAX_REQUESTS
    requires Rising(log + [t]) && Spread(log + [t]) && SinceGap(log + [t], k + 1)
    requires u.attempts.Some? && u.attempts.value.count == k + 1
    ensures LimiterOk(u) <==> CounterOk(u.issued, u.now, u.attempts.value)
  {
    assert forall i :: 0 <= i < |log| ==> u.issued[i] <= u.issued[|log|];
  }

  lemma GrantKeepsLimiter(s: State, u: State, t: int, k: nat)
    requires Rising(s.issued) && Spread(s.issued) && k < MAX_REQUESTS && SinceGap(s.issued, k)
    requires s.issued != [] ==> s.issued[|s.issued| - 1] <= t && (k == 0 ==> t - s.issued[|s.issued| - 1] >= TTL)
    requires u.issued == s.issued + [t] && t <= u.now && u.attempts.Some? && u.attempts.value.count == k + 1
    ensures LimiterOk(u) <==>
            t + TTL <= u.attempts.value.expires || (u.attempts.value.expires <= u.now && t + TTL <= u.now)
  {
    IssueKeepsSpread(s.issued, t, k);
    IssuedAt(u, s.issued, t, k);
  }

  // A granted request loses its own count: the counter expires between INCR and EXPIRE, less
  // than ten minutes after the code it counts.
  predicate Loses(s: State, d1: nat, d2: nat, d3: nat) {
    LiveCount(s) < MAX_REQUESTS && Slips(s, d1, d2, d3) && d3 < TTL
  }

  // MAIN: a request keeps the limiter right exactly when it does not lose its count.
  lemma AskKeepsExactly(s: State, text: string, d1: nat, d2: nat, d3: nat)
    requires LimiterOk(s)
    ensures LimiterOk(Request(s, text, d1, d2, d3).0) <==> !Loses(s, d1, d2, d3)
  {
    if LiveCount(s) < MAX_REQUESTS {
      CountAt(s, d1 + d2);
      RequestShape(s, text, d1, d2, d3);
      GrantKeepsLimiter(s, Request(s, text, d1, d2, d3).0, s.now + d1 + d2, LiveCount(Wait(s, d1 + d2)));
    }
  }

  // No request of the run loses its count.
  predicate NoLoss(s: State, acts: seq<Action>)
    decreases |acts|
  {
    acts == [] ||
    ((acts[0].Ask? ==> !Loses(s, acts[0].d1, acts[0].d2, acts[0].d3)) && NoLoss(Next(s, acts[0]), acts[1..]))
  }

  lemma NextKeepsLimiter(s: State, a: Action)
    requires LimiterOk(s) && (a.Ask? ==> !Loses(s, a.d1, a.d2, a.d3))
    ensures LimiterOk(Next(s, a))
  {
    if a.Ask? {
      AskKeepsExactly(s, a.text, a.d1, a.d2, a.d3);
    } else {
      LimiterLater(s, Next(s, a));
    }
  }

  lemma LimiterLater(s: State, u: State)
    requires LimiterOk(s) && u.issued == s.issued && u.attempts == s.attempts && s.now <= u.now
    ensures LimiterOk(u)
  {
  }

  lemma {:induction false} ExecLimiter(s: State, acts: seq<Action>)
    requires LimiterOk(s) && NoLoss(s, acts)
    ensures LimiterOk(Exec(s, acts))
    decreases |acts|
  {
    if acts == [] {
    } else {
      NextKeepsLimiter(s, acts[0]);
      ExecLimiter(Next(s, acts[0]), acts[1..]);
    }
  }

  // How many codes fall into the half-open window [from, from + TTL).
  function InWindow(log: seq<int>, from: int): nat {
    if log == [] then 0
    else InWindow(log[..|log| - 1], from) + (if from <= log[|log| - 1] < from + TTL then 1 else 0)
  }

  // In a list where any two entries five places apart are a window apart, a window holds
  // at most five.
  lemma {:induction false} WindowHolds(log: seq<int>, from: int, first: nat)
    requires Rising(log) && Spread(log)
    requires first <= |log| && forall i :: 0 <= i < first ==> log[i] < from
    requires first < |log| ==> log[first] >= from
    ensures InWindow(log, from) <= MAX_REQUESTS
    ensures |log| <= first + MAX_REQUESTS ==> InWindow(log, from) <= |log| - first
    decreases |log|
  {
    if log == [] {
    } else {
      var init := log[..|log| - 1];
      if first == |log| {
        WindowHolds(init, from, first - 1);
      } else {
        WindowHolds(init, from, first);
        if |log| > first + MAX_REQUESTS {
          assert log[first + MAX_REQUESTS] - log[first] >= TTL;
          assert log[first + MAX_REQUESTS] <= log[|log| - 1];
        }
      }
    }
  }

  lemma {:induction false} FirstFrom(log: seq<int>, from: int) returns (first: nat)
    requires Rising(log)
    ensures first <= |log| && (forall i :: 0 <= i < first ==> log[i] < from)
    ensures first < |log| ==> log[first] >= from
  {
    first := 0;
    while first < |log| && log[first] < from
      invariant first <= |log| && forall i :: 0 <= i < first ==> log[i] < from
    {
      first := first + 1;
    }
  }

  lemma WindowBound(s: State, from: int)
    requires LimiterOk(s)
    ensures InWindow(s.issued, from) <= MAX_REQUESTS
  {
    var first := FirstFrom(s.issued, from);
    WindowHolds(s.issued, from, first);
  }

  // MAIN: over every run that loses no count, no ten-minute window holds more than five codes.
  lemma AtMostFivePerWindow(acts: seq<Action>, from: int)
    requires NoLoss(START, acts)
    ensures InWindow(Exec(START, acts).issued, from) <= MAX_REQUESTS
  {
    ExecLimiter(START, acts);
    WindowBound(Exec(START, acts), from);
  }

  // ---------------------------------------------------------------- a lost count

  // So many requests at once.
  function Burst(n: nat): seq<Action> {
    if n == 0 then [] else [Ask("", 0, 0, 0)] + Burst(n - 1)
  }

  function Times(t: int, n: nat): seq<int> {
    if n == 0 then [] else [t] + Times(t, n - 1)
  }

  lemma AskAtOnce(s: State)
    requires LiveCount(s) < MAX_REQUESTS
    ensures var u := Next(s, Ask("", 0, 0, 0));
            && u.issued == s.issued + [s.now] && u.now == s.now
            && u.attempts == Some(Counter(LiveCount(s) + 1, s.now + TTL)) && LiveCount(u) == LiveCount(s) + 1
            && !Loses(s, 0, 0, 0)
  {
  }

  lemma ExecFirst(s: State, a: Action, rest: seq<Action>)
    ensures Exec(s, [a] + rest) == Exec(Next(s, a), rest)
    ensures NoLoss(s, [a] + rest) <==> (a.Ask? ==> !Loses(s, a.d1, a.d2, a.d3)) && NoLoss(Next(s, a), rest)
  {
    assert ([a] + rest)[1..] == rest;
  }

  lemma {:induction false} BurstPasses(s: State, n: nat)
    requires LiveCount(s) + n <= MAX_REQUESTS
    ensures var u := Exec(s, Burst(n));
            && u.issued == s.issued + Times(s.now, n) && u.now == s.now && NoLoss(s, Burst(n))
            && (n > 0 ==> u.attempts == Some(Counter(LiveCount(s) + n, s.now + TTL)))
    decreases n
  {
    if n == 0 {
      assert s.issued + Times(s.now, n) == s.issued;
    } else {
      var u := Next(s, Ask("", 0, 0, 0));
      AskAtOnce(s);
      ExecFirst(s, Ask("", 0, 0, 0), Burst(n - 1));
      BurstPasses(u, n - 1);
      assert s.issued + [s.now] + Times(s.now, n - 1) == s.issued + Times(s.now, n);
    }
  }

  lemma {:induction false} WindowCounts(log: seq<int>, from: int, t: int, n: nat)
    requires from <= t < from + TTL
    ensures InWindow(log + Times(t, n), from) == InWindow(log, from) + n
    decreases n
  {
    if n == 0 {
      assert log + Times(t, n) == log;
    } else {
      assert log + Times(t, n) == (log + [t]) + Times(t, n - 1);
      WindowCounts(log + [t], from, t, n - 1);
      assert (log + [t])[..|log|] == log;
    }
  }

  ghost predicate Bounded(s: State) { forall from :: InWindow(s.issued, from) <= MAX_REQUESTS }

  // The window bound holds from here on, whatever follows without a further loss.
  ghost predicate SafeFromHere(s: State) {
    forall acts :: NoLoss(s, acts) ==> Bounded(Exec(s, acts))
  }

  // MAIN: after a request the bound is safe if and only if the request did not lose its count.
  lemma WindowSafeExactly(s: State, text: string, d1: nat, d2: nat, d3: nat)
    requires LimiterOk(s)
    ensures SafeFromHere(Request(s, text, d1, d2, d3).0) <==> !Loses(s, d1, d2, d3)
  {
    var u := Request(s, text, d1, d2, d3).0;
    if Loses(s, d1, d2, d3) {
      RequestShape(s, text, d1, d2, d3);
      var t := s.now + d1 + d2;
      BurstPasses(u, MAX_REQUESTS);
      WindowCounts(u.issued, t, u.now, MAX_REQUESTS);
      assert u.issued[..|s.issued|] == s.issued;
      assert InWindow(Exec(u, Burst(MAX_REQUESTS)).issued, t) > MAX_REQUESTS;
      assert !Bounded(Exec(u, Burst(MAX_REQUESTS)));
    } else {
      AskKeepsExactly(s, text, d1, d2, d3);
      forall acts | NoLoss(u, acts) ensures Bounded(Exec(u, acts)) {
        ExecLimiter(u, acts);
        forall from ensures InWindow(Exec(u, acts).issued, from) <= MAX_REQUESTS { WindowBound(Exec(u, acts), from); }
      }
    }
  }

  lemma {:induction false} ExecAppend(s: State, a: seq<Action>, b: seq<Action>)
    ensures Exec(s, a + b) == Exec(Exec(s, a), b)
    decreases |a|
  {
    if a == [] {
      assert a + b == b;
    } else {
      assert (a + b)[1..] == a[1..] + b;
      ExecAppend(Next(s, a[0]), a[1..], b);
    }
  }

  lemma LateExpire(s: State)
    requires s.now == 0 && s.attempts == Some(Counter(4, TTL))
    ensures var u := Next(Next(s, Tick(599)), Ask("", 0, 0, 2));
            u.now == 601 && LiveCount(u) == 0 && u.issued == s.issued + [599]
  {
    RequestShape(Next(s, Tick(599)), "", 0, 0, 2);
  }

  // n codes at once, one more whose EXPIRE comes two seconds after its INCR at second 599, and
  // another burst of m.
  lemma LateBurst(n: nat, m: nat)
    requires n == 4 && m == 5
    ensures exists acts :: InWindow(Exec(START, acts).issued, 599) == m + 1
  {
    var four := Exec(START, Burst(n));
    BurstPasses(START, n);
    assert START.issued + Times(0, n) == Times(0, n);
    var tick, ask := Tick(599), Ask("", 0, 0, 2);
    var s6 := Next(Next(four, tick), ask);
    LateExpire(four);
    BurstPasses(s6, m);
    WindowCounts(s6.issued, 599, 601, m);
    EarlierCodes(n, s6.issued);
    ThenTwo(START, Burst(n), tick, ask, Burst(m));
    assert InWindow(Exec(START, Burst(n) + ([tick] + ([ask] + Burst(m)))).issued, 599) == m + 1;
  }

  // So a run can have six codes within ten minutes.
  lemma SixInAWindow()
    ensures exists acts :: InWindow(Exec(START, acts).issued, 599) == 6
  {
    LateBurst(4, 5);
  }

  lemma ThenTwo(s: State, first: seq<Action>, a: Action, b: Action, rest: seq<Action>)
    ensures Exec(s, first + ([a] + ([b] + rest))) == Exec(Next(Next(Exec(s, first), a), b), rest)
  {
    ExecAppend(s, first, [a] + ([b] + rest));
    ExecFirst(Exec(s, first), a, [b] + rest);
    ExecFirst(Next(Exec(s, first), a), b, rest);
  }

  lemma EarlierCodes(n: nat, log: seq<int>)
    requires log == Times(0, n) + [599]
    ensures InWindow(log, 599) == 1
  {
    TimesAre(0, n);
    assert log[..n] == Times(0, n);
    OutsideWindow(Times(0, n), 599);
  }

  lemma {:induction false} TimesAre(t: int, n: nat)
    ensures |Times(t, n)| == n && forall i :: 0 <= i < n ==> Times(t, n)[i] == t
  {
    if n == 0 {
    } else {
      TimesAre(t, n - 1);
    }
  }

  lemma {:induction false} OutsideWindow(log: seq<int>, from: int)
    requires forall i :: 0 <= i < |log| ==> log[i] < from
    ensures InWindow(log, from) == 0
  {
    if log == [] {
    } else {
      OutsideWindow(log[..|log| - 1], from);
    }
  }

  // A refused request changes nothing, so the sixth request in a row is let through again
  // ten minutes after the fifth.
  lemma RefusalIsTemporary(s: State, text: string, d1: nat, d2: nat, d3: nat)
    requires !Request(s, text, d1, d2, d3).1
    ensures Request(s, text, d1, d2, d3).0 == s
    ensures s.attempts.Some? && Request(Wait(s, s.attempts.value.expires - s.now), text, d1, d2, d3).1
  {
  }

  // ---------------------------------------------------------------- single use

  ghost predicate LoginsOk(s: State) {
    && |s.stored| == |s.issued|
    && (forall i :: 0 <= i < |s.accepted| ==> s.accepted[i].0 < |s.issued|)
    && (forall i, j :: 0 <= i < j < |s.accepted| ==> s.accepted[i].0 < s.accepted[j].0)
    && (forall i :: 0 <= i < |s.accepted| ==>
          s.stored[s.accepted[i].0] <= s.accepted[i].1 < s.stored[s.accepted[i].0] + TTL)
    && (s.code.Some? ==>
          && s.code.value.issue < |s.issued|
          && s.code.value.expires == s.stored[s.code.value.issue] + TTL
          && s.stored[s.code.value.issue] <= s.now
          && forall i :: 0 <= i < |s.accepted| ==> s.accepted[i].0 < s.code.value.issue)
  }

  lemma NextLogins(s: State, a: Action)
    requires LoginsOk(s)
    ensures LoginsOk(Next(s, a))
  {
  }

  lemma {:induction false} ExecLogins(s: State, acts: seq<Action>)
    requires LoginsOk(s)
    ensures LoginsOk(Exec(s, acts))
    decreases |acts|
  {
    if acts == [] {
    } else {
      NextLogins(s, acts[0]);
      ExecLogins(Next(s, acts[0]), acts[1..]);
    }
  }

  // A strictly increasing list of numbers below n has at most n entries.
  lemma {:induction false} IncreasingShort(a: seq<(nat, int)>, n: nat)
    requires forall i, j :: 0 <= i < j < |a| ==> a[i].0 < a[j].0
    requires forall i :: 0 <= i < |a| ==> a[i].0 < n
    ensures |a| <= n
    decreases |a|
  {
    if a == [] {
    } else {
      IncreasingShort(a[..|a| - 1], a[|a| - 1].0);
    }
  }

  ghost predicate SingleUse(s: State) {
    && |s.accepted| <= |s.issued| == |s.stored|
    && (forall i, j :: 0 <= i < j < |s.accepted| ==> s.accepted[i].0 < s.accepted[j].0)
    && (forall i :: 0 <= i < |s.accepted| ==>
          && s.accepted[i].0 < |s.stored|
          && s.stored[s.accepted[i].0] <= s.accepted[i].1 < s.stored[s.accepted[i].0] + TTL)
  }

  // MAIN: each login used one issued code, no code twice, in the order of issue and within
  // ten minutes of its writing; so logins never outnumber codes.
  lemma CodesAreSingleUse(acts: seq<Action>)
    ensures SingleUse(Exec(START, acts))
  {
    ExecLogins(START, acts);
    LoginsAreSingle(Exec(START, acts));
  }

  lemma LoginsAreSingle(s: State)
    requires LoginsOk(s)
    ensures SingleUse(s)
  {
    IncreasingShort(s.accepted, |s.issued|);
  }

  /** The authentication service's Redis commands for one number. */
  class OtpService {
    var now: int
    var code: Option<Code>
    var attempts: Option<Counter>
    ghost var issued: seq<int>
    ghost var stored: seq<int>
    ghost var accepted: seq<(nat, int)>
    var serial: nat

    ghost predicate Valid()
      reads this
    {
      serial == |issued|
    }

    ghost function View(): State
      reads this
    {
      State(now, code, attempts, issued, stored, accepted)
    }

    constructor ()
      ensures Valid() && View() == START
    {
      now, code, attempts, serial := 0, None, None, 0;
      issued, stored, accepted := [], [], [];
    }

    method RequestOtp(text: string, d1: nat, d2: nat, d3: nat) returns (ok: bool)
      requires Valid()
      modifies this
      ensures Valid() && (View(), ok) == Request(old(View()), text, d1, d2, d3)
    {
      if attempts.Some? && now < attempts.value.expires && attempts.value.count >= MAX_REQUESTS {
        return false;
      }
      now := now + d1;
      code := Some(Code(text, now + TTL, serial));
      stored := stored + [now];
      now := now + d2;
      // a new counter has no expiry yet; any time after the pause stands for that
      attempts := if attempts.Some? && now < attempts.value.expires
                  then Some(Counter(attempts.value.count + 1, attempts.value.expires))
                  else Some(Counter(1, now + d3 + TTL));
      issued, serial := issued + [now], serial + 1;
      now := now + d3;
      if now < attempts.value.expires {
        attempts := Some(Counter(attempts.value.count, now + TTL));
      }
      return true;
    }

    method VerifyOtp(text: string, d: nat) returns (ok: bool)
      requires Valid()
      modifies this
      ensures Valid() && (View(), ok) == Verify(old(View()), text, d)
    {
      if code.None? || now >= code.value.expires || code.value.text != text {
        return false;
      }
      accepted := accepted + [(code.value.issue, now)];
      now := now + d;
      code := None;
      return true;
    }
  }
}
