/**
 * The pub/sub channels of the event bus and what its wildcard subscriptions deliver.
 * A `*` of a Redis pattern matches any text, dots included.
 */
module EventChannels {

  const PREFIX := "chattosales.events"

  // The parts of the pattern language the bus uses; character classes and escapes are not among them.
  predicate Matches(pattern: string, s: string)
    decreases |pattern| + |s|
  {
    if pattern == [] then s == []
    else if pattern[0] == '*' then Matches(pattern[1..], s) || (s != [] && Matches(pattern, s[1..]))
    else s != [] && (pattern[0] == '?' || pattern[0] == s[0]) && Matches(pattern[1..], s[1..])
  }

  predicate Special(c: char) { c == '*' || c == '?' || c == '[' || c == '\\' }

  predicate Plain(s: string) { forall i :: 0 <= i < |s| ==> !Special(s[i]) }

  function Channel(tenant: string, event: string): string { PREFIX + "." + tenant + "." + event }

  function TenantPattern(tenant: string): string { PREFIX + "." + tenant + ".*" }

  function GlobalPattern(event: string): string { PREFIX + ".*." + event }

  predicate EndsWith(s: string, t: string) { |t| <= |s| && s[|s| - |t|..] == t }

  predicate StartsWith(s: string, t: string) { |t| <= |s| && s[..|t|] == t }

  function Dots(s: string): nat {
    if s == [] then 0 else (if s[0] == '.' then 1 else 0) + Dots(s[1..])
  }

  // The names as the event bus documents them.
  lemma DocumentedNames()
    ensures Channel("t", "order.created") == "chattosales.events.t.order.created"
    ensures TenantPattern("t") == "chattosales.events.t.*"
    ensures GlobalPattern("message.received") == "chattosales.events.*.message.received"
  {
  }

  // ---------------------------------------------------------------- matching

  lemma {:induction false} PlainMatches(p: string, s: string)
    requires Plain(p)
    ensures Matches(p, s) <==> p == s
    decreases |p|
  {
    if p != [] && s != [] {
      PlainMatches(p[1..], s[1..]);
      assert p == [p[0]] + p[1..] && s == [s[0]] + s[1..];
    }
  }

  // A plain beginning of the pattern must be the beginning of the text.
  lemma {:induction false} PlainThen(p: string, q: string, s: string)
    requires Plain(p)
    ensures Matches(p + q, s) <==> StartsWith(s, p) && Matches(q, s[|p|..])
    decreases |p|
  {
    if p == [] {
      assert p + q == q && s[0..] == s;
    } else if s != [] {
      assert (p + q)[1..] == p[1..] + q;
      PlainThen(p[1..], q, s[1..]);
      if StartsWith(s[1..], p[1..]) { assert s[1..][|p| - 1..] == s[|p|..]; }
      assert s[0] == p[0] ==> (StartsWith(s, p) <==> StartsWith(s[1..], p[1..])) by { StartsTail(s, p); }
    }
  }

  lemma StartsTail(s: string, p: string)
    requires s != [] && p != []
    ensures StartsWith(s, p) <==> s[0] == p[0] && StartsWith(s[1..], p[1..])
  {
    if |p| <= |s| {
      assert s[..|p|] == [s[0]] + s[1..][..|p| - 1];
      assert p == [p[0]] + p[1..];
      assert s[..|p|][1..] == s[1..][..|p| - 1];
    }
  }

  lemma {:induction false} StarThenPlain(p: string, s: string)
    requires Plain(p)
    ensures Matches("*" + p, s) <==> EndsWith(s, p)
    decreases |s|
  {
    assert ("*" + p)[1..] == p;
    PlainMatches(p, s);
    if s != [] {
      StarThenPlain(p, s[1..]);
      if |p| < |s| { assert s[1..][|s| - 1 - |p|..] == s[|s| - |p|..]; }
    }
  }

  lemma {:induction false} StarMatchesAll(s: string)
    ensures Matches("*", s)
  {
    assert "*"[1..] == [];
    if s != [] { StarMatchesAll(s[1..]); }
  }

  // ---------------------------------------------------------------- dots

  lemma {:induction false} DotsAppend(a: string, b: string)
    ensures Dots(a + b) == Dots(a) + Dots(b)
  {
    if a == [] {
      assert a + b == b;
    } else {
      assert (a + b)[1..] == a[1..] + b;
      DotsAppend(a[1..], b);
    }
  }

  lemma EndsWithDots(s: string, t: string)
    requires EndsWith(s, t)
    ensures Dots(t) <= Dots(s)
  {
    assert s == s[..|s| - |t|] + t;
    DotsAppend(s[..|s| - |t|], t);
  }

  // Of two endings of a text the shorter ends the longer.
  lemma Endings(s: string, a: string, b: string)
    requires EndsWith(s, a) && EndsWith(s, b) && |a| <= |b|
    ensures EndsWith(b, a)
  {
    assert b[|b| - |a|..] == s[|s| - |b|..][|b| - |a|..] == s[|s| - |a|..];
  }

  lemma EndingsJoin(s: string, b: string, a: string)
    requires EndsWith(s, b) && EndsWith(b, a)
    ensures EndsWith(s, a)
  {
    assert s[|s| - |a|..] == s[|s| - |b|..][|b| - |a|..];
  }

  // ---------------------------------------------------------------- subscriptions

  lemma GlobalMatches(event: string, tenant: string, carried: string)
    requires Plain(event)
    ensures Matches(GlobalPattern(event), Channel(tenant, carried)) <==> EndsWith(tenant + "." + carried, "." + event)
  {
    var head := PREFIX + ".";
    assert GlobalPattern(event) == head + ("*" + ("." + event));
    var u := tenant + "." + carried;
    assert Channel(tenant, carried) == head + u;
    assert (head + u)[..|head|] == head && (head + u)[|head|..] == u;
    PlainThen(head, "*" + ("." + event), head + u);
    StarThenPlain("." + event, u);
  }

  // An ending with the same tail on both sides.
  lemma CommonTail(a: string, b: string, c: string)
    ensures EndsWith(a + c, b + c) <==> EndsWith(a, b)
  {
    if |b| <= |a| {
      assert (a + c)[|a| - |b|..] == a[|a| - |b|..] + c;
      assert (a[|a| - |b|..] + c)[..|b|] == a[|a| - |b|..] && (b + c)[..|b|] == b;
    }
  }

  lemma EndsSelf(a: string, b: string)
    ensures EndsWith(a + b, b)
  {
    assert (a + b)[|a|..] == b;
  }

  lemma HeardSameLength(event: string, tenant: string, carried: string)
    requires |event| == |carried|
    ensures EndsWith(tenant + ("." + carried), "." + event) <==> event == carried
  {
    EndsSelf(tenant, "." + carried);
    assert ("." + event)[1..] == event && ("." + carried)[1..] == carried;
  }

  lemma HeardShorter(event: string, tenant: string, carried: string)
    requires |event| < |carried|
    ensures EndsWith(tenant + ("." + carried), "." + event) <==> EndsWith(carried, "." + event)
  {
    var u := tenant + "." + carried;
    assert u == tenant + ("." + carried);
    EndsSelf(tenant + ".", carried);
    if EndsWith(u, "." + event) { Endings(u, "." + event, carried); }
    if EndsWith(carried, "." + event) { EndingsJoin(u, carried, "." + event); }
  }

  // The subscribed name is longer by some segments, and the tenant id ends with them.
  predicate Supplies(tenant: string, event: string, carried: string) {
    EndsWith(event, "." + carried) && EndsWith(tenant, "." + event[..|event| - |carried| - 1])
  }

  lemma HeardLonger(event: string, tenant: string, carried: string)
    requires |event| > |carried|
    ensures EndsWith(tenant + ("." + carried), "." + event) <==> Supplies(tenant, event, carried)
  {
    var dc := "." + carried;
    var x := event[..|event| - |dc|];
    EndsSelf(tenant, dc);
    if EndsWith(tenant + dc, "." + event) {
      Endings(tenant + dc, dc, "." + event);
      assert event[|event| - |dc|..] == ("." + event)[|event| + 1 - |dc|..];
    }
    if EndsWith(event, dc) {
      assert event == x + dc;
      assert "." + event == ("." + x) + dc;
      CommonTail(tenant, "." + x, dc);
    }
  }

  // Which channels a subscription to one event across all tenants hears: those carrying the
  // event; those carrying a longer event name that ends with it after a dot; and those
  // carrying a shorter one, if the tenant id supplies the missing segments after a dot.
  lemma HeardExactly(event: string, tenant: string, carried: string)
    requires Plain(event)
    ensures Matches(GlobalPattern(event), Channel(tenant, carried)) <==>
            event == carried || EndsWith(carried, "." + event) || Supplies(tenant, event, carried)
  {
    GlobalMatches(event, tenant, carried);
    assert tenant + "." + carried == tenant + ("." + carried);
    if |event| == |carried| { HeardSameLength(event, tenant, carried); }
    else if |event| < |carried| { HeardShorter(event, tenant, carried); }
    else { HeardLonger(event, tenant, carried); }
  }

  // From tenants without dots only longer names are heard besides the event itself.
  lemma HeardFromDotFree(event: string, tenant: string, carried: string)
    requires Plain(event) && Dots(tenant) == 0
    ensures Matches(GlobalPattern(event), Channel(tenant, carried)) <==>
            event == carried || EndsWith(carried, "." + event)
  {
    HeardExactly(event, tenant, carried);
    if Supplies(tenant, event, carried) {
      var tail := "." + event[..|event| - |carried| - 1];
      EndsWithDots(tenant, tail);
    }
  }

  // Between event names with equally many segments the subscription is exact, for every tenant.
  lemma HeardOnlyByName(event: string, tenant: string, carried: string)
    requires Plain(event) && Dots(event) == Dots(carried)
    ensures Matches(GlobalPattern(event), Channel(tenant, carried)) <==> event == carried
  {
    HeardExactly(event, tenant, carried);
    DotsAppend(".", event);
    DotsAppend(".", carried);
    assert "."[1..] == [];
    if EndsWith(carried, "." + event) { EndsWithDots(carried, "." + event); }
    if EndsWith(event, "." + carried) { EndsWithDots(event, "." + carried); }
  }

  // A name with fewer segments hears more than its own event, even from tenants without dots.
  lemma ShortNameHearsMore(tenant: string)
    ensures Matches(GlobalPattern("created"), Channel(tenant, "order.created"))
  {
    assert "order.created"[5..] == ".created" == "." + "created";
    HeardExactly("created", tenant, "order.created");
  }

  // A tenant's own subscription hears exactly that tenant, when no tenant id has a dot.
  lemma TenantMatches(mine: string, tenant: string, carried: string)
    requires Plain(mine)
    ensures Matches(TenantPattern(mine), Channel(tenant, carried)) <==> StartsWith(tenant + "." + carried, mine + ".")
  {
    var head := PREFIX + "." + (mine + ".");
    var u := tenant + "." + carried;
    var channel := PREFIX + "." + u;
    assert TenantPattern(mine) == head + "*";
    assert Channel(tenant, carried) == channel;
    PlainThen(head, "*", channel);
    if |head| <= |channel| { StarMatchesAll(channel[|head|..]); }
    CommonHead(PREFIX + ".", u, mine + ".");
  }

  lemma TenantHeardExactly(mine: string, tenant: string, carried: string)
    requires Plain(mine) && Dots(mine) == 0 && Dots(tenant) == 0
    ensures Matches(TenantPattern(mine), Channel(tenant, carried)) <==> mine == tenant
  {
    TenantMatches(mine, tenant, carried);
    SameTenant(mine, tenant, carried);
  }

  lemma CommonHead(h: string, s: string, t: string)
    ensures StartsWith(h + s, h + t) <==> StartsWith(s, t)
  {
    if |t| <= |s| {
      assert (h + s)[..|h + t|] == h + s[..|t|];
      assert (h + t)[|h|..] == t && (h + s[..|t|])[|h|..] == s[..|t|];
    }
  }

  lemma {:induction false} NoDotAt(s: string, i: nat)
    requires Dots(s) == 0 && i < |s|
    ensures s[i] != '.'
  {
    if i == 0 {
    } else {
      NoDotAt(s[1..], i - 1);
    }
  }

  lemma SameTenant(mine: string, tenant: string, carried: string)
    requires Dots(mine) == 0 && Dots(tenant) == 0
    ensures StartsWith(tenant + "." + carried, mine + ".") <==> mine == tenant
  {
    var u := tenant + "." + carried;
    if mine == tenant {
      assert u[..|mine| + 1] == mine + ".";
    } else if StartsWith(u, mine + ".") {
      assert u[|mine|] == (mine + ".")[|mine|] == '.';
      assert u[|tenant|] == '.';
      forall i | 0 <= i < |mine| ensures u[i] == mine[i] { assert u[..|mine| + 1][i] == (mine + ".")[i]; }
      if |mine| < |tenant| { NoDotAt(tenant, |mine|); }
      if |tenant| < |mine| { NoDotAt(mine, |tenant|); }
    }
  }
}
