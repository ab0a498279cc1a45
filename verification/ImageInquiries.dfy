/**
 * Pending image inquiries in Redis: one expiring key per trader and customer, and
 * one expiring set per trader that indexes the customers.  Time passes between the
 * commands of one call as well as between calls.
 */
module ImageInquiries {
  import opened Basics
  import opened TextOrder

  const TTL := 86400

  datatype Inquiry = Inquiry(data: string, expires: int)

  datatype Index = Index(members: set<string>, expires: int)

  datatype Store = Store(
    now: int,
    keys: map<(string, string), Inquiry>,   // (trader, customer)
    index: map<string, Index>               // trader
  )

  // Expired keys are as good as absent.
  predicate Live(s: Store, trader: string, customer: string) {
    (trader, customer) in s.keys && s.now < s.keys[(trader, customer)].expires
  }

  predicate IndexLive(s: Store, trader: string) {
    trader in s.index && s.now < s.index[trader].expires
  }

  // SMEMBERS
  function Members(s: Store, trader: string): set<string> {
    if IndexLive(s, trader) then s.index[trader].members else {}
  }

  function Wait(s: Store, seconds: nat): Store { s.(now := s.now + seconds) }

  // SREM; a set that becomes empty disappears.
  function Unlist(s: Store, trader: string, customer: string): Store {
    if !IndexLive(s, trader) then s
    else
      var left := s.index[trader].members - {customer};
      s.(index := if left == {} then s.index - {trader}
                  else s.index[trader := s.index[trader].(members := left)])
  }

  // SETEX, then SADD after a pause, then EXPIRE after another.  SADD keeps the expiry of a
  // set that is still there; EXPIRE does nothing when the set is gone by then.
  function Put(s: Store, trader: string, customer: string, data: string, d1: nat, d2: nat): Store {
    if customer == "" then s
    else
      var s1 := s.(keys := s.keys[(trader, customer) := Inquiry(data, s.now + TTL)]);
      var s2 := Wait(s1, d1);
      var members := Members(s2, trader) + {customer};
      var s3 := Wait(s2, d2);
      if Slips(s, trader, d1, d2) then s3.(index := s.index[trader := Index(members, s.index[trader].expires)])
      else s3.(index := s.index[trader := Index(members, s3.now + TTL)])
  }

  // The set is still there for SADD and gone for EXPIRE.
  predicate Slips(s: Store, trader: string, d1: nat, d2: nat) {
    IndexLive(Wait(s, d1), trader) && !IndexLive(Wait(s, d1 + d2), trader)
  }

  predicate IsGreatest(s: set<string>, m: string) {
    m in s && forall x :: x in s && x != m ==> TextLess(x, m)
  }

  lemma {:induction false} GreatestExists(s: set<string>) returns (m: string)
    requires s != {}
    ensures IsGreatest(s, m)
    decreases |s|
  {
    var x :| x in s;
    if s == {x} {
      m := x;
    } else {
      m := GreatestExists(s - {x});
      TextTotal(x, m);
      if TextLess(m, x) {
        forall y | y in s && y != x ensures TextLess(y, x) {
          if y != m { TextTransitive(y, m, x); }
        }
        m := x;
      }
    }
  }

  // sorted(members, reverse=True)[0]
  function Greatest(s: set<string>): (m: string)
    requires s != {}
    ensures IsGreatest(s, m)
  {
    assert exists m :: m in s && IsGreatest(s, m) by { var m := GreatestExists(s); }
    assert forall a, b :: IsGreatest(s, a) && IsGreatest(s, b) ==> a == b by {
      forall a, b | IsGreatest(s, a) && IsGreatest(s, b) ensures a == b { TextTotal(a, b); }
    }
    var m :| m in s && IsGreatest(s, m);
    m
  }

  // The cleanup loop of a lookup, from the greatest phone number down.
  function Scan(s: Store, trader: string, todo: set<string>, pause: string -> nat): (Store, Option<string>)
    decreases |todo|
  {
    if todo == {} then (s, None)
    else
      var c := Greatest(todo);
      var s1 := Wait(s, pause(c));
      if Live(s1, trader, c) then (s1, Some(s1.keys[(trader, c)].data))
      else Scan(Unlist(s1, trader, c), trader, todo - {c}, pause)
  }

  lemma ScanStep(s: Store, trader: string, todo: set<string>, pause: string -> nat)
    requires todo != {}
    ensures var c := Greatest(todo);
            var s1 := Wait(s, pause(c));
            Scan(s, trader, todo, pause) ==
              if Live(s1, trader, c) then (s1, Some(s1.keys[(trader, c)].data))
              else Scan(Unlist(s1, trader, c), trader, todo - {c}, pause)
  {
  }

  function Get(s: Store, trader: string, pause: string -> nat): (Store, Option<string>) {
    Scan(s, trader, Members(s, trader), pause)
  }

  function Remove(s: Store, trader: string, customer: string): Store {
    Unlist(s.(keys := s.keys - {(trader, customer)}), trader, customer)
  }

  function Clear(s: Store, trader: string, customer: Option<string>): Store {
    if customer.Some? && customer.value != "" then Remove(s, trader, customer.value)
    else if Members(s, trader) == {} then s
    else Remove(s, trader, Greatest(Members(s, trader)))
  }

  function Count(s: Store, trader: string): nat { |Members(s, trader)| }

  function LiveCustomers(s: Store, trader: string): set<string> {
    set k | k in s.keys && k.0 == trader && Live(s, k.0, k.1) :: k.1
  }

  // ---------------------------------------------------------------- the invariant

  // An unexpired inquiry is in its trader's index, and the index outlives it.
  predicate Covered(s: Store, t: string, c: string)
    requires (t, c) in s.keys
  {
    && t in s.index && c in s.index[t].members
    && s.keys[(t, c)].expires <= s.index[t].expires
    && s.keys[(t, c)].expires <= s.now + TTL
  }

  ghost predicate Indexed(s: Store) {
    forall t, c :: Live(s, t, c) ==> Covered(s, t, c)
  }

  lemma WaitKeeps(s: Store, d: nat)
    requires Indexed(s)
    ensures Indexed(Wait(s, d))
  {
    forall t, c | Live(Wait(s, d), t, c)
      ensures Covered(Wait(s, d), t, c)
    {
      assert Live(s, t, c);
    }
  }

  lemma UnlistKeeps(s: Store, trader: string, customer: string)
    requires Indexed(s) && !Live(s, trader, customer)
    ensures Indexed(Unlist(s, trader, customer))
  {
    var u := Unlist(s, trader, customer);
    forall t, c | Live(u, t, c)
      ensures Covered(u, t, c)
    {
      assert Live(s, t, c);
      if t == trader { assert c in s.index[trader].members - {customer}; }
    }
  }

  // Storing an inquiry keeps the index right, unless the index expires between SADD and
  // EXPIRE while the inquiry itself is still alive; then the new inquiry is not indexed.
  lemma PutKeepsExactly(s: Store, trader: string, customer: string, data: string, d1: nat, d2: nat)
    requires Indexed(s) && customer != ""
    ensures Indexed(Put(s, trader, customer, data, d1, d2)) <==> !(Slips(s, trader, d1, d2) && d1 + d2 < TTL)
  {
    var u := Put(s, trader, customer, data, d1, d2);
    if Slips(s, trader, d1, d2) && d1 + d2 < TTL {
      assert Live(u, trader, customer);
    } else {
      forall t, c | Live(u, t, c)
        ensures Covered(u, t, c)
      {
        if (t, c) != (trader, customer) {
          assert Live(s, t, c);
          if t == trader { assert IndexLive(Wait(s, d1), trader); }
        }
      }
    }
  }

  // A stored inquiry is live until its time has passed, and nothing else becomes live or dies
  // but by the passing of time.
  lemma PutIsLive(s: Store, trader: string, customer: string, data: string, d1: nat, d2: nat)
    requires customer != ""
    ensures var u := Put(s, trader, customer, data, d1, d2);
            && (Live(u, trader, customer) <==> d1 + d2 < TTL)
            && (trader, customer) in u.keys && u.keys[(trader, customer)].data == data
            && (forall t, c :: (t, c) != (trader, customer) ==>
                  (Live(u, t, c) <==> Live(Wait(s, d1 + d2), t, c)))
  {
  }

  // Clearing a customer ends that inquiry and no other; without a customer it ends that of
  // the greatest indexed phone number.
  lemma ClearEnds(s: Store, trader: string, customer: Option<string>)
    ensures var u := Clear(s, trader, customer);
            var gone := if customer.Some? && customer.value != "" then {customer.value}
                        else if Members(s, trader) == {} then {} else {Greatest(Members(s, trader))};
            forall t, c :: Live(u, t, c) <==> Live(s, t, c) && !(t == trader && c in gone)
  {
  }

  // Whom clearing takes off the index.
  ghost predicate Gone(s: Store, trader: string, customer: Option<string>, gone: set<string>) {
    if customer.Some? && customer.value != "" then gone == {customer.value}
    else if Members(s, trader) == {} then gone == {}
    else exists c :: IsGreatest(Members(s, trader), c) && gone == {c}
  }

  lemma OneOff(a: set<string>, b: set<string>, gone: set<string>)
    requires b == a - gone && |gone| <= 1
    ensures |b| == |a| - (if gone <= a then |gone| else 0)
  {
    if gone !! a { assert b == a; } else { assert gone <= a by { OneOfOne(gone, a); } }
    if gone <= a { assert a == b + gone && b !! gone; }
    if gone == {} { assert b == a; }
  }

  lemma OneOfOne(gone: set<string>, a: set<string>)
    requires |gone| <= 1 && !(gone !! a)
    ensures gone <= a
  {
    var x :| x in gone && x in a;
    assert |gone - {x}| == 0;
    assert gone == {x};
  }

  // MAIN: clearing takes the named customer off the index, or without a name the greatest
  // indexed phone number, and the count drops by one if they were listed; other traders'
  // indexes stay as they were.
  lemma ClearUnlists(s: Store, trader: string, customer: Option<string>, gone: set<string>)
    requires Gone(s, trader, customer, gone)
    ensures var u := Clear(s, trader, customer);
            && Members(u, trader) == Members(s, trader) - gone
            && Count(u, trader) == Count(s, trader) - (if gone <= Members(s, trader) then |gone| else 0)
            && forall t :: t != trader ==> Members(u, t) == Members(s, t)
  {
    var u := Clear(s, trader, customer);
    if customer.Some? && customer.value != "" {
      UnlistedMembers(s.(keys := s.keys - {(trader, customer.value)}), trader, customer.value);
    } else if Members(s, trader) != {} {
      var c :| IsGreatest(Members(s, trader), c) && gone == {c};
      assert c == Greatest(Members(s, trader)) by { TextTotal(c, Greatest(Members(s, trader))); }
      UnlistedMembers(s.(keys := s.keys - {(trader, c)}), trader, c);
    }
    CountIsMembers(s, trader);
    CountIsMembers(u, trader);
    OneOff(Members(s, trader), Members(u, trader), gone);
  }

  lemma CountIsMembers(s: Store, trader: string)
    ensures Count(s, trader) == |Members(s, trader)|
  {
  }

  // Storing puts the customer on the index beside those on it at the time of SADD, unless the
  // index is gone by the time of EXPIRE; other traders' indexes only grow older.
  lemma PutLists(s: Store, trader: string, customer: string, data: string, d1: nat, d2: nat)
    requires customer != ""
    ensures var u := Put(s, trader, customer, data, d1, d2);
            && Members(u, trader) ==
                 (if Slips(s, trader, d1, d2) then {} else Members(Wait(s, d1), trader) + {customer})
            && forall t :: t != trader ==> Members(u, t) == Members(Wait(s, d1 + d2), t)
  {
  }

  lemma ClearKeeps(s: Store, trader: string, customer: Option<string>)
    requires Indexed(s)
    ensures Indexed(Clear(s, trader, customer))
  {
    var c := if customer.Some? && customer.value != "" then customer.value
             else if Members(s, trader) == {} then "" else Greatest(Members(s, trader));
    var u := s.(keys := s.keys - {(trader, c)});
    forall t, d | Live(u, t, d)
      ensures Covered(u, t, d)
    {
      assert Live(s, t, d);
    }
    UnlistKeeps(u, trader, c);
  }

  // ---------------------------------------------------------------- lookups

  predicate Listed(s: Store, trader: string, c: string) { trader in s.index && c in s.index[trader].members }

  // What a lookup may change: the index loses members that are no longer live, other
  // traders' indexes and all keys stay.
  ghost predicate OnlyTidied(s: Store, u: Store, trader: string) {
    && s.now <= u.now && u.keys == s.keys
    && (forall t :: t != trader ==> (t in u.index <==> t in s.index) && (t in s.index ==> u.index[t] == s.index[t]))
    && (trader in u.index ==>
          && trader in s.index && u.index[trader].expires == s.index[trader].expires
          && u.index[trader].members <= s.index[trader].members)
    && (forall c :: Listed(s, trader, c) && !Listed(u, trader, c) ==> !Live(u, trader, c))
  }

  lemma UnlistTidies(s: Store, trader: string, customer: string)
    requires !Live(s, trader, customer)
    ensures OnlyTidied(s, Unlist(s, trader, customer), trader)
  {
    var u := Unlist(s, trader, customer);
    forall c | Listed(s, trader, c) && c != customer ensures Listed(u, trader, c) {
      assert c in s.index[trader].members - {customer};
    }
  }

  lemma TidiedTransitive(a: Store, b: Store, c: Store, trader: string)
    requires OnlyTidied(a, b, trader) && OnlyTidied(b, c, trader)
    ensures OnlyTidied(a, c, trader)
  {
    assert forall x :: Listed(a, trader, x) && !Listed(c, trader, x) ==>
      !Listed(b, trader, x) || (Listed(b, trader, x) && !Listed(c, trader, x));
  }

  // The live customer with the greatest phone number, and the inquiry found.
  ghost predicate FoundAt(s: Store, trader: string, c: string, data: string) {
    IsGreatest(LiveCustomers(s, trader), c) && (trader, c) in s.keys && data == s.keys[(trader, c)].data
  }

  predicate UpTo(s: set<string>, c: string) { forall x :: x in s ==> x == c || TextLess(x, c) }

  lemma TidiedMembers(s: Store, u: Store, trader: string)
    requires OnlyTidied(s, u, trader)
    ensures Members(u, trader) <= Members(s, trader)
  {
  }

  lemma UnlistedMembers(s: Store, trader: string, c: string)
    ensures Members(Unlist(s, trader, c), trader) == Members(s, trader) - {c}
    ensures forall t :: t != trader ==> Members(Unlist(s, trader, c), t) == Members(s, t)
  {
  }

  lemma FoundFirst(s: Store, trader: string, todo: set<string>, c: string)
    requires Live(s, trader, c) && IsGreatest(todo, c) && forall x :: Live(s, trader, x) ==> x in todo
    ensures FoundAt(s, trader, c, s.keys[(trader, c)].data) && UpTo(Members(s, trader) * todo, c)
    ensures LiveCustomers(s, trader) != {}
  {
    assert c in LiveCustomers(s, trader) by { assert (trader, c) in s.keys; }
  }

  lemma {:induction false} ScanResult(s: Store, trader: string, todo: set<string>, pause: string -> nat)
    requires Indexed(s)
    requires forall c :: Live(s, trader, c) ==> c in todo
    ensures var (u, r) := Scan(s, trader, todo, pause);
            && Indexed(u) && OnlyTidied(s, u, trader)
            && (r.None? <==> LiveCustomers(u, trader) == {})
            && (r.None? ==> Members(u, trader) !! todo)
            && (r.Some? ==> exists c :: FoundAt(u, trader, c, r.value) && UpTo(Members(u, trader) * todo, c))
    decreases |todo|
  {
    if todo == {} {
      assert LiveCustomers(s, trader) == {};
    } else {
      var c := Greatest(todo);
      var s1 := Wait(s, pause(c));
      WaitKeeps(s, pause(c));
      if Live(s1, trader, c) {
        forall x | Live(s1, trader, x) ensures x in todo { assert Live(s, trader, x); }
        FoundFirst(s1, trader, todo, c);
      } else {
        var s2 := Unlist(s1, trader, c);
        UnlistKeeps(s1, trader, c);
        UnlistTidies(s1, trader, c);
        forall x | Live(s2, trader, x) ensures x in todo - {c} { assert Live(s, trader, x); }
        ScanResult(s2, trader, todo - {c}, pause);
        var u := Scan(s2, trader, todo - {c}, pause).0;
        TidiedTransitive(s1, s2, u, trader);
        TidiedMembers(s2, u, trader);
        UnlistedMembers(s1, trader, c);
        assert Members(u, trader) * todo == Members(u, trader) * (todo - {c});
      }
    }
  }

  // MAIN: a lookup returns nothing exactly when no inquiry of the trader is live, otherwise
  // the inquiry of the live customer with the greatest phone number; it drops only stale
  // index members, and all of them above the one it found.
  lemma GetExact(s: Store, trader: string, pause: string -> nat)
    requires Indexed(s)
    ensures var (u, r) := Get(s, trader, pause);
            && Indexed(u) && OnlyTidied(s, u, trader)
            && (r.None? <==> LiveCustomers(u, trader) == {})
            && (r.None? ==> Members(u, trader) == {})
            && (r.Some? ==> exists c :: FoundAt(u, trader, c, r.value) && UpTo(Members(u, trader), c))
  {
    forall c | Live(s, trader, c) ensures c in Members(s, trader) {}
    ScanResult(s, trader, Members(s, trader), pause);
    var u := Get(s, trader, pause).0;
    TidiedMembers(s, u, trader);
    assert Members(u, trader) * Members(s, trader) == Members(u, trader);
  }

  // MAIN: the count never under-reports.
  lemma CountCoversLive(s: Store, trader: string)
    requires Indexed(s)
    ensures LiveCustomers(s, trader) <= Members(s, trader)
    ensures |LiveCustomers(s, trader)| <= Count(s, trader)
  {
    forall c | c in LiveCustomers(s, trader) ensures c in Members(s, trader) {
      assert Live(s, trader, c);
    }
    SubsetSize(LiveCustomers(s, trader), Members(s, trader));
  }

  // ---------------------------------------------------------------- runs

  datatype Action =
    | Tick(seconds: nat)
    | Set(trader: string, customer: string, data: string, d1: nat, d2: nat)
    | Look(trader: string, pause: string -> nat)
    | Done(trader: string, replied: Option<string>)

  function Next(s: Store, a: Action): Store {
    match a
    case Tick(n) => Wait(s, n)
    case Set(t, c, data, d1, d2) => Put(s, t, c, data, d1, d2)
    case Look(t, pause) => Get(s, t, pause).0
    case Done(t, c) => Clear(s, t, c)
  }

  function Exec(s: Store, acts: seq<Action>): Store
    decreases |acts|
  {
    if acts == [] then s else Exec(Next(s, acts[0]), acts[1..])
  }

  // The customers stored and not cleared since, as the actions tell.
  ghost function Waiting(s: Store, acts: seq<Action>, trader: string, before: set<string>): set<string>
    decreases |acts|
  {
    if acts == [] then before
    else
      var a := acts[0];
      var after :=
        if a.Set? && a.trader == trader && a.customer != "" then before + {a.customer}
        else if a.Done? && a.trader == trader then
          if a.replied.Some? && a.replied.value != "" then before - {a.replied.value}
          else set c | c in before && !IsGreatest(Members(s, trader), c)
        else before;
      Waiting(Next(s, a), acts[1..], trader, after)
  }

  lemma OlderMembers(s: Store, d: nat, trader: string)
    ensures Members(Wait(s, d), trader) <= Members(s, trader)
  {
  }

  lemma {:induction false} ScanOnlyTidies(s: Store, trader: string, todo: set<string>, pause: string -> nat)
    ensures OnlyTidied(s, Scan(s, trader, todo, pause).0, trader)
    decreases |todo|
  {
    if todo == {} {
    } else {
      var c := Greatest(todo);
      var s1 := Wait(s, pause(c));
      if !Live(s1, trader, c) {
        var s2 := Unlist(s1, trader, c);
        UnlistTidies(s1, trader, c);
        ScanOnlyTidies(s2, trader, todo - {c}, pause);
        TidiedTransitive(s1, s2, Scan(s2, trader, todo - {c}, pause).0, trader);
        TidiedTransitive(s, s1, Scan(s2, trader, todo - {c}, pause).0, trader);
      }
    }
  }

  lemma LookMembers(s: Store, t: string, pause: string -> nat, trader: string)
    ensures Members(Get(s, t, pause).0, trader) <= Members(s, trader)
  {
    ScanOnlyTidies(s, t, Members(s, t), pause);
    if t == trader { TidiedMembers(s, Get(s, t, pause).0, t); }
  }

  lemma ClearedMembers(s: Store, t: string, replied: Option<string>, trader: string)
    ensures Members(Clear(s, t, replied), trader) ==
            if t != trader then Members(s, trader)
            else if replied.Some? && replied.value != "" then Members(s, trader) - {replied.value}
            else set c | c in Members(s, trader) && !IsGreatest(Members(s, trader), c)
  {
    if replied.Some? && replied.value != "" {
      ClearUnlists(s, t, replied, {replied.value});
    } else if Members(s, t) == {} {
      ClearUnlists(s, t, replied, {});
    } else {
      var g := Greatest(Members(s, t));
      ClearUnlists(s, t, replied, {g});
      forall c | IsGreatest(Members(s, t), c) ensures c == g { TextTotal(c, g); }
    }
  }

  // MAIN: in every run whoever is on a trader's index was stored and has not been cleared
  // since, so the count is at most the number of those.
  lemma {:induction false} IndexHoldsWaiting(s: Store, acts: seq<Action>, trader: string, before: set<string>)
    requires Members(s, trader) <= before
    ensures Members(Exec(s, acts), trader) <= Waiting(s, acts, trader, before)
    ensures Count(Exec(s, acts), trader) <= |Waiting(s, acts, trader, before)|
    decreases |acts|
  {
    if acts == [] {
      SubsetSize(Members(s, trader), before);
    } else {
      var a := acts[0];
      match a {
        case Tick(n) => OlderMembers(s, n, trader);
        case Set(t, c, data, d1, d2) =>
          if c != "" { PutLists(s, t, c, data, d1, d2); }
          OlderMembers(s, d1, trader);
          OlderMembers(s, d1 + d2, trader);
        case Look(t, pause) => LookMembers(s, t, pause, trader);
        case Done(t, c) => ClearedMembers(s, t, c, trader);
      }
      var after :=
        if a.Set? && a.trader == trader && a.customer != "" then before + {a.customer}
        else if a.Done? && a.trader == trader then
          if a.replied.Some? && a.replied.value != "" then before - {a.replied.value}
          else set c | c in before && !IsGreatest(Members(s, trader), c)
        else before;
      IndexHoldsWaiting(Next(s, a), acts[1..], trader, after);
    }
  }

  // Nothing has had the time to expire, and index and keys agree.
  ghost predicate Young(s: Store) {
    && s.now < TTL
    && (forall k :: k in s.keys ==> s.keys[k].expires >= TTL)
    && (forall t :: t in s.index ==> s.index[t].expires >= TTL)
    && (forall t, c :: (t, c) in s.keys <==> Listed(s, t, c))
  }

  lemma YoungAgrees(s: Store, trader: string)
    requires Young(s)
    ensures Members(s, trader) == LiveCustomers(s, trader) && Count(s, trader) == |LiveCustomers(s, trader)|
  {
    forall c ensures c in Members(s, trader) <==> c in LiveCustomers(s, trader) {
      assert (trader, c) in s.keys <==> Listed(s, trader, c);
    }
  }

  lemma PutStaysYoung(s: Store, t: string, c: string, data: string, d1: nat, d2: nat)
    requires Young(s) && s.now >= 0 && s.now + d1 + d2 < TTL
    ensures Young(Put(s, t, c, data, d1, d2))
  {
    if c != "" {
      var u := Put(s, t, c, data, d1, d2);
      forall t', c' ensures (t', c') in u.keys <==> Listed(u, t', c') {
        assert (t', c') in s.keys <==> Listed(s, t', c');
      }
    }
  }

  lemma RemoveStaysYoung(s: Store, t: string, c: string)
    requires Young(s)
    ensures Young(Remove(s, t, c))
  {
    var u := Remove(s, t, c);
    forall t', c' ensures (t', c') in u.keys <==> Listed(u, t', c') {
      assert (t', c') in s.keys <==> Listed(s, t', c');
      assert (t', c') in u.keys <==> (t', c') in s.keys && (t', c') != (t, c);
      if t in s.index {
        var left := s.index[t].members - {c};
        assert IndexLive(s, t) && (t == t' ==> (Listed(u, t, c') <==> c' in left));
      }
    }
  }

  lemma GetStaysYoung(s: Store, t: string, pause: string -> nat)
    requires Young(s) && Get(s, t, pause).0.now < TTL
    ensures Young(Get(s, t, pause).0)
  {
    if Members(s, t) != {} {
      var c := Greatest(Members(s, t));
      assert (t, c) in s.keys <==> Listed(s, t, c);
      ScanStep(s, t, Members(s, t), pause);
      TimeInScan(Unlist(Wait(s, pause(c)), t, c), t, Members(s, t) - {c}, pause);
      assert Live(Wait(s, pause(c)), t, c);
      assert forall t', c' :: Listed(Wait(s, pause(c)), t', c') == Listed(s, t', c');
    }
  }

  lemma {:induction false} TimeInScan(s: Store, t: string, todo: set<string>, pause: string -> nat)
    ensures s.now <= Scan(s, t, todo, pause).0.now
    decreases |todo|
  {
    if todo == {} {
    } else {
      var c := Greatest(todo);
      TimeInScan(Unlist(Wait(s, pause(c)), t, c), t, todo - {c}, pause);
    }
  }

  lemma TimeInStep(s: Store, a: Action)
    ensures s.now <= Next(s, a).now
  {
    if a.Look? { TimeInScan(s, a.trader, Members(s, a.trader), a.pause); }
  }

  lemma {:induction false} TimeInRun(s: Store, acts: seq<Action>)
    ensures s.now <= Exec(s, acts).now
    decreases |acts|
  {
    if acts == [] {
    } else {
      TimeInStep(s, acts[0]);
      TimeInRun(Next(s, acts[0]), acts[1..]);
    }
  }

  lemma StepStaysYoung(s: Store, a: Action)
    requires Young(s) && s.now >= 0 && Next(s, a).now < TTL
    ensures Young(Next(s, a))
  {
    match a {
      case Tick(n) => assert forall t, c :: Listed(Wait(s, n), t, c) == Listed(s, t, c);
      case Set(t, c, data, d1, d2) => if c != "" { PutStaysYoung(s, t, c, data, d1, d2); }
      case Look(t, pause) => GetStaysYoung(s, t, pause);
      case Done(t, c) =>
        if c.Some? && c.value != "" { RemoveStaysYoung(s, t, c.value); }
        else if Members(s, t) != {} { RemoveStaysYoung(s, t, Greatest(Members(s, t))); }
    }
  }

  // MAIN: in every run shorter than a day the count is exactly the number of live inquiries.
  lemma {:induction false} CountExactWithinDay(s: Store, acts: seq<Action>, trader: string)
    requires Young(s) && s.now >= 0 && Exec(s, acts).now < 86400
    ensures Young(Exec(s, acts)) && Count(Exec(s, acts), trader) == |LiveCustomers(Exec(s, acts), trader)|
    decreases |acts|
  {
    if acts == [] {
      YoungAgrees(s, trader);
    } else {
      TimeInStep(s, acts[0]);
      TimeInRun(Next(s, acts[0]), acts[1..]);
      StepStaysYoung(s, acts[0]);
      CountExactWithinDay(Next(s, acts[0]), acts[1..], trader);
    }
  }

  // No call of the run has its index expire between SADD and EXPIRE under a live inquiry.
  predicate NoSlip(s: Store, acts: seq<Action>)
    decreases |acts|
  {
    acts == [] ||
    (&& (acts[0].Set? ==> !(Slips(s, acts[0].trader, acts[0].d1, acts[0].d2) && acts[0].d1 + acts[0].d2 < TTL))
     && NoSlip(Next(s, acts[0]), acts[1..]))
  }

  // MAIN: over every run of stores, lookups, clears and passing time, every unexpired
  // inquiry is indexed and its index outlives it.
  lemma {:induction false} RunKeepsIndexed(s: Store, acts: seq<Action>)
    requires Indexed(s) && NoSlip(s, acts)
    ensures Indexed(Exec(s, acts))
    decreases |acts|
  {
    if acts == [] {
    } else {
      var a := acts[0];
      match a {
        case Tick(n) => WaitKeeps(s, n);
        case Set(t, c, data, d1, d2) => if c != "" { PutKeepsExactly(s, t, c, data, d1, d2); }
        case Look(t, pause) => GetExact(s, t, pause);
        case Done(t, c) => ClearKeeps(s, t, c);
      }
      RunKeepsIndexed(Next(s, a), acts[1..]);
    }
  }

  const EMPTY := Store(0, map[], map[])

  // An inquiry is there, and neither the lookup nor the count knows of it.
  ghost predicate Forgotten(s: Store, trader: string, customer: string) {
    Live(s, trader, customer) && Count(s, trader) == 0 && forall pause :: Get(s, trader, pause).1 == None
  }

  // Whenever the index slips away during a store, the new inquiry is forgotten.
  lemma SlippedIsForgotten(s: Store, trader: string, customer: string, data: string, d1: nat, d2: nat)
    requires customer != "" && Slips(s, trader, d1, d2) && d1 + d2 < TTL
    ensures Forgotten(Put(s, trader, customer, data, d1, d2), trader, customer)
  {
    var u := Put(s, trader, customer, data, d1, d2);
    assert Live(u, trader, customer) && Members(u, trader) == {};
  }

  lemma FirstStore(trader: string, customer: string)
    requires customer != ""
    ensures var s := Put(EMPTY, trader, customer, "", 0, 0);
            s.now == 0 && trader in s.index && s.index[trader].expires == TTL
  {
  }

  // Two stores for one trader, 86399 seconds apart, the second with a second between SADD
  // and EXPIRE.
  lemma SlipForgetsInquiry()
    ensures exists acts :: Forgotten(Exec(EMPTY, acts), "t", "b")
  {
    var a, tick, b := Set("t", "a", "", 0, 0), Tick(86399), Set("t", "b", "", 0, 1);
    FirstStore("t", "a");
    var s2 := Next(Next(EMPTY, a), tick);
    SlippedIsForgotten(s2, "t", "b", "", 0, 1);
    ThreeSteps(EMPTY, a, tick, b);
  }

  lemma ThreeSteps(s: Store, a: Action, b: Action, c: Action)
    ensures Exec(s, [a, b, c]) == Next(Next(Next(s, a), b), c)
  {
    assert [a, b, c][1..] == [b, c] && [b, c][1..] == [c] && [c][1..] == [];
    var s2 := Next(Next(s, a), b);
    assert Exec(s2, [c]) == Exec(Next(s2, c), []);
    assert Exec(Next(s, a), [b, c]) == Exec(s2, [c]);
  }

  /** The Redis commands as the session module issues them. */
  class InquirySession {
    var now: int
    var keys: map<(string, string), Inquiry>
    var index: map<string, Index>

    ghost function State(): Store
      reads this
    {
      Store(now, keys, index)
    }

    constructor (clock: int)
      ensures State() == Store(clock, map[], map[]) && Indexed(State())
    {
      now, keys, index := clock, map[], map[];
    }

    method SMembers(trader: string) returns (members: set<string>)
      ensures members == Members(State(), trader)
    {
      members := if trader in index && now < index[trader].expires then index[trader].members else {};
    }

    method SRem(trader: string, customer: string)
      modifies this
      ensures State() == Unlist(old(State()), trader, customer)
    {
      if trader in index && now < index[trader].expires {
        var left := index[trader].members - {customer};
        if left == {} {
          index := index - {trader};
        } else {
          index := index[trader := index[trader].(members := left)];
        }
      }
    }

    method SetPending(trader: string, customer: string, data: string, d1: nat, d2: nat)
      modifies this
      ensures State() == Put(old(State()), trader, customer, data, d1, d2)
    {
      if customer == "" { return; }
      keys := keys[(trader, customer) := Inquiry(data, now + TTL)];
      now := now + d1;
      var present := trader in index && now < index[trader].expires;
      var members := (if present then index[trader].members else {}) + {customer};
      // a new set has no expiry yet; any time after the pause stands for that
      var expires := if present then index[trader].expires else now + d2 + TTL;
      index := index[trader := Index(members, expires)];
      now := now + d2;
      if now < expires {
        index := index[trader := Index(members, now + TTL)];
      }
    }

    method GetPending(trader: string, pause: string -> nat) returns (found: Option<string>)
      modifies this
      ensures (State(), found) == Get(old(State()), trader, pause)
    {
      var todo := SMembers(trader);
      ghost var whole := Scan(State(), trader, todo, pause);
      while todo != {}
        invariant whole == Scan(State(), trader, todo, pause)
        decreases |todo|
      {
        var c := Greatest(todo);
        ScanStep(State(), trader, todo, pause);
        now := now + pause(c);
        if (trader, c) in keys && now < keys[(trader, c)].expires {
          return Some(keys[(trader, c)].data);
        }
        SRem(trader, c);
        todo := todo - {c};
      }
      return None;
    }

    method ClearPending(trader: string, customer: Option<string>)
      modifies this
      ensures State() == Clear(old(State()), trader, customer)
    {
      if customer.Some? && customer.value != "" {
        keys := keys - {(trader, customer.value)};
        SRem(trader, customer.value);
      } else {
        var members := SMembers(trader);
        if members != {} {
          var c := Greatest(members);
          keys := keys - {(trader, c)};
          SRem(trader, c);
        }
      }
    }

    method CountPending(trader: string) returns (n: nat)
      ensures n == Count(State(), trader)
    {
      var members := SMembers(trader);
      n := |members|;
    }
  }
}
