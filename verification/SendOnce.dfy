/**
 * Send-once delivery of notifications.
 *
 * Every call of send_message or send_interactive runs inside its caller's
 * database transaction: look the event id up, insert a row under the unique
 * index, hand the message to WhatsApp, mark the row.  Any number of calls run
 * at the same time and their steps interleave freely.  A lookup sees committed
 * rows only; an insert waits while another open transaction holds the same
 * event id and fails when a committed row holds it.
 */
module SendOnce {
  import opened Delivery

  datatype Status = Pending | Sent | Failed

  // Where one call stands inside its transaction.
  datatype Phase =
    | Entered    // transaction open, nothing read yet
    | Checked    // the lookup found no committed row
    | Inserted   // own PENDING row written, index entry held
    | Accepted   // WhatsApp took the message, row marked SENT, not committed
    | Refused    // the dispatch raised, row marked FAILED, not committed
    | Closed     // transaction over

  datatype Call<E> = Call(event: E, phase: Phase)

  datatype System<E(==)> = System(
    table: map<E, Status>,   // committed rows
    calls: seq<Call<E>>,
    delivered: seq<E>,       // every message WhatsApp took, in order
    lost: seq<E>             // events whose transaction died after WhatsApp took the message
  )

  datatype Action<E> =
    | Open(event: E)
    | Lookup(w: nat)
    | Insert(w: nat)
    | Dispatch(w: nat, ok: bool)
    | Commit(w: nat)
    | Rollback(w: nat)
    | Die(w: nat)

  // An open transaction that has its row written keeps others off the index entry.
  predicate Holds(p: Phase) { p.Inserted? || p.Accepted? || p.Refused? }

  predicate Held<E(==)>(calls: seq<Call<E>>, e: E) {
    exists i :: 0 <= i < |calls| && calls[i].event == e && Holds(calls[i].phase)
  }

  predicate InFlight<E(==)>(calls: seq<Call<E>>, e: E) {
    exists i :: 0 <= i < |calls| && calls[i].event == e && calls[i].phase.Accepted?
  }

  function Move<E>(s: System<E>, w: nat, p: Phase): System<E>
    requires w < |s.calls|
  {
    s.(calls := s.calls[w := s.calls[w].(phase := p)])
  }

  // One step.  A step that is not possible now (wrong phase, or an insert that has to
  // wait for another transaction) leaves the system as it is.
  function Next<E>(s: System<E>, a: Action<E>): System<E> {
    if a.Open? then
      s.(calls := s.calls + [Call(a.event, Entered)])
    else if a.w >= |s.calls| then s
    else
      var c := s.calls[a.w];
      match a
      case Lookup(w) =>
        if !c.phase.Entered? then s
        else Move(s, w, if c.event in s.table then Closed else Checked)
      case Insert(w) =>
        if !c.phase.Checked? then s
        else if c.event in s.table then Move(s, w, Closed)   // unique violation, rolled back
        else if Held(s.calls, c.event) then s                      // waits
        else Move(s, w, Inserted)
      case Dispatch(w, ok) =>
        if !c.phase.Inserted? then s
        else if ok then Move(s, w, Accepted).(delivered := s.delivered + [c.event])
        else Move(s, w, Refused)
      case Commit(w) =>
        if !c.phase.Accepted? then s
        else Move(s, w, Closed).(table := s.table[c.event := Sent])
      case Rollback(w) =>
        if !c.phase.Refused? then s else Move(s, w, Closed)
      case Die(w) =>
        if c.phase.Closed? then s
        else if c.phase.Accepted? then Move(s, w, Closed).(lost := s.lost + [c.event])
        else Move(s, w, Closed)
  }

  function Exec<E>(s: System<E>, acts: seq<Action<E>>): System<E>
    decreases |acts|
  {
    if acts == [] then s else Exec(Next(s, acts[0]), acts[1..])
  }

  function Empty<E>(): System<E> { System(map[], [], [], []) }

  function Times<E(==)>(log: seq<E>, e: E): nat { multiset(log)[e] }

  // Each event is accounted for: messages WhatsApp took = the committed row, plus the
  // transaction about to commit, plus the transactions that died in between.
  ghost predicate Account<E>(s: System<E>, e: E) {
    Times(s.delivered, e) ==
      (if e in s.table then 1 else 0) + (if InFlight(s.calls, e) then 1 else 0) + Times(s.lost, e)
  }

  ghost predicate Accounted<E(!new)>(s: System<E>) {
    forall e :: Account(s, e)
  }

  ghost predicate Exclusive<E>(s: System<E>) {
    && (forall i, j :: 0 <= i < j < |s.calls| && Holds(s.calls[i].phase) && Holds(s.calls[j].phase)
          ==> s.calls[i].event != s.calls[j].event)
    && (forall i :: 0 <= i < |s.calls| && Holds(s.calls[i].phase) ==> s.calls[i].event !in s.table)
  }

  ghost predicate OnlySentRows<E>(s: System<E>) {
    forall e :: e in s.table ==> s.table[e] == Sent
  }

  ghost predicate Inv<E(!new)>(s: System<E>) {
    Exclusive(s) && OnlySentRows(s) && Accounted(s)
  }

  lemma TimesAppend<E>(log: seq<E>, x: E, e: E)
    ensures Times(log + [x], e) == Times(log, e) + (if x == e then 1 else 0)
  {
  }

  lemma NextExclusive<E(!new)>(s: System<E>, a: Action<E>)
    requires Exclusive(s) && OnlySentRows(s)
    ensures Exclusive(Next(s, a)) && OnlySentRows(Next(s, a))
  {
  }

  // Moving one call changes InFlight for no other event.
  lemma MoveInFlight<E>(s: System<E>, w: nat, p: Phase, e: E)
    requires w < |s.calls|
    ensures s.calls[w].event != e ==> InFlight(Move(s, w, p).calls, e) == InFlight(s.calls, e)
    ensures s.calls[w].event == e && p.Accepted? ==> InFlight(Move(s, w, p).calls, e)
    ensures s.calls[w].event == e && !p.Accepted? && InFlight(Move(s, w, p).calls, e) ==> InFlight(s.calls, e)
    ensures s.calls[w].event == e && !p.Accepted? && !s.calls[w].phase.Accepted? ==>
              InFlight(Move(s, w, p).calls, e) == InFlight(s.calls, e)
  {
    var t := Move(s, w, p);
    assert |t.calls| == |s.calls|;
    if s.calls[w].event == e && p.Accepted? {
      assert t.calls[w].phase.Accepted? && t.calls[w].event == e;
    }
    if InFlight(s.calls, e) {
      var i :| 0 <= i < |s.calls| && s.calls[i].event == e && s.calls[i].phase.Accepted?;
      if i != w { assert t.calls[i] == s.calls[i]; }
    }
    if InFlight(t.calls, e) {
      var i :| 0 <= i < |t.calls| && t.calls[i].event == e && t.calls[i].phase.Accepted?;
      if i != w { assert t.calls[i] == s.calls[i]; }
    }
  }

  // The one holder of an event is the only call that can be in flight for it.
  lemma HolderAlone<E>(s: System<E>, w: nat)
    requires Exclusive(s) && w < |s.calls| && Holds(s.calls[w].phase)
    ensures InFlight(s.calls, s.calls[w].event) == s.calls[w].phase.Accepted?
    ensures forall p: Phase :: !p.Accepted? ==> !InFlight(Move(s, w, p).calls, s.calls[w].event)
  {
    forall i | 0 <= i < |s.calls| && s.calls[i].event == s.calls[w].event && s.calls[i].phase.Accepted?
      ensures i == w
    {
      if i < w {} else if w < i {}
    }
  }

  // A call that is in flight neither before nor after its move changes no account.
  lemma QuietMove<E>(s: System<E>, w: nat, p: Phase, e: E)
    requires w < |s.calls| && Account(s, e)
    requires !p.Accepted? && !s.calls[w].phase.Accepted?
    ensures Account(Move(s, w, p), e)
  {
    MoveInFlight(s, w, p, e);
  }

  lemma DispatchMove<E>(s: System<E>, w: nat, e: E)
    requires w < |s.calls| && s.calls[w].phase.Inserted? && Exclusive(s) && Account(s, e)
    ensures Account(Move(s, w, Accepted).(delivered := s.delivered + [s.calls[w].event]), e)
  {
    MoveInFlight(s, w, Accepted, e);
    HolderAlone(s, w);
    TimesAppend(s.delivered, s.calls[w].event, e);
  }

  lemma CommitMove<E>(s: System<E>, w: nat, e: E)
    requires w < |s.calls| && s.calls[w].phase.Accepted? && Exclusive(s) && Account(s, e)
    ensures Account(Move(s, w, Closed).(table := s.table[s.calls[w].event := Sent]), e)
  {
    MoveInFlight(s, w, Closed, e);
    HolderAlone(s, w);
  }

  lemma LoseMove<E>(s: System<E>, w: nat, e: E)
    requires w < |s.calls| && s.calls[w].phase.Accepted? && Exclusive(s) && Account(s, e)
    ensures Account(Move(s, w, Closed).(lost := s.lost + [s.calls[w].event]), e)
  {
    MoveInFlight(s, w, Closed, e);
    HolderAlone(s, w);
    TimesAppend(s.lost, s.calls[w].event, e);
  }

  // The account of one event after one step of one call.
  lemma NextAccount<E(!new)>(s: System<E>, a: Action<E>, e: E)
    requires Inv(s) && !a.Open? && a.w < |s.calls|
    ensures Account(Next(s, a), e)
  {
    assert Account(s, e);
    var t := Next(s, a);
    var c, p := s.calls[a.w], t.calls[a.w].phase;
    if t != s {
      if c.phase.Accepted? {
        CommitMove(s, a.w, e);
        LoseMove(s, a.w, e);
      } else if p.Accepted? {
        DispatchMove(s, a.w, e);
      } else {
        assert t == Move(s, a.w, p);
        QuietMove(s, a.w, p, e);
      }
    }
  }

  lemma NextAccounted<E(!new)>(s: System<E>, a: Action<E>)
    requires Inv(s)
    ensures Accounted(Next(s, a))
  {
    var t := Next(s, a);
    forall e
      ensures Account(t, e)
    {
      assert Account(s, e);
      if a.Open? {
        assert forall i :: 0 <= i < |s.calls| ==> t.calls[i] == s.calls[i];
        assert InFlight(t.calls, e) == InFlight(s.calls, e);
      } else if a.w < |s.calls| {
        NextAccount(s, a, e);
      }
    }
  }

  lemma {:induction false} ExecInv<E(!new)>(s: System<E>, acts: seq<Action<E>>)
    requires Inv(s)
    ensures Inv(Exec(s, acts))
    decreases |acts|
  {
    if acts == [] {
    } else {
      NextExclusive(s, acts[0]);
      NextAccounted(s, acts[0]);
      ExecInv(Next(s, acts[0]), acts[1..]);
    }
  }

  // MAIN: over every interleaving of any number of calls, the messages WhatsApp took for
  // an event are exactly its committed row, its transaction in flight and its lost commits.
  lemma DeliveriesAccounted<E(!new)>(acts: seq<Action<E>>, e: E)
    ensures var s := Exec(Empty(), acts);
            Times(s.delivered, e) ==
              (if e in s.table then 1 else 0) + (if InFlight(s.calls, e) then 1 else 0) + Times(s.lost, e)
    ensures var s := Exec(Empty(), acts);
            !(e in s.table && InFlight(s.calls, e))
  {
    assert Inv(Empty<E>());
    ExecInv(Empty(), acts);
    assert Account(Exec(Empty(), acts), e);
  }

  // MAIN: without a lost commit no event is delivered twice.
  lemma AtMostOnce<E(!new)>(acts: seq<Action<E>>, e: E)
    requires e !in Exec(Empty(), acts).lost
    ensures Times(Exec(Empty(), acts).delivered, e) <= 1
  {
    DeliveriesAccounted(acts, e);
  }

  lemma {:induction false} ExecAppend<E>(s: System<E>, a: seq<Action<E>>, b: seq<Action<E>>)
    ensures Exec(s, a + b) == Exec(Exec(s, a), b)
    decreases |a|
  {
    if a == [] {
      assert a + b == b;
    } else {
      assert (a + b)[0] == a[0] && (a + b)[1..] == a[1..] + b;
      ExecAppend(Next(s, a[0]), a[1..], b);
    }
  }

  // The script of one call that nothing interrupts.
  function Script<E>(w: nat, e: E, ok: bool): seq<Action<E>> {
    [Open(e), Lookup(w), Insert(w), Dispatch(w, ok), Commit(w), Rollback(w)]
  }

  lemma ExecStep<E>(s: System<E>, a: Action<E>, rest: seq<Action<E>>)
    ensures Exec(s, [a] + rest) == Exec(Next(s, a), rest)
  {
    assert ([a] + rest)[0] == a && ([a] + rest)[1..] == rest;
  }

  lemma ExecScript<E>(s: System<E>, w: nat, e: E, ok: bool)
    ensures var s1 := Next(s, Open(e));
            var s2 := Next(s1, Lookup(w));
            var s3 := Next(s2, Insert(w));
            var s4 := Next(s3, Dispatch(w, ok));
            var s5 := Next(s4, Commit(w));
            Exec(s, Script(w, e, ok)) == Next(s5, Rollback(w))
  {
    var s1 := Next(s, Open(e));
    var s2 := Next(s1, Lookup(w));
    var s3 := Next(s2, Insert(w));
    var s4 := Next(s3, Dispatch(w, ok));
    var s5 := Next(s4, Commit(w));
    var r5: seq<Action<E>> := [Rollback(w)] + [];
    var r4 := [Commit(w)] + r5;
    var r3 := [Dispatch(w, ok)] + r4;
    var r2 := [Insert(w)] + r3;
    var r1 := [Lookup(w)] + r2;
    assert Script(w, e, ok) == [Open(e)] + r1;
    ExecStep(s, Open(e), r1);
    ExecStep(s1, Lookup(w), r2);
    ExecStep(s2, Insert(w), r3);
    ExecStep(s3, Dispatch(w, ok), r4);
    ExecStep(s4, Commit(w), r5);
    ExecStep(s5, Rollback(w), []);
  }

  // What callers see of the system.
  function View<E>(s: System<E>): Outbox<E> { Outbox(s.table.Keys, s.delivered) }

  function With<E>(s: System<E>, e: E, p: Phase): System<E> {
    s.(calls := s.calls + [Call(e, p)])
  }

  lemma WithMoves<E>(s: System<E>, e: E, p: Phase, q: Phase)
    ensures Move(With(s, e, p), |s.calls|, q) == With(s, e, q)
    ensures !Held(s.calls, e) && !Holds(p) ==> !Held(With(s, e, p).calls, e)
  {
  }

  // The states an uninterrupted call goes through.
  lemma CallSkips<E>(s: System<E>, e: E, ok: bool)
    requires e in s.table
    ensures Exec(s, Script(|s.calls|, e, ok)) == With(s, e, Closed)
  {
    ExecScript(s, |s.calls|, e, ok);
    WithMoves(s, e, Entered, Closed);
  }

  lemma CallInserts<E>(s: System<E>, e: E)
    requires e !in s.table && !Held(s.calls, e)
    ensures Next(Next(Next(s, Open(e)), Lookup(|s.calls|)), Insert(|s.calls|)) == With(s, e, Inserted)
  {
    WithMoves(s, e, Entered, Checked);
    WithMoves(s, e, Checked, Inserted);
  }

  lemma CallFails<E>(s: System<E>, e: E)
    requires e !in s.table && !Held(s.calls, e)
    ensures Exec(s, Script(|s.calls|, e, false)) == With(s, e, Closed)
  {
    ExecScript(s, |s.calls|, e, false);
    CallInserts(s, e);
    WithMoves(s, e, Inserted, Refused);
    WithMoves(s, e, Refused, Closed);
  }

  lemma CallDelivers<E>(s: System<E>, e: E)
    requires e !in s.table && !Held(s.calls, e)
    ensures Exec(s, Script(|s.calls|, e, true)) ==
              With(s.(delivered := s.delivered + [e], table := s.table[e := Sent]), e, Closed)
  {
    ExecScript(s, |s.calls|, e, true);
    CallInserts(s, e);
    WithMoves(s, e, Inserted, Accepted);
    WithMoves(s.(delivered := s.delivered + [e]), e, Accepted, Closed);
  }

  // Running a call's own steps back to back has exactly the effect of Send.
  lemma UninterruptedCall<E>(s: System<E>, e: E, ok: bool)
    requires !Held(s.calls, e)
    ensures var t := Exec(s, Script(|s.calls|, e, ok));
            && View(t) == Send(View(s), e, ok) && t.lost == s.lost && !Held(t.calls, e)
            && (OnlySentRows(s) ==> OnlySentRows(t))
  {
    WithMoves(s, e, Closed, Closed);
    if e in s.table {
      CallSkips(s, e, ok);
    } else if ok {
      CallDelivers(s, e);
    } else {
      CallFails(s, e);
    }
  }

  // ---------------------------------------------------------------- calls as if one after the other

  // Events WhatsApp has taken whose transaction is about to commit.
  function Taking<E>(calls: seq<Call<E>>): set<E> {
    set i | 0 <= i < |calls| && calls[i].phase.Accepted? :: calls[i].event
  }

  // What the system amounts to when the calls in flight are taken as committed.
  function Abs<E>(s: System<E>): Outbox<E> { Outbox(s.table.Keys + Taking(s.calls), s.delivered) }

  // A step seen as a whole call: a call takes effect when it hands its message over, or when
  // it finds the event already there.
  function Effect<E>(s: System<E>, a: Action<E>): seq<(E, bool)> {
    if a.Open? || a.w >= |s.calls| then []
    else
      var c := s.calls[a.w];
      match a
      case Lookup(_) => if c.phase.Entered? && c.event in s.table then [(c.event, true)] else []
      case Insert(_) => if c.phase.Checked? && c.event in s.table then [(c.event, true)] else []
      case Dispatch(_, ok) => if c.phase.Inserted? then [(c.event, ok)] else []
      case _ => []
  }

  function SendAll<E>(o: Outbox<E>, calls: seq<(E, bool)>): Outbox<E>
    decreases |calls|
  {
    if calls == [] then o else SendAll(Send(o, calls[0].0, calls[0].1), calls[1..])
  }

  function Effects<E>(s: System<E>, acts: seq<Action<E>>): seq<(E, bool)>
    decreases |acts|
  {
    if acts == [] then [] else Effect(s, acts[0]) + Effects(Next(s, acts[0]), acts[1..])
  }

  lemma SameTaking<E(!new)>(calls: seq<Call<E>>, calls': seq<Call<E>>)
    requires forall e :: InFlight(calls, e) <==> InFlight(calls', e)
    ensures Taking(calls) == Taking(calls')
  {
    forall e ensures e in Taking(calls) <==> e in Taking(calls') {
      assert e in Taking(calls) <==> InFlight(calls, e);
      assert e in Taking(calls') <==> InFlight(calls', e);
    }
  }

  lemma QuietAbs<E(!new)>(s: System<E>, w: nat, p: Phase)
    requires w < |s.calls| && !p.Accepted? && !s.calls[w].phase.Accepted?
    ensures Abs(Move(s, w, p)) == Abs(s)
  {
    forall e ensures InFlight(s.calls, e) <==> InFlight(Move(s, w, p).calls, e) { MoveInFlight(s, w, p, e); }
    SameTaking(s.calls, Move(s, w, p).calls);
  }

  lemma OpenAbs<E(!new)>(s: System<E>, event: E)
    ensures Abs(Next(s, Open(event))) == Abs(s)
  {
    var t := Next(s, Open(event));
    forall e ensures InFlight(s.calls, e) <==> InFlight(t.calls, e) {
      assert forall i :: 0 <= i < |s.calls| ==> t.calls[i] == s.calls[i];
    }
    SameTaking(s.calls, t.calls);
  }

  lemma TakingIs<E>(calls: seq<Call<E>>, e: E)
    ensures e in Taking(calls) <==> InFlight(calls, e)
  {
  }

  lemma DispatchAbs<E(!new)>(s: System<E>, w: nat)
    requires Exclusive(s) && w < |s.calls| && s.calls[w].phase.Inserted?
    ensures Abs(Move(s, w, Accepted).(delivered := s.delivered + [s.calls[w].event])) ==
            Send(Abs(s), s.calls[w].event, true)
    ensures Send(Abs(s), s.calls[w].event, false) == Abs(s)
  {
    var e := s.calls[w].event;
    var t := Move(s, w, Accepted);
    HolderAlone(s, w);
    TakingIs(s.calls, e);
    forall x ensures x in Taking(t.calls) <==> x in Taking(s.calls) + {e} {
      MoveInFlight(s, w, Accepted, x);
      TakingIs(s.calls, x);
      TakingIs(t.calls, x);
    }
    assert Taking(t.calls) == Taking(s.calls) + {e};
  }

  lemma CommitAbs<E(!new)>(s: System<E>, w: nat)
    requires Exclusive(s) && w < |s.calls| && s.calls[w].phase.Accepted?
    ensures Abs(Move(s, w, Closed).(table := s.table[s.calls[w].event := Sent])) == Abs(s)
  {
    var e := s.calls[w].event;
    var t := Move(s, w, Closed).(table := s.table[e := Sent]);
    forall x ensures x in t.table.Keys + Taking(t.calls) <==> x in s.table.Keys + Taking(s.calls) {
      MoveInFlight(s, w, Closed, x);
      TakingIs(s.calls, x);
      TakingIs(t.calls, x);
    }
    assert t.table.Keys + Taking(t.calls) == s.table.Keys + Taking(s.calls);
  }

  lemma SendAllOne<E>(o: Outbox<E>, e: E, ok: bool)
    ensures SendAll(o, [(e, ok)]) == Send(o, e, ok)
  {
    assert [(e, ok)][1..] == [];
  }

  // Unless a commit is lost, every step is no change at all or one whole call.
  lemma StepIsSend<E(!new)>(s: System<E>, a: Action<E>)
    requires Exclusive(s) && Next(s, a).lost == s.lost
    ensures Abs(Next(s, a)) == SendAll(Abs(s), Effect(s, a))
  {
    if a.Open? {
      OpenAbs(s, a.event);
    } else if a.w < |s.calls| {
      var c, t := s.calls[a.w], Next(s, a);
      SendAllOne(Abs(s), c.event, true);
      SendAllOne(Abs(s), c.event, false);
      if c.phase.Inserted? { DispatchAbs(s, a.w); }
      if c.phase.Accepted? {
        CommitAbs(s, a.w);
      } else {
        QuietStep(s, a);
      }
    }
  }

  lemma QuietStep<E(!new)>(s: System<E>, a: Action<E>)
    requires !a.Open? && a.w < |s.calls| && !s.calls[a.w].phase.Accepted?
    ensures !Next(s, a).calls[a.w].phase.Accepted? ==> Abs(Next(s, a)) == Abs(s)
  {
    var t := Next(s, a);
    var p := t.calls[a.w].phase;
    if t != s && !p.Accepted? {
      assert t == Move(s, a.w, p);
      QuietAbs(s, a.w, p);
    }
  }

  lemma {:induction false} SendAllAppend<E>(o: Outbox<E>, a: seq<(E, bool)>, b: seq<(E, bool)>)
    ensures SendAll(o, a + b) == SendAll(SendAll(o, a), b)
    decreases |a|
  {
    if a == [] {
      assert a + b == b;
    } else {
      assert (a + b)[1..] == a[1..] + b;
      SendAllAppend(Send(o, a[0].0, a[0].1), a[1..], b);
    }
  }

  lemma {:induction false} LostGrows<E>(s: System<E>, acts: seq<Action<E>>)
    ensures |s.lost| <= |Exec(s, acts).lost|
    ensures Exec(s, acts).lost == s.lost && acts != [] ==> Next(s, acts[0]).lost == s.lost
    decreases |acts|
  {
    if acts == [] {
    } else {
      var t := Next(s, acts[0]);
      assert t.lost == s.lost || |t.lost| > |s.lost|;
      LostGrows(t, acts[1..]);
    }
  }

  // MAIN: an interleaving that loses no commit leaves rows and messages exactly as some order
  // of whole calls does, one after the other: the order in which they take effect.
  lemma {:induction false} LossFreeIsSequential<E(!new)>(s: System<E>, acts: seq<Action<E>>)
    requires Inv(s) && Exec(s, acts).lost == s.lost
    ensures Abs(Exec(s, acts)) == SendAll(Abs(s), Effects(s, acts))
    decreases |acts|
  {
    if acts == [] {
    } else {
      var t := Next(s, acts[0]);
      LostGrows(s, acts);
      StepIsSend(s, acts[0]);
      NextExclusive(s, acts[0]);
      NextAccounted(s, acts[0]);
      LossFreeIsSequential(t, acts[1..]);
      SendAllAppend(Abs(s), Effect(s, acts[0]), Effects(t, acts[1..]));
    }
  }

  // What the caller of a call that takes effect at this step gets to see: an exception when
  // WhatsApp refuses the message, and when the insert meets a row committed since the lookup.
  predicate CallerRaises<E>(s: System<E>, a: Action<E>) {
    Effect(s, a) != [] && (a.Insert? || (a.Dispatch? && !a.ok))
  }

  // A caller sees an exception exactly when the whole call would raise, or when it lost the
  // race for the row: then the message is out, though the caller is told otherwise.
  lemma RaisesExactly<E(!new)>(s: System<E>, a: Action<E>)
    requires Exclusive(s) && Effect(s, a) != []
    ensures var (e, ok) := Effect(s, a)[0];
            CallerRaises(s, a) <==> Raises(Abs(s), e, ok) || a.Insert?
    ensures a.Insert? ==> Effect(s, a)[0].0 in s.table && Abs(Next(s, a)) == Abs(s)
  {
    var e := s.calls[a.w].event;
    if a.Dispatch? {
      HolderAlone(s, a.w);
      TakingIs(s.calls, e);
    } else {
      QuietStep(s, a);
    }
  }

  // Two calls for one event, both past their lookup: one delivers and commits, and the other's
  // caller sees an exception that no order of whole calls gives.
  lemma RaceLoserRaises<E(!new)>(e: E)
    ensures exists acts :: CallerRaises(Exec(Empty<E>(), acts), Insert(1))
                        && Exec(Empty<E>(), acts).delivered == [e] && Exec(Empty<E>(), acts).lost == []
  {
    var s2 := System(map[], [Call(e, Checked), Call(e, Checked)], [], []);
    var first := [Open(e), Open(e), Lookup(0), Lookup(1)];
    ExecFourSteps(Empty<E>(), Open(e), Open(e), Lookup(0), Lookup(1));
    assert Exec(Empty<E>(), first) == s2;
    var s5 := System(map[e := Sent], [Call(e, Closed), Call(e, Checked)], [e], []);
    assert !Held(s2.calls, e);
    var s3 := System(map[], [Call(e, Inserted), Call(e, Checked)], [], []);
    assert Next(s2, Insert(0)) == s3;
    var s4 := System(map[], [Call(e, Accepted), Call(e, Checked)], [e], []);
    assert Next(s3, Dispatch(0, true)) == s4;
    assert Next(s4, Commit(0)) == s5;
    assert Next(s5, Lookup(0)) == s5;
    ExecFourSteps(s2, Insert(0), Dispatch(0, true), Commit(0), Lookup(0));
    var second := [Insert(0), Dispatch(0, true), Commit(0), Lookup(0)];
    ExecAppend(Empty<E>(), first, second);
    assert CallerRaises(Exec(Empty<E>(), first + second), Insert(1));
  }

  lemma ExecFourSteps<E>(s: System<E>, a: Action<E>, b: Action<E>, c: Action<E>, d: Action<E>)
    ensures Exec(s, [a, b, c, d]) == Next(Next(Next(Next(s, a), b), c), d)
  {
    assert [a, b, c, d] == [a] + ([b] + ([c] + ([d] + [])));
    ExecStep(s, a, [b] + ([c] + ([d] + [])));
    ExecStep(Next(s, a), b, [c] + ([d] + []));
    ExecStep(Next(Next(s, a), b), c, [d] + []);
    ExecStep(Next(Next(Next(s, a), b), c), d, []);
  }

  // MAIN: a failed dispatch leaves no durable row, so the event can be sent again; the
  // next uninterrupted call that WhatsApp takes is delivered and committed.
  lemma FailureLeavesRetryOpen<E(!new)>(acts: seq<Action<E>>, w: nat)
    requires var s := Exec(Empty(), acts); w < |s.calls| && s.calls[w].phase.Refused?
    ensures var s := Exec(Empty(), acts);
            var e := s.calls[w].event;
            var t := Next(s, Rollback(w));
            && t.table == s.table && e !in t.table && !Held(t.calls, e)
            && View(Exec(t, Script(|t.calls|, e, true))) ==
                 Outbox(t.table.Keys + {e}, t.delivered + [e])
  {
    var s := Exec(Empty(), acts);
    assert Inv(Empty<E>());
    ExecInv(Empty(), acts);
    var e := s.calls[w].event;
    var t := Next(s, Rollback(w));
    forall i | 0 <= i < |t.calls| && t.calls[i].event == e
      ensures !Holds(t.calls[i].phase)
    {
      if i < w { assert s.calls[i] == t.calls[i]; } else if w < i { assert s.calls[i] == t.calls[i]; }
    }
    UninterruptedCall(t, e, true);
  }

  // Once the row is committed it stays, as SENT, and nothing is ever delivered for it again.
  lemma {:induction false} CommittedIsFinal<E(!new)>(s: System<E>, acts: seq<Action<E>>, e: E)
    requires Inv(s) && e in s.table
    ensures var t := Exec(s, acts);
            && e in t.table && t.table[e] == Sent
            && Times(t.delivered, e) == Times(s.delivered, e)
    decreases |acts|
  {
    if acts == [] {
    } else {
      var a := acts[0];
      NextExclusive(s, a);
      NextAccounted(s, a);
      if a.Dispatch? && a.w < |s.calls| { TimesAppend(s.delivered, s.calls[a.w].event, e); }
      CommittedIsFinal(Next(s, a), acts[1..], e);
    }
  }

  // Whoever holds the index entry of `e` can give it up without delivering or losing anything.
  lemma Settle<E(!new)>(s: System<E>, e: E) returns (acts: seq<Action<E>>)
    requires Inv(s) && e !in s.table && !InFlight(s.calls, e)
    ensures var t := Exec(s, acts);
            && t.lost == s.lost && Times(t.delivered, e) == Times(s.delivered, e)
            && e !in t.table && !Held(t.calls, e)
  {
    if !Held(s.calls, e) {
      acts := [];
    } else {
      var i :| 0 <= i < |s.calls| && s.calls[i].event == e && Holds(s.calls[i].phase);
      HolderAlone(s, i);
      assert !s.calls[i].phase.Accepted?;
      acts := [Dispatch(i, false), Rollback(i)];
      var m := Next(s, Dispatch(i, false));
      var t := Next(m, Rollback(i));
      assert acts == [Dispatch(i, false)] + ([Rollback(i)] + []);
      ExecStep(s, Dispatch(i, false), [Rollback(i)] + []);
      ExecStep(m, Rollback(i), []);
      assert Exec(s, acts) == t;
      forall j | 0 <= j < |t.calls| && t.calls[j].event == e
        ensures !Holds(t.calls[j].phase)
      {
        if j < i { assert t.calls[j] == s.calls[j]; } else if i < j { assert t.calls[j] == s.calls[j]; }
      }
    }
  }

  // The exact condition.  From any reachable state, "this event is delivered at most once
  // whatever happens next, as long as nothing more is lost" holds if and only if no commit
  // for the event has been lost.
  ghost predicate SafeFromHere<E(!new)>(s: System<E>, e: E) {
    forall acts :: Exec(s, acts).lost == s.lost ==> Times(Exec(s, acts).delivered, e) <= 1
  }

  lemma AtMostOnceExactly<E(!new)>(acts: seq<Action<E>>, e: E)
    ensures var s := Exec(Empty(), acts);
            SafeFromHere(s, e) <==> e !in s.lost
  {
    var s := Exec(Empty(), acts);
    assert Inv(Empty<E>());
    ExecInv(Empty(), acts);
    if e !in s.lost {
      forall more | Exec(s, more).lost == s.lost
        ensures Times(Exec(s, more).delivered, e) <= 1
      {
        ExecAppend(Empty(), acts, more);
        AtMostOnce(acts + more, e);
      }
    } else if Times(s.delivered, e) > 1 {
      assert Exec(s, []) == s;
    } else {
      assert Account(s, e) && e in multiset(s.lost);
      var free := Settle(s, e);
      var t := Exec(s, free);
      var again := Script(|t.calls|, e, true);
      UninterruptedCall(t, e, true);
      ExecAppend(s, free, again);
      TimesAppend(t.delivered, e, e);
      assert Times(Exec(s, free + again).delivered, e) == Times(s.delivered, e) + 1;
      assert Exec(s, free + again).lost == s.lost;
    }
  }

  lemma ExecFive<E>(s: System<E>, a: Action<E>, b: Action<E>, c: Action<E>, d: Action<E>, e: Action<E>)
    ensures Exec(s, [a, b, c, d, e]) == Next(Next(Next(Next(Next(s, a), b), c), d), e)
  {
    var s1 := Next(s, a);
    var s2 := Next(s1, b);
    var s3 := Next(s2, c);
    var s4 := Next(s3, d);
    assert [a, b, c, d, e] == [a] + [b, c, d, e] && [b, c, d, e] == [b] + [c, d, e];
    assert [c, d, e] == [c] + [d, e] && [d, e] == [d] + [e] && [e] == [e] + [];
    ExecStep(s, a, [b, c, d, e]);
    ExecStep(s1, b, [c, d, e]);
    ExecStep(s2, c, [d, e]);
    ExecStep(s3, d, [e]);
    ExecStep(s4, e, []);
  }

  // A call whose transaction dies right after WhatsApp took the message.
  lemma DiesAfterDispatch<E>(s: System<E>, e: E)
    requires e !in s.table && !Held(s.calls, e)
    ensures Exec(s, [Open(e), Lookup(|s.calls|), Insert(|s.calls|), Dispatch(|s.calls|, true), Die(|s.calls|)]) ==
              With(s.(delivered := s.delivered + [e], lost := s.lost + [e]), e, Closed)
  {
    var w, d := |s.calls|, s.(delivered := s.delivered + [e]);
    ExecFive(s, Open(e), Lookup(w), Insert(w), Dispatch(w, true), Die(w));
    CallInserts(s, e);
    WithDispatch(s, e);
    WithDie(d, e);
  }

  lemma WithDispatch<E>(s: System<E>, e: E)
    ensures Next(With(s, e, Inserted), Dispatch(|s.calls|, true)) ==
            With(s.(delivered := s.delivered + [e]), e, Accepted)
  {
    WithMoves(s, e, Inserted, Accepted);
  }

  lemma WithDie<E>(s: System<E>, e: E)
    ensures Next(With(s, e, Accepted), Die(|s.calls|)) == With(s.(lost := s.lost + [e]), e, Closed)
  {
    WithMoves(s, e, Accepted, Closed);
  }

  // Losing a commit and then calling again delivers the same event a second time.
  lemma LostCommitDeliversTwice<E>(e: E)
    ensures exists acts :: Exec(Empty<E>(), acts).delivered == [e, e]
  {
    var first := [Open(e), Lookup(0), Insert(0), Dispatch(0, true), Die(0)];
    DiesAfterDispatch(Empty<E>(), e);
    var s := Exec(Empty<E>(), first);
    assert !Held(s.calls, e) && s.table == map[] && s.delivered == [] + [e];
    UninterruptedCall(s, e, true);
    ExecAppend(Empty(), first, Script(|s.calls|, e, true));
    assert Exec(Empty<E>(), first + Script(|s.calls|, e, true)).delivered == [e, e];
  }

  // The service object as one caller sees it: rows are written inside the caller's
  // transaction and undone when the dispatch error is raised again.
  class NotificationService<E(==)> {
    var rows: map<E, Status>
    var delivered: seq<E>

    ghost predicate Valid()
      reads this
    {
      forall e :: e in rows ==> rows[e] == Sent
    }

    ghost function Contents(): Outbox<E>
      reads this
    {
      Outbox(rows.Keys, delivered)
    }

    constructor ()
      ensures Valid() && Contents() == Outbox({}, [])
    {
      rows := map[];
      delivered := [];
    }

    method SendMessage(event: E, accepted: bool) returns (raised: bool)
      requires Valid()
      modifies this
      ensures Valid()
      ensures raised == Raises(old(Contents()), event, accepted)
      ensures Contents() == Send(old(Contents()), event, accepted)
    {
      var savepoint := rows;
      if event in rows {
        return false;
      }
      rows := rows[event := Pending];
      if accepted {
        delivered := delivered + [event];
        rows := rows[event := Sent];
        raised := false;
      } else {
        rows := rows[event := Failed];
        raised := true;
        rows := savepoint;
      }
    }
  }
}
