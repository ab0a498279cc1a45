/**
 * The debt reminder job for standalone debts.
 *
 * The job sends a reminder in one transaction and moves the debt's counter in a
 * second one.  It may die, or the second transaction may fail, at any point
 * between the two; debts are created and settled while it runs.  Reminder number
 * j of a debt carries the event id (debt, j).
 */
module DebtReminders {
  import opened Basics
  import opened Delivery

  type DebtId = string

  const SECONDS_PER_DAY := 86400

  datatype DebtStatus = Active | Settled | Disputed | WrittenOff

  datatype Debt = Debt(
    status: DebtStatus,
    createdAt: int,
    intervalDays: int,
    maxReminders: int,
    remindersSent: nat,
    lastRemindedAt: Option<int>
  )

  // One reminder that WhatsApp took: which debt, which number, and when its job started.
  datatype Reminder = Reminder(debt: DebtId, index: nat, at: int)

  datatype Job =
    | Idle
    | Sending(now: int, snap: map<DebtId, Debt>, todo: seq<DebtId>)
    | Counting(now: int, snap: map<DebtId, Debt>, head: DebtId, todo: seq<DebtId>)

  datatype World = World(
    clock: int,
    debts: map<DebtId, Debt>,
    outbox: Outbox<(DebtId, nat)>,
    log: seq<Reminder>,
    job: Job
  )

  datatype Action =
    | Tick(seconds: nat)
    | Create(id: DebtId, intervalDays: int, maxReminders: int)
    | SetStatus(id: DebtId, status: DebtStatus)
    | Begin(order: seq<DebtId>)     // order: the due rows as the database lists them
    | SkipTurn                      // no trader phone for this debt
    | SendTurn(accepted: bool)      // first transaction
    | CountTurn(committed: bool)    // second transaction
    | Finish
    | Die

  function LastSeen(d: Debt): int {
    if d.lastRemindedAt.Some? then d.lastRemindedAt.value else d.createdAt
  }

  predicate Due(d: Debt, now: int) {
    && d.status == Active
    && d.remindersSent < d.maxReminders
    && now - LastSeen(d) >= d.intervalDays * SECONDS_PER_DAY
  }

  function DueSet(debts: map<DebtId, Debt>, now: int): set<DebtId> {
    set id | id in debts && Due(debts[id], now)
  }

  function Event(snap: map<DebtId, Debt>, id: DebtId): (DebtId, nat)
    requires id in snap
  {
    (id, snap[id].remindersSent)
  }

  // One step; a step that does not apply now leaves the world as it is.
  function Next(w: World, a: Action): World {
    match a
    case Tick(s) => w.(clock := w.clock + s)
    case Create(id, days, max) =>
      if id in w.debts then w
      else w.(debts := w.debts[id := Debt(Active, w.clock, days, max, 0, None)])
    case SetStatus(id, st) =>
      if id !in w.debts then w
      else w.(debts := w.debts[id := w.debts[id].(status := st)])
    case Begin(order) =>
      if w.job.Idle? && Distinct(order) && Elems(order) == DueSet(w.debts, w.clock)
      then w.(job := Sending(w.clock, w.debts, order))
      else w
    case SkipTurn =>
      if w.job.Sending? && w.job.todo != [] then w.(job := Sending(w.job.now, w.job.snap, w.job.todo[1..])) else w
    case SendTurn(ok) =>
      if w.job.Sending? && w.job.todo != [] && w.job.todo[0] in w.job.snap
      then SendReminder(w, w.job.todo[0], ok) else w
    case CountTurn(ok) =>
      if w.job.Counting? && w.job.head in w.job.snap then CountReminder(w, w.job.head, ok) else w
    case Finish =>
      if w.job.Sending? && w.job.todo == [] then w.(job := Idle) else w
    case Die => w.(job := Idle)
  }

  function SendReminder(w: World, id: DebtId, ok: bool): World
    requires w.job.Sending? && w.job.todo != [] && id in w.job.snap
  {
    var e := Event(w.job.snap, id);
    var rest := w.job.todo[1..];
    if Raises(w.outbox, e, ok) then
      w.(job := Sending(w.job.now, w.job.snap, rest))
    else
      w.(outbox := Send(w.outbox, e, ok),
         log := if e in w.outbox.rows then w.log else w.log + [Reminder(id, e.1, w.job.now)],
         job := Counting(w.job.now, w.job.snap, id, rest))
  }

  function CountReminder(w: World, id: DebtId, ok: bool): World
    requires w.job.Counting? && id in w.job.snap
  {
    var next := Sending(w.job.now, w.job.snap, w.job.todo);
    if ok && id in w.debts then
      w.(debts := w.debts[id := w.debts[id].(remindersSent := w.job.snap[id].remindersSent + 1,
                                             lastRemindedAt := Some(w.job.now))],
         job := next)
    else
      w.(job := next)
  }

  function Exec(w: World, acts: seq<Action>): World
    decreases |acts|
  {
    if acts == [] then w else Exec(Next(w, acts[0]), acts[1..])
  }

  function Start(clock: int): World { World(clock, map[], Outbox({}, []), [], Idle) }

  // The reminders of one debt, in the order WhatsApp took them.
  function History(log: seq<Reminder>, id: DebtId): seq<Reminder> {
    if log == [] then []
    else
      var h := History(log[..|log| - 1], id);
      if log[|log| - 1].debt == id then h + [log[|log| - 1]] else h
  }

  lemma {:induction false} HistoryFrom(log: seq<Reminder>, id: DebtId)
    ensures forall k :: 0 <= k < |History(log, id)| ==>
              History(log, id)[k].debt == id && History(log, id)[k] in log
  {
    if log == [] {
    } else {
      assert log == log[..|log| - 1] + [log[|log| - 1]];
      HistoryFrom(log[..|log| - 1], id);
    }
  }

  lemma HistoryAppend(log: seq<Reminder>, r: Reminder, id: DebtId)
    ensures History(log + [r], id) == if r.debt == id then History(log, id) + [r] else History(log, id)
  {
    assert (log + [r])[..|log|] == log;
  }

  // What the history of a debt and its row say about each other.
  ghost predicate DebtOk(d: Debt, h: seq<Reminder>) {
    && (|h| == d.remindersSent || |h| == d.remindersSent + 1)
    && (h != [] ==> |h| <= d.maxReminders)
    && (d.remindersSent > 0 ==> d.lastRemindedAt.Some?)
    && (d.lastRemindedAt.Some? ==> d.remindersSent > 0)
    && (forall k :: 0 <= k < |h| ==> h[k].index == k)
    && (forall k :: 0 <= k < d.remindersSent ==> h[k].at <= LastSeen(d))
    && Spaced(d, h)
  }

  // Job start times of consecutive reminders are at least the interval apart, and the
  // first comes at least the interval after the debt was recorded.
  ghost predicate Spaced(d: Debt, h: seq<Reminder>) {
    && (h != [] ==> h[0].at >= d.createdAt + d.intervalDays * SECONDS_PER_DAY)
    && (forall k :: 0 <= k && k + 1 < |h| ==>
          h[k + 1].at >= h[k].at + d.intervalDays * SECONDS_PER_DAY)
  }

  // The job's copy of a row agrees with the row on everything only the job writes.
  predicate Fresh(copy: Debt, row: Debt) {
    row == copy.(status := row.status)
  }

  ghost predicate JobOk(w: World) {
    match w.job
    case Idle => true
    case Sending(now, snap, todo) =>
      && now <= w.clock && (forall r :: r in w.log ==> r.at <= now)
      && Distinct(todo) && TodoOk(w.debts, now, snap, todo)
    case Counting(now, snap, head, todo) =>
      && now <= w.clock && (forall r :: r in w.log ==> r.at <= now)
      && Distinct(todo) && TodoOk(w.debts, now, snap, todo)
      && head !in todo && TodoOk(w.debts, now, snap, [head])
      && Event(snap, head) in w.outbox.rows
  }

  ghost predicate TodoOk(debts: map<DebtId, Debt>, now: int, snap: map<DebtId, Debt>, todo: seq<DebtId>) {
    forall id :: id in todo ==>
      id in snap && id in debts && Due(snap[id], now) && Fresh(snap[id], debts[id])
  }

  ghost predicate RowsOk(rows: set<(DebtId, nat)>, log: seq<Reminder>) {
    forall id, j: nat :: (id, j) in rows <==> j < |History(log, id)|
  }

  ghost predicate DebtsOk(debts: map<DebtId, Debt>, log: seq<Reminder>) {
    && (forall id :: id in debts ==> DebtOk(debts[id], History(log, id)))
    && (forall r :: r in log ==> r.debt in debts)
  }

  ghost predicate Inv(w: World) {
    && (forall r :: r in w.log ==> r.at <= w.clock)
    && RowsOk(w.outbox.rows, w.log)
    && DebtsOk(w.debts, w.log)
    && JobOk(w)
  }

  // A delivery adds the one reminder whose number is the counter.
  lemma DeliverKeepsDebt(d: Debt, copy: Debt, h: seq<Reminder>, r: Reminder)
    requires DebtOk(d, h) && Fresh(copy, d) && Due(copy, r.at)
    requires r.index == copy.remindersSent && |h| == d.remindersSent
    ensures DebtOk(d, h + [r])
  {
    if h != [] {
      var k := |h| - 1;
      assert h[k].at <= LastSeen(d);
    }
  }

  lemma DeliverKeepsDebts(debts: map<DebtId, Debt>, log: seq<Reminder>, copy: Debt, r: Reminder)
    requires DebtsOk(debts, log) && r.debt in debts
    requires Fresh(copy, debts[r.debt]) && Due(copy, r.at)
    requires r.index == copy.remindersSent == |History(log, r.debt)|
    ensures DebtsOk(debts, log + [r])
  {
    forall id | id in debts
      ensures DebtOk(debts[id], History(log + [r], id))
    {
      HistoryAppend(log, r, id);
      if id == r.debt { DeliverKeepsDebt(debts[id], copy, History(log, id), r); }
    }
  }

  lemma DeliverKeepsRows(rows: set<(DebtId, nat)>, log: seq<Reminder>, r: Reminder)
    requires RowsOk(rows, log) && r.index == |History(log, r.debt)|
    ensures RowsOk(rows + {(r.debt, r.index)}, log + [r])
  {
    forall id, j: nat
      ensures (id, j) in rows + {(r.debt, r.index)} <==> j < |History(log + [r], id)|
    {
      HistoryAppend(log, r, id);
    }
  }

  lemma SendKeepsJob(w: World, ok: bool)
    requires JobOk(w) && w.job.Sending? && w.job.todo != []
    ensures JobOk(Next(w, SendTurn(ok)))
  {
    var todo := w.job.todo;
    assert todo[0] in todo && todo[0] !in todo[1..];
    assert forall id :: id in todo[1..] ==> id in todo;
    assert Distinct(todo[1..]);
  }

  lemma SendKeepsInv(w: World, ok: bool)
    requires Inv(w) && w.job.Sending? && w.job.todo != []
    ensures Inv(Next(w, SendTurn(ok)))
  {
    SendKeepsJob(w, ok);
    var id := w.job.todo[0];
    assert id in w.job.todo;
    var e := Event(w.job.snap, id);
    assert DebtOk(w.debts[id], History(w.log, id));
    if e !in w.outbox.rows && ok {
      var r := Reminder(id, e.1, w.job.now);
      assert |History(w.log, id)| == e.1;
      DeliverKeepsDebts(w.debts, w.log, w.job.snap[id], r);
      DeliverKeepsRows(w.outbox.rows, w.log, r);
      var t := Next(w, SendTurn(ok));
      assert t.log == w.log + [r] && t.outbox.rows == w.outbox.rows + {(id, e.1)};
    }
  }

  lemma CountKeepsDebt(d: Debt, h: seq<Reminder>, now: int)
    requires DebtOk(d, h) && |h| == d.remindersSent + 1
    requires forall k :: 0 <= k < |h| ==> h[k].at <= now
    ensures DebtOk(d.(remindersSent := d.remindersSent + 1, lastRemindedAt := Some(now)), h)
  {
  }

  lemma ReplaceKeepsDebts(debts: map<DebtId, Debt>, log: seq<Reminder>, id: DebtId, d: Debt)
    requires DebtsOk(debts, log) && id in debts && DebtOk(d, History(log, id))
    ensures DebtsOk(debts[id := d], log)
  {
  }

  lemma CountKeepsDebts(debts: map<DebtId, Debt>, log: seq<Reminder>, id: DebtId, now: int)
    requires DebtsOk(debts, log) && id in debts && |History(log, id)| == debts[id].remindersSent + 1
    requires forall r :: r in log ==> r.at <= now
    ensures var d := debts[id].(remindersSent := debts[id].remindersSent + 1, lastRemindedAt := Some(now));
            DebtsOk(debts[id := d], log)
  {
    var d := debts[id].(remindersSent := debts[id].remindersSent + 1, lastRemindedAt := Some(now));
    HistoryFrom(log, id);
    CountKeepsDebt(debts[id], History(log, id), now);
    ReplaceKeepsDebts(debts, log, id, d);
  }

  lemma CountKeepsTodo(
    debts: map<DebtId, Debt>, now: int, snap: map<DebtId, Debt>, todo: seq<DebtId>, id: DebtId, d: Debt)
    requires TodoOk(debts, now, snap, todo) && id !in todo
    ensures TodoOk(debts[id := d], now, snap, todo)
  {
  }

  // A counted debt has had one reminder more than its row says.
  lemma CountedIsOneAhead(w: World)
    requires Inv(w) && w.job.Counting?
    ensures var id := w.job.head;
            && id in w.job.snap && id in w.debts
            && w.debts[id].remindersSent == w.job.snap[id].remindersSent
            && |History(w.log, id)| == w.debts[id].remindersSent + 1
  {
    var id := w.job.head;
    assert id in [id];
    assert DebtOk(w.debts[id], History(w.log, id));
    assert (id, w.debts[id].remindersSent) in w.outbox.rows;
  }

  lemma BackToSending(w: World, debts: map<DebtId, Debt>)
    requires Inv(w) && w.job.Counting? && DebtsOk(debts, w.log) && TodoOk(debts, w.job.now, w.job.snap, w.job.todo)
    ensures Inv(w.(debts := debts, job := Sending(w.job.now, w.job.snap, w.job.todo)))
  {
  }

  lemma CountKeepsInv(w: World, ok: bool)
    requires Inv(w) && w.job.Counting?
    ensures Inv(Next(w, CountTurn(ok)))
  {
    var id := w.job.head;
    CountedIsOneAhead(w);
    if ok {
      var d := w.debts[id].(remindersSent := w.debts[id].remindersSent + 1, lastRemindedAt := Some(w.job.now));
      CountKeepsDebts(w.debts, w.log, id, w.job.now);
      CountKeepsTodo(w.debts, w.job.now, w.job.snap, w.job.todo, id, d);
      BackToSending(w, w.debts[id := d]);
      CountEffect(w, ok, d);
    } else {
      BackToSending(w, w.debts);
    }
  }

  lemma CountEffect(w: World, ok: bool, d: Debt)
    requires w.job.Counting? && w.job.head in w.job.snap && w.job.head in w.debts && ok
    requires d == w.debts[w.job.head].(remindersSent := w.job.snap[w.job.head].remindersSent + 1,
                                       lastRemindedAt := Some(w.job.now))
    ensures Next(w, CountTurn(ok)) ==
            w.(debts := w.debts[w.job.head := d], job := Sending(w.job.now, w.job.snap, w.job.todo))
  {
  }

  lemma BeginKeepsInv(w: World, order: seq<DebtId>)
    requires Inv(w)
    ensures Inv(Next(w, Begin(order)))
  {
    if Next(w, Begin(order)) != w {
      forall id | id in order ensures id in w.debts && Due(w.debts[id], w.clock) {
        assert id in Elems(order);
      }
    }
  }

  // Debts the job holds copies of change in their status only.
  lemma OutsideKeepsJob(w: World, debts: map<DebtId, Debt>)
    requires JobOk(w)
    requires forall id :: id in w.debts ==> id in debts && Fresh(w.debts[id], debts[id])
    ensures JobOk(w.(debts := debts))
  {
  }

  lemma {:induction false} NoHistory(log: seq<Reminder>, id: DebtId)
    requires forall r :: r in log ==> r.debt != id
    ensures History(log, id) == []
  {
    if log == [] {
    } else {
      assert log[|log| - 1] in log;
      NoHistory(log[..|log| - 1], id);
    }
  }

  lemma OutsideKeepsInv(w: World, a: Action)
    requires Inv(w) && (a.Create? || a.SetStatus?)
    ensures Inv(Next(w, a))
  {
    var t := Next(w, a);
    OutsideKeepsJob(w, t.debts);
    forall id | id in t.debts ensures DebtOk(t.debts[id], History(t.log, id)) {
      if id in w.debts {
        assert DebtOk(w.debts[id], History(w.log, id));
      } else {
        NoHistory(w.log, id);
      }
    }
  }

  lemma NextKeepsInv(w: World, a: Action)
    requires Inv(w)
    ensures Inv(Next(w, a))
  {
    match a
    case Tick(s) =>
    case Create(_, _, _) => OutsideKeepsInv(w, a);
    case SetStatus(_, _) => OutsideKeepsInv(w, a);
    case Begin(order) => BeginKeepsInv(w, order);
    case SkipTurn =>
    case SendTurn(ok) => if w.job.Sending? && w.job.todo != [] { SendKeepsInv(w, ok); }
    case CountTurn(ok) => if w.job.Counting? { CountKeepsInv(w, ok); }
    case Finish =>
    case Die =>
  }

  lemma {:induction false} ExecKeepsInv(w: World, acts: seq<Action>)
    requires Inv(w)
    ensures Inv(Exec(w, acts))
    decreases |acts|
  {
    if acts == [] {
    } else {
      NextKeepsInv(w, acts[0]);
      ExecKeepsInv(Next(w, acts[0]), acts[1..]);
    }
  }

  // MAIN: over every run, including deaths between the two transactions, the reminders of
  // a debt are numbered 0, 1, 2, ... without repetition; their count is the row's counter
  // or one more; it never exceeds the row's maximum; and job start times are spaced.
  lemma RemindersSound(clock: int, acts: seq<Action>, id: DebtId)
    requires id in Exec(Start(clock), acts).debts
    ensures var w := Exec(Start(clock), acts);
            var d := w.debts[id];
            var h := History(w.log, id);
            && d.remindersSent <= |h| <= d.remindersSent + 1
            && (h != [] ==> |h| <= d.maxReminders)
            && (forall k :: 0 <= k < |h| ==> h[k].index == k)
            && Spaced(d, h)
  {
    assert Inv(Start(clock));
    ExecKeepsInv(Start(clock), acts);
  }

  // Any two reminders of one debt, not only neighbours, keep the spacing.
  lemma {:induction false} SpacedApart(d: Debt, h: seq<Reminder>, i: nat, j: nat)
    requires Spaced(d, h) && i <= j < |h|
    ensures h[j].at - h[i].at >= (j - i) * d.intervalDays * SECONDS_PER_DAY
    decreases j - i
  {
    if i < j {
      SpacedApart(d, h, i, j - 1);
      assert h[(j - 1) + 1].at >= h[j - 1].at + d.intervalDays * SECONDS_PER_DAY;
      assert (j - i) * d.intervalDays == (j - 1 - i) * d.intervalDays + d.intervalDays;
    }
  }

  // A due debt whose turn comes and whose message is taken gets its next reminder.
  lemma DueIsReminded(clock: int, acts: seq<Action>, id: DebtId)
    requires var w := Exec(Start(clock), acts);
             && w.job.Sending? && w.job.todo != [] && w.job.todo[0] == id
             && id in w.debts && |History(w.log, id)| == w.debts[id].remindersSent
    ensures var w := Exec(Start(clock), acts);
            var t := Next(Next(w, SendTurn(true)), CountTurn(true));
            && t.log == w.log + [Reminder(id, w.debts[id].remindersSent, w.job.now)]
            && t.debts[id].remindersSent == w.debts[id].remindersSent + 1
            && t.debts[id].lastRemindedAt == Some(w.job.now)
  {
    ExecKeepsInv(Start(clock), acts);
  }

  // ---------------------------------------------------------------- which debts a job takes up

  // When the debt was last reminded of, or recorded.
  predicate WaitedLongEnough(d: Debt, clock: int) {
    match d.lastRemindedAt
    case None => clock - d.createdAt >= d.intervalDays * 86400
    case Some(t) => clock - t >= d.intervalDays * 86400
  }

  predicate ToRemind(d: Debt, clock: int) {
    d.status == Active && d.remindersSent < d.maxReminders && WaitedLongEnough(d, clock)
  }

  // MAIN: an idle scheduler starts a job with exactly the active debts that have reminders left
  // and whose interval has passed, each once, as they stand and at the present time.
  lemma BeginTakesExactly(w: World, order: seq<DebtId>)
    requires w.job.Idle?
    ensures Next(w, Begin(order)).job.Sending? <==>
            Distinct(order) && forall id :: id in order <==> id in w.debts && ToRemind(w.debts[id], w.clock)
    ensures Next(w, Begin(order)).job.Sending? ==>
            Next(w, Begin(order)) == w.(job := Sending(w.clock, w.debts, order))
  {
    assert forall id :: id in Elems(order) <==> id in order;
    assert forall id :: id in DueSet(w.debts, w.clock) <==> id in w.debts && ToRemind(w.debts[id], w.clock);
    if forall id :: id in order <==> id in w.debts && ToRemind(w.debts[id], w.clock) {
      assert Elems(order) == DueSet(w.debts, w.clock);
    }
  }

  // The debt after a reminder at the given time.
  function Reminded(d: Debt, now: int): Debt {
    Debt(d.status, d.createdAt, d.intervalDays, d.maxReminders, d.remindersSent + 1, Some(now))
  }

  // What one complete turn does, whether the message goes out now or had gone out before a death.
  ghost predicate TurnDone(w: World, t: World, id: DebtId, now: int)
    requires id in w.debts
  {
    && t.debts == w.debts[id := Reminded(w.debts[id], now)] && t.clock == w.clock
    && |History(t.log, id)| == w.debts[id].remindersSent + 1
    && t.log == w.log + (if |History(w.log, id)| == w.debts[id].remindersSent
                         then [Reminder(id, w.debts[id].remindersSent, now)] else [])
  }

  lemma HeadFacts(w: World)
    requires Inv(w) && w.job.Sending? && w.job.todo != []
    ensures var id := w.job.todo[0];
            && id in w.debts && id in w.job.snap && w.job.snap[id].remindersSent == w.debts[id].remindersSent
            && w.debts[id].remindersSent <= |History(w.log, id)| <= w.debts[id].remindersSent + 1
            && (Event(w.job.snap, id) in w.outbox.rows <==> |History(w.log, id)| == w.debts[id].remindersSent + 1)
  {
    var id := w.job.todo[0];
    assert id in w.job.todo && DebtOk(w.debts[id], History(w.log, id));
    assert (id, w.debts[id].remindersSent) in w.outbox.rows <==> w.debts[id].remindersSent < |History(w.log, id)|;
  }

  lemma TurnShape(w: World)
    requires w.job.Sending? && w.job.todo != []
    requires var id := w.job.todo[0];
             id in w.debts && id in w.job.snap && w.job.snap[id].remindersSent == w.debts[id].remindersSent
    ensures var id := w.job.todo[0];
            var t := Next(Next(w, SendTurn(true)), CountTurn(true));
            && t.debts == w.debts[id := Reminded(w.debts[id], w.job.now)] && t.clock == w.clock
            && t.job == Sending(w.job.now, w.job.snap, w.job.todo[1..])
            && t.log == w.log + (if Event(w.job.snap, id) in w.outbox.rows then []
                                 else [Reminder(id, w.debts[id].remindersSent, w.job.now)])
  {
  }

  lemma TurnKeepsInv(w: World)
    requires Inv(w) && w.job.Sending? && w.job.todo != []
    ensures Inv(Next(Next(w, SendTurn(true)), CountTurn(true)))
  {
    NextKeepsInv(w, SendTurn(true));
    NextKeepsInv(Next(w, SendTurn(true)), CountTurn(true));
  }

  lemma CompleteTurn(w: World)
    requires Inv(w) && w.job.Sending? && w.job.todo != []
    ensures var id := w.job.todo[0];
            var t := Next(Next(w, SendTurn(true)), CountTurn(true));
            && id in w.debts && TurnDone(w, t, id, w.job.now) && Inv(t)
            && t.job == Sending(w.job.now, w.job.snap, w.job.todo[1..])
  {
    var id := w.job.todo[0];
    HeadFacts(w);
    TurnShape(w);
    HistoryAppend(w.log, Reminder(id, w.debts[id].remindersSent, w.job.now), id);
    assert w.log + [] == w.log;
    TurnKeepsInv(w);
  }

  function AllComplete(id: DebtId): Turn { Completes }

  // Debts on the list are reminded, the others left as they were.
  ghost predicate ListDone(w: World, u: World, todo: seq<DebtId>, now: int) {
    && u.job.Idle? && u.clock == w.clock && u.debts.Keys == w.debts.Keys
    && forall id :: id in w.debts ==>
         if id in todo
         then u.debts[id] == Reminded(w.debts[id], now) && |History(u.log, id)| == w.debts[id].remindersSent + 1
         else u.debts[id] == w.debts[id] && History(u.log, id) == History(w.log, id)
  }

  lemma ListDoneStep(w: World, t: World, u: World, todo: seq<DebtId>, now: int)
    requires todo != [] && todo[0] in w.debts && Distinct(todo)
    requires TurnDone(w, t, todo[0], now) && ListDone(t, u, todo[1..], now)
    ensures ListDone(w, u, todo, now)
  {
    forall id | id in w.debts && id != todo[0]
      ensures History(t.log, id) == History(w.log, id) && (id in todo <==> id in todo[1..])
    {
      HistoryAppend(w.log, Reminder(todo[0], w.debts[todo[0]].remindersSent, now), id);
      assert t.log == w.log || t.log == w.log + [Reminder(todo[0], w.debts[todo[0]].remindersSent, now)];
    }
    assert todo[0] !in todo[1..];
  }

  lemma {:induction false} JobDoesList(w: World)
    requires Inv(w) && w.job.Sending?
    ensures ListDone(w, Exec(w, JobScript(w.job.todo, AllComplete)), w.job.todo, w.job.now)
    decreases |w.job.todo|
  {
    var todo := w.job.todo;
    if todo == [] {
      assert JobScript(todo, AllComplete) == [Finish] + [];
      ExecStep(w, Finish, []);
    } else {
      var t := Next(Next(w, SendTurn(true)), CountTurn(true));
      CompleteTurn(w);
      assert todo[0] in todo;
      TurnEffect(w, Completes);
      ExecAppend(w, TurnScript(Completes), JobScript(todo[1..], AllComplete));
      JobDoesList(t);
      ListDoneStep(w, t, Exec(w, JobScript(todo, AllComplete)), todo, w.job.now);
    }
  }

  // MAIN: from every reachable idle state, a job that completes reminds of exactly the debts
  // whose interval has passed, counts each reminder and stamps it with the job's start; a
  // reminder that had gone out before a death is counted without another message.
  lemma JobDoesExactly(clock: int, acts: seq<Action>, order: seq<DebtId>)
    requires Exec(Start(clock), acts).job.Idle? && Distinct(order)
    requires var w := Exec(Start(clock), acts);
             forall id :: id in order <==> id in w.debts && ToRemind(w.debts[id], w.clock)
    ensures var w := Exec(Start(clock), acts);
            var u := Exec(w, [Begin(order)] + JobScript(order, AllComplete));
            && u.job.Idle? && u.debts.Keys == w.debts.Keys
            && forall id :: id in w.debts ==>
                 if ToRemind(w.debts[id], w.clock)
                 then u.debts[id] == Reminded(w.debts[id], w.clock)
                      && |History(u.log, id)| == w.debts[id].remindersSent + 1
                 else u.debts[id] == w.debts[id] && History(u.log, id) == History(w.log, id)
  {
    var w := Exec(Start(clock), acts);
    ExecKeepsInv(Start(clock), acts);
    BeginTakesExactly(w, order);
    NextKeepsInv(w, Begin(order));
    ExecStep(w, Begin(order), JobScript(order, AllComplete));
    JobDoesList(Next(w, Begin(order)));
  }

  // ---------------------------------------------------------------- debts settled meanwhile

  // The running job still has the debt on its list and its reminder has not gone out.
  predicate Owed(w: World, id: DebtId) {
    match w.job
    case Idle => false
    case Sending(_, snap, todo) => id in todo && id in snap && Event(snap, id) !in w.outbox.rows
    case Counting(_, snap, _, todo) => id in todo && id in snap && Event(snap, id) !in w.outbox.rows
  }

  predicate LeavesAlone(acts: seq<Action>, id: DebtId) {
    forall i :: 0 <= i < |acts| && acts[i].SetStatus? ==> acts[i].id != id
  }

  predicate Inactive(w: World, id: DebtId) { id in w.debts && w.debts[id].status != Active }

  lemma OverStaysOver(w: World, a: Action, id: DebtId)
    requires Inactive(w, id) && !Owed(w, id) && (a.SetStatus? ==> a.id != id)
    ensures Inactive(Next(w, a), id) && !Owed(Next(w, a), id)
    ensures History(Next(w, a).log, id) == History(w.log, id)
  {
    if a.Begin? {
      if Elems(a.order) == DueSet(w.debts, w.clock) { assert id !in Elems(a.order); }
    } else if a.SendTurn? && w.job.Sending? && w.job.todo != [] && w.job.todo[0] in w.job.snap {
      var head := w.job.todo[0];
      HistoryAppend(w.log, Reminder(head, w.job.snap[head].remindersSent, w.job.now), id);
    }
  }

  lemma {:induction false} OverIsOver(w: World, acts: seq<Action>, id: DebtId)
    requires Inactive(w, id) && !Owed(w, id) && LeavesAlone(acts, id)
    ensures History(Exec(w, acts).log, id) == History(w.log, id)
    decreases |acts|
  {
    if acts == [] {
    } else {
      OverStaysOver(w, acts[0], id);
      OverIsOver(Next(w, acts[0]), acts[1..], id);
    }
  }

  ghost predicate RemindsMore(w: World, acts: seq<Action>, id: DebtId) {
    LeavesAlone(acts, id) && |History(Exec(w, acts).log, id)| > |History(w.log, id)|
  }

  lemma RemindsAfter(w: World, a: Action, acts: seq<Action>, id: DebtId)
    requires !a.SetStatus? && History(Next(w, a).log, id) == History(w.log, id) && RemindsMore(Next(w, a), acts, id)
    ensures RemindsMore(w, [a] + acts, id)
  {
    ExecStep(w, a, acts);
  }

  // Skipping the debts in front of it, the job comes to an owed debt.
  lemma {:induction false} OwedIsReachable(w: World, id: DebtId)
    requires w.job.Sending? && Owed(w, id)
    ensures exists acts :: RemindsMore(w, acts, id)
    decreases |w.job.todo|
  {
    if w.job.todo[0] == id {
      HistoryAppend(w.log, Reminder(id, w.job.snap[id].remindersSent, w.job.now), id);
      ExecStep(w, SendTurn(true), []);
      assert [SendTurn(true)] + [] == [SendTurn(true)];
      assert RemindsMore(w, [SendTurn(true)], id);
    } else {
      var u := Next(w, SkipTurn);
      OwedIsReachable(u, id);
      var acts :| RemindsMore(u, acts, id);
      RemindsAfter(w, SkipTurn, acts, id);
    }
  }

  // MAIN: after a debt has been settled or written off, a reminder can still go out if and
  // only if the running job has it on its list and has not sent to it yet.
  lemma SettledStopsExactly(w: World, id: DebtId, status: DebtStatus)
    requires Inv(w) && id in w.debts && status != Active
    ensures (exists acts :: RemindsMore(Next(w, SetStatus(id, status)), acts, id)) <==> Owed(w, id)
  {
    var v := Next(w, SetStatus(id, status));
    assert v.job == w.job && v.outbox == w.outbox && Owed(v, id) == Owed(w, id);
    if Owed(v, id) {
      if v.job.Sending? {
        OwedIsReachable(v, id);
      } else {
        assert v.job.head in [v.job.head];
        var u := Next(v, CountTurn(false));
        OwedIsReachable(u, id);
        var acts :| RemindsMore(u, acts, id);
        RemindsAfter(v, CountTurn(false), acts, id);
      }
    } else {
      forall acts | LeavesAlone(acts, id) ensures !RemindsMore(v, acts, id) { OverIsOver(v, acts, id); }
    }
  }

  lemma ExecFour(w: World, a: Action, b: Action, c: Action, d: Action)
    ensures Exec(w, [a, b, c, d]) == Next(Next(Next(Next(w, a), b), c), d)
  {
    assert [a, b, c, d] == [a] + ([b] + ([c] + ([d] + [])));
    ExecStep(w, a, [b] + ([c] + ([d] + [])));
    ExecStep(Next(w, a), b, [c] + ([d] + []));
    ExecStep(Next(Next(w, a), b), c, [d] + []);
    ExecStep(Next(Next(Next(w, a), b), c), d, []);
  }

  // A debt that falls due, is taken up by the job, and is then settled.
  lemma SettledYetReminded()
    ensures exists acts, more ::
              var w := Exec(Start(0), acts);
              "d" in w.debts && w.debts["d"].status == Settled && RemindsMore(w, more, "d")
  {
    var w1 := Next(Start(0), Create("d", 1, 1));
    var w2 := Next(w1, Tick(SECONDS_PER_DAY));
    assert DueSet(w2.debts, w2.clock) == {"d"} && Elems(["d"]) == {"d"};
    var w3 := Next(w2, Begin(["d"]));
    assert Owed(w3, "d");
    ExecFour(Start(0), Create("d", 1, 1), Tick(SECONDS_PER_DAY), Begin(["d"]), SetStatus("d", Settled));
    var w := Next(w3, SetStatus("d", Settled));
    OwedIsReachable(w, "d");
    var more :| RemindsMore(w, more, "d");
    var acts := [Create("d", 1, 1), Tick(SECONDS_PER_DAY), Begin(["d"]), SetStatus("d", Settled)];
    assert Exec(Start(0), acts) == w;
  }

  // ---------------------------------------------------------------- repairs

  // A death between the two transactions costs nothing but time: the next job that
  // reaches the debt finds the row, sends nothing and moves the counter.
  lemma CrashIsRepaired(clock: int, acts: seq<Action>, id: DebtId, ok: bool)
    requires var w := Exec(Start(clock), acts);
             && w.job.Sending? && w.job.todo != [] && w.job.todo[0] == id
             && id in w.debts && |History(w.log, id)| == w.debts[id].remindersSent + 1
    ensures var w := Exec(Start(clock), acts);
            var t := Next(Next(w, SendTurn(ok)), CountTurn(true));
            && t.log == w.log && t.outbox == w.outbox
            && t.debts[id].remindersSent == |History(w.log, id)|
            && t.debts[id].lastRemindedAt == Some(w.job.now)
  {
    assert Inv(Start(clock));
    ExecKeepsInv(Start(clock), acts);
    var w := Exec(Start(clock), acts);
    assert id in w.job.todo;
    assert (id, w.debts[id].remindersSent) in w.outbox.rows;
  }

  // What happens to the debt at the head of the job's list.
  datatype Turn = NoPhone | DispatchFails | CounterFails | Completes | DiesBefore | DiesBetween

  function TurnScript(t: Turn): seq<Action> {
    match t
    case NoPhone => [SkipTurn]
    case DispatchFails => [SendTurn(false), CountTurn(true)]
    case CounterFails => [SendTurn(true), CountTurn(false)]
    case Completes => [SendTurn(true), CountTurn(true)]
    case DiesBefore => [Die]
    case DiesBetween => [SendTurn(true), Die]
  }

  // The rest of a job: one turn for each debt still on its list.
  function JobScript(due: seq<DebtId>, turn: DebtId -> Turn): seq<Action> {
    if due == [] then [Finish] else TurnScript(turn(due[0])) + JobScript(due[1..], turn)
  }

  // The active rows, in the order the database lists them, whose interval has passed.
  function DueOf(active: seq<DebtId>, debts: map<DebtId, Debt>, now: int): (due: seq<DebtId>)
    requires forall id :: id in active ==> id in debts
    ensures forall id :: id in due <==> id in active && Due(debts[id], now)
    ensures Distinct(active) ==> Distinct(due)
  {
    if active == [] then []
    else
      var front := DueOf(active[..|active| - 1], debts, now);
      var id := active[|active| - 1];
      assert active == active[..|active| - 1] + [id];
      if Due(debts[id], now) then front + [id] else front
  }

  lemma {:induction false} ExecAppend(w: World, a: seq<Action>, b: seq<Action>)
    ensures Exec(w, a + b) == Exec(Exec(w, a), b)
    decreases |a|
  {
    if a == [] {
      assert a + b == b;
    } else {
      assert (a + b)[0] == a[0] && (a + b)[1..] == a[1..] + b;
      ExecAppend(Next(w, a[0]), a[1..], b);
    }
  }

  lemma ExecStep(w: World, a: Action, rest: seq<Action>)
    ensures Exec(w, [a] + rest) == Exec(Next(w, a), rest)
  {
    assert ([a] + rest)[0] == a && ([a] + rest)[1..] == rest;
  }

  // One turn of the job, worked out.
  lemma TurnEffect(w: World, t: Turn)
    requires w.job.Sending? && w.job.todo != [] && w.job.todo[0] in w.job.snap
    ensures Exec(w, TurnScript(t)) ==
      match t
      case NoPhone => Next(w, SkipTurn)
      case DispatchFails => Next(Next(w, SendTurn(false)), CountTurn(true))
      case CounterFails => Next(Next(w, SendTurn(true)), CountTurn(false))
      case Completes => Next(Next(w, SendTurn(true)), CountTurn(true))
      case DiesBefore => Next(w, Die)
      case DiesBetween => Next(Next(w, SendTurn(true)), Die)
  {
    match t
    case NoPhone => ExecStep(w, SkipTurn, []); assert TurnScript(t) == [SkipTurn] + [];
    case DiesBefore => ExecStep(w, Die, []); assert TurnScript(t) == [Die] + [];
    case _ =>
      var a, b := TurnScript(t)[0], TurnScript(t)[1];
      assert TurnScript(t) == [a] + ([b] + []);
      ExecStep(w, a, [b] + []);
      ExecStep(Next(w, a), b, []);
  }

  // Once the process is dead the rest of the script does nothing.
  lemma DeadTurn(w: World, t: Turn)
    requires w.job.Idle?
    ensures Exec(w, TurnScript(t)) == w
  {
    if |TurnScript(t)| == 1 {
      ExecStep(w, TurnScript(t)[0], []);
      assert TurnScript(t) == [TurnScript(t)[0]] + [];
    } else {
      var a, b := TurnScript(t)[0], TurnScript(t)[1];
      assert TurnScript(t) == [a] + ([b] + []);
      ExecStep(w, a, [b] + []);
      ExecStep(w, b, []);
    }
  }

  lemma {:induction false} DeadJob(w: World, due: seq<DebtId>, turn: DebtId -> Turn)
    requires w.job.Idle?
    ensures Exec(w, JobScript(due, turn)) == w
  {
    if due == [] {
      ExecStep(w, Finish, []);
      assert JobScript(due, turn) == [Finish] + [];
    } else {
      ExecAppend(w, TurnScript(turn(due[0])), JobScript(due[1..], turn));
      DeadTurn(w, turn(due[0]));
      DeadJob(w, due[1..], turn);
    }
  }

  lemma JobEnds(w: World, now: int, snap: map<DebtId, Debt>, turn: DebtId -> Turn)
    requires w.job.Idle?
    ensures Exec(w.(job := Sending(now, snap, [])), JobScript([], turn)) == w
  {
    ExecStep(w.(job := Sending(now, snap, [])), Finish, []);
    assert JobScript([], turn) == [Finish] + [];
  }

  /** The scheduler object: the job as the program runs it, one database row at a time. */
  class Scheduler {
    var clock: int
    var debts: map<DebtId, Debt>
    var outbox: Outbox<(DebtId, nat)>
    ghost var log: seq<Reminder>

    ghost function State(): World
      reads this
    {
      World(clock, debts, outbox, log, Idle)
    }

    constructor (now: int)
      ensures State() == Start(now)
    {
      clock, debts, outbox, log := now, map[], Outbox({}, []), [];
    }

    // One debt's turn: first the send, then the counter.  False when the process died.
    method TakeTurn(now: int, snap: map<DebtId, Debt>, id: DebtId, t: Turn, ghost todo: seq<DebtId>)
      returns (alive: bool)
      requires clock == now && todo != [] && todo[0] == id && id in snap
      requires forall i :: i in snap ==> i in debts
      modifies this
      ensures clock == now && debts.Keys == old(debts.Keys)
      ensures var w := old(State()).(job := Sending(now, snap, todo));
              Exec(w, TurnScript(t)) ==
                if alive then State().(job := Sending(now, snap, todo[1..])) else State()
    {
      ghost var w := State().(job := Sending(now, snap, todo));
      TurnEffect(w, t);
      if t.NoPhone? { return true; }
      if t.DiesBefore? { return false; }
      var e := (id, snap[id].remindersSent);
      if e !in outbox.rows {
        if t.DispatchFails? { return true; }
        outbox := Outbox(outbox.rows + {e}, outbox.delivered + [e]);
        log := log + [Reminder(id, e.1, now)];
      }
      if t.DiesBetween? { return false; }
      if t.CounterFails? { return true; }
      debts := debts[id := debts[id].(remindersSent := snap[id].remindersSent + 1,
                                      lastRemindedAt := Some(now))];
      return true;
    }

    // The rows whose interval has passed.
    method CollectDue(active: seq<DebtId>, snap: map<DebtId, Debt>, now: int) returns (due: seq<DebtId>)
      requires forall id :: id in active ==>
                 id in snap && snap[id].status == Active && snap[id].remindersSent < snap[id].maxReminders
      ensures due == DueOf(active, snap, now)
    {
      due := [];
      for i := 0 to |active|
        invariant due == DueOf(active[..i], snap, now)
      {
        assert active[..i + 1][..i] == active[..i];
        var d := snap[active[i]];
        if now - LastSeen(d) >= d.intervalDays * SECONDS_PER_DAY {
          due := due + [active[i]];
        }
      }
      assert active[..|active|] == active;
    }

    method TakeTurns(now: int, snap: map<DebtId, Debt>, due: seq<DebtId>, turn: DebtId -> Turn)
      requires clock == now && forall id :: id in due ==> id in snap
      requires forall id :: id in snap ==> id in debts
      modifies this
      ensures State() == Exec(old(State()).(job := Sending(now, snap, due)), JobScript(due, turn))
    {
      ghost var whole := Exec(State().(job := Sending(now, snap, due)), JobScript(due, turn));
      assert due[0..] == due;
      for i := 0 to |due|
        invariant clock == now && forall id :: id in snap ==> id in debts
        invariant whole == Exec(State().(job := Sending(now, snap, due[i..])), JobScript(due[i..], turn))
      {
        ghost var w := State().(job := Sending(now, snap, due[i..]));
        assert due[i..][0] == due[i] && due[i..][1..] == due[i + 1..];
        ExecAppend(w, TurnScript(turn(due[i])), JobScript(due[i + 1..], turn));
        var alive := TakeTurn(now, snap, due[i], turn(due[i]), due[i..]);
        if !alive {
          DeadJob(State(), due[i + 1..], turn);
          return;
        }
      }
      JobEnds(State(), now, snap, turn);
      assert due[|due|..] == [];
    }

    // turn(id) says what befalls the debt when its turn comes.
    method SendDebtReminders(active: seq<DebtId>, turn: DebtId -> Turn)
      requires Distinct(active)
      requires forall id :: id in active <==>
                 id in debts && debts[id].status == Active && debts[id].remindersSent < debts[id].maxReminders
      modifies this
      ensures var due := DueOf(active, old(debts), old(clock));
              State() == Exec(old(State()), [Begin(due)] + JobScript(due, turn))
    {
      var due := CollectDue(active, debts, clock);
      assert Elems(due) == DueSet(debts, clock);
      ExecStep(State(), Begin(due), JobScript(due, turn));
      TakeTurns(clock, debts, due, turn);
    }
  }
}
