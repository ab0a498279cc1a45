/**
 * Paced broadcasts of one trader, one broadcast at a time.
 *
 * For each recipient the sender reads the customer list entry, decides, sends in
 * one transaction and records in another.  Meanwhile customers opt out, join the
 * list, and the sender may die; time passes between all steps.
 */
module Broadcasts {
  import opened Basics
  import opened Delivery

  const DAY := 86400
  const CAP_DAYS := 7

  datatype Status = Pending | Sent | Skipped | OptedOut

  datatype Recipient = Recipient(phone: string, status: Status)

  // optedOutStep: the step of the run at which the customer opted out
  datatype Entry = Entry(lastBroadcastAt: Option<int>, optedOut: bool, optedOutStep: nat)

  // One recorded send: to whom, when, whether the customer was on the list, and the steps
  // of the run at which the entry was read and the send was recorded.
  datatype Record = Record(phone: string, at: int, listed: bool, readStep: nat, step: nat)

  // One message WhatsApp took.
  datatype Taken = Taken(phone: string, at: int)

  datatype Phase = Choosing | Sending | Recording(at: int)

  datatype Job =
    | Idle
    | Running(id: string, now: int, loaded: seq<nat>, next: nat, sent: nat, phase: Phase, readStep: nat)

  datatype World = World(
    clock: int,
    step: nat,
    entries: map<string, Entry>,
    broadcasts: map<string, seq<Recipient>>,
    sentCount: map<string, nat>,   // what each finished broadcast reports
    outbox: Outbox<(string, string)>,
    log: seq<Record>,
    deliveries: seq<Taken>,
    raced: set<string>,      // customers who opted out while a message to them was under way
    job: Job
  )

  datatype Action =
    | Tick(seconds: nat)
    | Upsert(phone: string)
    | OptOut(phone: string)
    | Create(id: string, phones: seq<string>)
    | Begin(id: string)
    | Choose
    | Dispatch(accepted: bool)
    | Save(committed: bool)
    | Finish
    | Die

  function PendingOf(rs: seq<Recipient>): seq<nat> {
    if rs == [] then []
    else
      var front := PendingOf(rs[..|rs| - 1]);
      if rs[|rs| - 1].status.Pending? then front + [|rs| - 1] else front
  }

  // timedelta.days: whole days, rounded down, also for negative differences
  function DaysSince(now: int, last: int): int { (now - last) / DAY }

  predicate JobOn(w: World) {
    w.job.Running? && w.job.id in w.broadcasts && w.job.next < |w.job.loaded|
    && w.job.loaded[w.job.next] < |w.broadcasts[w.job.id]|
  }

  function Current(w: World): Recipient
    requires JobOn(w)
  {
    w.broadcasts[w.job.id][w.job.loaded[w.job.next]]
  }

  function Mark(w: World, st: Status): World
    requires JobOn(w)
  {
    var rs := w.broadcasts[w.job.id];
    w.(broadcasts := w.broadcasts[w.job.id := rs[w.job.loaded[w.job.next] := Current(w).(status := st)]])
  }

  function NextRecipient(w: World): World
    requires w.job.Running?
  {
    w.(job := Running(w.job.id, w.job.now, w.job.loaded, w.job.next + 1, w.job.sent, Choosing, w.job.readStep))
  }

  function ChooseStep(w: World): World
    requires JobOn(w)
  {
    var p := Current(w).phone;
    if p in w.entries && w.entries[p].lastBroadcastAt.Some?
       && DaysSince(w.job.now, w.entries[p].lastBroadcastAt.value) < CAP_DAYS then
      NextRecipient(Mark(w, Skipped))
    else if p in w.entries && w.entries[p].optedOut then
      NextRecipient(Mark(w, OptedOut))
    else
      w.(job := Running(w.job.id, w.job.now, w.job.loaded, w.job.next, w.job.sent, Sending, w.step))
  }

  function DispatchStep(w: World, ok: bool): World
    requires JobOn(w)
  {
    var e := (w.job.id, Current(w).phone);
    if Raises(w.outbox, e, ok) then NextRecipient(w)
    else w.(outbox := Send(w.outbox, e, ok),
            deliveries := if e in w.outbox.rows then w.deliveries else w.deliveries + [Taken(e.1, w.clock)],
            job := Running(w.job.id, w.job.now, w.job.loaded, w.job.next, w.job.sent, Recording(w.clock),
                           w.job.readStep))
  }

  function SaveStep(w: World, ok: bool): World
    requires JobOn(w) && w.job.phase.Recording?
  {
    if !ok then NextRecipient(w)
    else
      var p, at := Current(w).phone, w.job.phase.at;
      var listed := p in w.entries;
      var w1 := Mark(w, Sent).(
        entries := if listed then w.entries[p := w.entries[p].(lastBroadcastAt := Some(at))] else w.entries,
        log := w.log + [Record(p, at, listed, w.job.readStep, w.step)]);
      w1.(job := Running(w.job.id, w.job.now, w.job.loaded, w.job.next + 1, w.job.sent + 1, Choosing, w.job.readStep))
  }

  // A message to this customer is between its check and its record.
  predicate UnderWay(w: World, phone: string) {
    JobOn(w) && !w.job.phase.Choosing? && Current(w).phone == phone
  }

  function AllPending(phones: seq<string>): seq<Recipient> {
    seq(|phones|, i requires 0 <= i < |phones| => Recipient(phones[i], Pending))
  }

  function Apply(w: World, a: Action): World {
    match a
    case Tick(n) => w.(clock := w.clock + n)
    case Upsert(p) =>
      if p in w.entries then w else w.(entries := w.entries[p := Entry(None, false, 0)])
    case OptOut(p) =>
      if p !in w.entries || w.entries[p].optedOut then w
      else w.(entries := w.entries[p := w.entries[p].(optedOut := true, optedOutStep := w.step)],
              raced := if UnderWay(w, p) then w.raced + {p} else w.raced)
    case Create(id, phones) =>
      if id in w.broadcasts then w
      else w.(broadcasts := w.broadcasts[id := AllPending(phones)])
    case Begin(id) =>
      if w.job.Idle? && id in w.broadcasts
      then w.(job := Running(id, w.clock, PendingOf(w.broadcasts[id]), 0, 0, Choosing, w.step)) else w
    case Choose => if JobOn(w) && w.job.phase.Choosing? then ChooseStep(w) else w
    case Dispatch(ok) => if JobOn(w) && w.job.phase.Sending? then DispatchStep(w, ok) else w
    case Save(ok) => if JobOn(w) && w.job.phase.Recording? then SaveStep(w, ok) else w
    case Finish => if w.job.Running? && w.job.next >= |w.job.loaded|
      then w.(job := Idle, sentCount := w.sentCount[w.job.id := w.job.sent]) else w
    case Die => w.(job := Idle)
  }

  function Next(w: World, a: Action): World { Apply(w, a).(step := w.step + 1) }

  function Exec(w: World, acts: seq<Action>): World
    decreases |acts|
  {
    if acts == [] then w else Exec(Next(w, acts[0]), acts[1..])
  }

  function Start(clock: int): World { World(clock, 0, map[], map[], map[], Outbox({}, []), [], [], {}, Idle) }

  // ---------------------------------------------------------------- the cap and the opt-outs

  // What the customer list says about the recorded sends to listed customers.
  ghost predicate RecordOk(entries: map<string, Entry>, raced: set<string>, r: Record) {
    r.listed ==>
      && r.phone in entries && entries[r.phone].lastBroadcastAt.Some?
      && r.at <= entries[r.phone].lastBroadcastAt.value
      && (entries[r.phone].optedOut ==>
            r.readStep < entries[r.phone].optedOutStep
            && (r.step < entries[r.phone].optedOutStep || r.phone in raced))
  }

  ghost predicate Apart(log: seq<Record>) {
    forall i, j :: 0 <= i < j < |log| && log[i].listed && log[j].listed && log[i].phone == log[j].phone ==>
      log[j].at - log[i].at >= 604800
  }

  // What the sender knows about the customer it is sending to.
  ghost predicate SendingOk(w: World)
    requires JobOn(w)
  {
    var p := Current(w).phone;
    w.job.phase.Choosing? ||
    (&& w.job.readStep < w.step
     && (w.job.phase.Recording? ==> w.job.now <= w.job.phase.at <= w.clock)
     && (p in w.entries ==>
           && (w.entries[p].lastBroadcastAt.Some? ==> w.job.now - w.entries[p].lastBroadcastAt.value >= CAP_DAYS * DAY)
           && (w.entries[p].optedOut ==> w.job.readStep < w.entries[p].optedOutStep && p in w.raced)))
  }

  ghost predicate ListOk(entries: map<string, Entry>, raced: set<string>, log: seq<Record>, step: nat) {
    && (forall p :: p in entries && entries[p].optedOut ==> entries[p].optedOutStep < step)
    && (forall p :: p in raced ==> p in entries && entries[p].optedOut)
    && (forall i :: 0 <= i < |log| ==> log[i].readStep < log[i].step < step && RecordOk(entries, raced, log[i]))
    && Apart(log)
  }

  ghost predicate SenderOk(w: World) {
    && (w.job.Running? ==> w.job.now <= w.clock && w.job.id in w.broadcasts)
    && (JobOn(w) ==> SendingOk(w))
  }

  ghost predicate CapInv(w: World) { ListOk(w.entries, w.raced, w.log, w.step) && SenderOk(w) }

  // Recording one more send.
  lemma SaveKeepsApart(entries: map<string, Entry>, raced: set<string>, log: seq<Record>, r: Record, now: int)
    requires Apart(log) && forall i :: 0 <= i < |log| ==> RecordOk(entries, raced, log[i])
    requires r.listed ==> r.phone in entries && r.at >= now
    requires r.listed && entries[r.phone].lastBroadcastAt.Some? ==>
               now - entries[r.phone].lastBroadcastAt.value >= CAP_DAYS * DAY
    ensures Apart(log + [r])
  {
    var all := log + [r];
    forall i, j | 0 <= i < j < |all| && all[i].listed && all[j].listed && all[i].phone == all[j].phone
      ensures all[j].at - all[i].at >= CAP_DAYS * DAY
    {
      if j == |log| { assert RecordOk(entries, raced, log[i]); }
    }
  }

  lemma SaveKeepsRecords(w: World, ok: bool)
    requires CapInv(w) && JobOn(w) && w.job.phase.Recording?
    ensures var u := SaveStep(w, ok);
            && Apart(u.log)
            && forall i :: 0 <= i < |u.log| ==>
                 u.log[i].readStep < u.log[i].step <= w.step && RecordOk(u.entries, u.raced, u.log[i])
  {
    if ok {
      var u := SaveStep(w, ok);
      var p, at := Current(w).phone, w.job.phase.at;
      var r := Record(p, at, p in w.entries, w.job.readStep, w.step);
      assert u.log == w.log + [r];
      SaveKeepsApart(w.entries, w.raced, w.log, r, w.job.now);
      forall i | 0 <= i < |u.log|
        ensures u.log[i].readStep < u.log[i].step <= w.step && RecordOk(u.entries, u.raced, u.log[i])
      {
        if i < |w.log| { assert RecordOk(w.entries, w.raced, w.log[i]); }
      }
    }
  }

  lemma SaveKeepsCap(w: World, ok: bool)
    requires CapInv(w) && JobOn(w) && w.job.phase.Recording?
    ensures CapInv(Next(w, Save(ok)))
  {
    SaveKeepsRecords(w, ok);
  }

  lemma OptOutKeepsList(entries: map<string, Entry>, raced: set<string>, log: seq<Record>, step: nat,
                        p: string, underWay: bool)
    requires ListOk(entries, raced, log, step) && p in entries && !entries[p].optedOut
    ensures ListOk(entries[p := entries[p].(optedOut := true, optedOutStep := step)],
                   if underWay then raced + {p} else raced, log, step + 1)
  {
    var entries', raced' := entries[p := entries[p].(optedOut := true, optedOutStep := step)],
                            if underWay then raced + {p} else raced;
    forall i | 0 <= i < |log| ensures RecordOk(entries', raced', log[i]) {
      assert RecordOk(entries, raced, log[i]) && log[i].step < step;
    }
  }

  lemma UpsertKeepsList(entries: map<string, Entry>, raced: set<string>, log: seq<Record>, step: nat, p: string)
    requires ListOk(entries, raced, log, step) && p !in entries
    ensures ListOk(entries[p := Entry(None, false, 0)], raced, log, step + 1)
  {
    forall i | 0 <= i < |log| ensures RecordOk(entries[p := Entry(None, false, 0)], raced, log[i]) {
      assert RecordOk(entries, raced, log[i]);
    }
  }

  lemma ListLater(entries: map<string, Entry>, raced: set<string>, log: seq<Record>, step: nat)
    requires ListOk(entries, raced, log, step)
    ensures ListOk(entries, raced, log, step + 1)
  {
  }

  lemma ChooseKeepsSender(w: World)
    requires SenderOk(w)
    ensures SenderOk(Next(w, Choose))
  {
  }

  lemma DispatchKeepsSender(w: World, ok: bool)
    requires SenderOk(w)
    ensures SenderOk(Next(w, Dispatch(ok)))
  {
  }

  lemma OthersKeepSender(w: World, a: Action)
    requires SenderOk(w) && !a.Choose? && !a.Dispatch? && !a.Save?
    ensures SenderOk(Next(w, a))
  {
  }

  lemma ListUntouched(w: World, a: Action)
    requires !a.Save? && (a.OptOut? ==> a.phone !in w.entries || w.entries[a.phone].optedOut)
    requires a.Upsert? ==> a.phone in w.entries
    ensures var u := Next(w, a);
            u.entries == w.entries && u.raced == w.raced && u.log == w.log
  {
  }

  lemma NextKeepsList(w: World, a: Action)
    requires ListOk(w.entries, w.raced, w.log, w.step) && !a.Save?
    ensures var u := Next(w, a);
            ListOk(u.entries, u.raced, u.log, u.step)
  {
    ListLater(w.entries, w.raced, w.log, w.step);
    if a.OptOut? && a.phone in w.entries && !w.entries[a.phone].optedOut {
      OptOutKeepsList(w.entries, w.raced, w.log, w.step, a.phone, UnderWay(w, a.phone));
    } else if a.Upsert? && a.phone !in w.entries {
      UpsertKeepsList(w.entries, w.raced, w.log, w.step, a.phone);
    } else {
      ListUntouched(w, a);
    }
  }

  lemma NextKeepsCap(w: World, a: Action)
    requires CapInv(w)
    ensures CapInv(Next(w, a))
  {
    if a.Save? {
      if JobOn(w) && w.job.phase.Recording? { SaveKeepsCap(w, a.committed); }
      else { ListLater(w.entries, w.raced, w.log, w.step); }
    } else {
      NextKeepsList(w, a);
      match a
      case Choose => ChooseKeepsSender(w);
      case Dispatch(ok) => DispatchKeepsSender(w, ok);
      case _ => OthersKeepSender(w, a);
    }
  }

  lemma {:induction false} ExecKeepsCap(w: World, acts: seq<Action>)
    requires CapInv(w)
    ensures CapInv(Exec(w, acts))
    decreases |acts|
  {
    if acts == [] {
    } else {
      NextKeepsCap(w, acts[0]);
      ExecKeepsCap(Next(w, acts[0]), acts[1..]);
    }
  }

  // Over every run: recorded sends to one listed customer are seven days apart, and a send
  // recorded after an opt-out was already past its check when the customer opted out.
  lemma CapHolds(clock: int, acts: seq<Action>)
    ensures var w := Exec(Start(clock), acts);
            && Apart(w.log)
            && forall i :: 0 <= i < |w.log| && w.log[i].listed ==>
                 && w.log[i].phone in w.entries
                 && (w.entries[w.log[i].phone].optedOut ==>
                       && w.log[i].readStep < w.entries[w.log[i].phone].optedOutStep
                       && (w.log[i].step > w.entries[w.log[i].phone].optedOutStep ==> w.log[i].phone in w.raced))
  {
    ExecKeepsCap(Start(clock), acts);
    var w := Exec(Start(clock), acts);
    assert forall i :: 0 <= i < |w.log| ==> RecordOk(w.entries, w.raced, w.log[i]);
  }

  // Once out, out since the same step, and never counted as raced later.
  lemma OptOutStaysOnce(w: World, p: string, a: Action)
    requires p in w.entries && w.entries[p].optedOut
    ensures var u := Next(w, a);
            && p in u.entries && u.entries[p].optedOut && u.entries[p].optedOutStep == w.entries[p].optedOutStep
            && (p in u.raced <==> p in w.raced)
  {
  }

  lemma {:induction false} OptOutStays(w: World, p: string, acts: seq<Action>)
    requires p in w.entries && w.entries[p].optedOut
    ensures var u := Exec(w, acts);
            && p in u.entries && u.entries[p].optedOut && u.entries[p].optedOutStep == w.entries[p].optedOutStep
            && (p in u.raced <==> p in w.raced)
    decreases |acts|
  {
    if acts == [] {
    } else {
      OptOutStaysOnce(w, p, acts[0]);
      OptOutStays(Next(w, acts[0]), p, acts[1..]);
    }
  }

  ghost predicate RecordedSince(w: World, p: string, step: nat) {
    exists i :: 0 <= i < |w.log| && w.log[i].phone == p && w.log[i].listed && w.log[i].step > step
  }

  // Some continuation records a send to a customer who has just opted out exactly when the
  // message was between its check and its record at that moment.
  lemma OptOutStopsExactly(w: World, p: string)
    requires CapInv(w) && p in w.entries && !w.entries[p].optedOut
    ensures (exists acts :: RecordedSince(Exec(Next(w, OptOut(p)), acts), p, w.step)) <==> UnderWay(w, p)
  {
    var v := Next(w, OptOut(p));
    NextKeepsCap(w, OptOut(p));
    if UnderWay(w, p) {
      UnderWayFinishes(v, p, w.step);
    } else {
      forall acts ensures !RecordedSince(Exec(v, acts), p, w.step) {
        OptOutStays(v, p, acts);
        ExecKeepsCap(v, acts);
        var u := Exec(v, acts);
        forall i | 0 <= i < |u.log| && u.log[i].phone == p && u.log[i].listed ensures u.log[i].step <= w.step {
          assert RecordOk(u.entries, u.raced, u.log[i]);
        }
      }
    }
  }

  lemma ExecOne(w: World, a: Action)
    ensures Exec(w, [a]) == Next(w, a)
  {
    assert [a][1..] == [];
  }

  lemma ExecTwo(w: World, a: Action, b: Action)
    ensures Exec(w, [a, b]) == Next(Next(w, a), b)
  {
    assert [a, b][1..] == [b];
    ExecOne(Next(w, a), b);
  }

  lemma UnderWayFinishes(v: World, p: string, step: nat)
    requires UnderWay(v, p) && p in v.entries && v.step > step
    ensures exists acts :: RecordedSince(Exec(v, acts), p, step)
  {
    if v.job.phase.Sending? {
      RecordingFinishes(Next(v, Dispatch(true)), p, step);
      ExecTwo(v, Dispatch(true), Save(true));
      assert RecordedSince(Exec(v, [Dispatch(true), Save(true)]), p, step);
    } else {
      RecordingFinishes(v, p, step);
      ExecOne(v, Save(true));
      assert RecordedSince(Exec(v, [Save(true)]), p, step);
    }
  }

  lemma RecordingFinishes(v: World, p: string, step: nat)
    requires UnderWay(v, p) && v.job.phase.Recording? && p in v.entries && v.step > step
    ensures RecordedSince(Next(v, Save(true)), p, step)
  {
    var u := Next(v, Save(true));
    assert u.log[|v.log|].phone == p && u.log[|v.log|].listed && u.log[|v.log|].step == v.step;
  }

  // A message to the customer is past its check and has not gone out.
  predicate AboutToGo(w: World, p: string) {
    UnderWay(w, p) && w.job.phase.Sending? && (w.job.id, p) !in w.outbox.rows
  }

  ghost predicate DeliveredSince(w: World, p: string, n: nat) {
    exists k :: n <= k < |w.deliveries| && w.deliveries[k].phone == p
  }

  lemma SilentStaysSilent(w: World, p: string, a: Action)
    requires SenderOk(w) && p in w.entries && w.entries[p].optedOut && !AboutToGo(w, p)
    ensures var u := Next(w, a);
            && p in u.entries && u.entries[p].optedOut && !AboutToGo(u, p)
            && w.deliveries <= u.deliveries
            && (|u.deliveries| > |w.deliveries| ==>
                  |u.deliveries| == |w.deliveries| + 1 && u.deliveries[|w.deliveries|].phone != p)
  {
    OptOutStaysOnce(w, p, a);
  }

  lemma {:induction false} SilentForGood(w: World, p: string, acts: seq<Action>, n: nat)
    requires CapInv(w) && p in w.entries && w.entries[p].optedOut && !AboutToGo(w, p) && !DeliveredSince(w, p, n)
    ensures !DeliveredSince(Exec(w, acts), p, n)
    decreases |acts|
  {
    if acts == [] {
    } else {
      SilentStaysSilent(w, p, acts[0]);
      NextKeepsCap(w, acts[0]);
      SilentForGood(Next(w, acts[0]), p, acts[1..], n);
    }
  }

  // Some continuation delivers another message to a customer who has just opted out exactly
  // when one was past its check and had not gone out.
  lemma OptOutSilencesExactly(w: World, p: string)
    requires CapInv(w) && p in w.entries && !w.entries[p].optedOut
    ensures (exists acts :: DeliveredSince(Exec(Next(w, OptOut(p)), acts), p, |w.deliveries|)) <==> AboutToGo(w, p)
  {
    var v, n := Next(w, OptOut(p)), |w.deliveries|;
    NextKeepsCap(w, OptOut(p));
    assert v.deliveries == w.deliveries && AboutToGo(v, p) == AboutToGo(w, p);
    if AboutToGo(v, p) {
      var u := Next(v, Dispatch(true));
      assert u.deliveries[n].phone == p;
      ExecOne(v, Dispatch(true));
      assert DeliveredSince(Exec(v, [Dispatch(true)]), p, n);
    } else {
      forall acts ensures !DeliveredSince(Exec(v, acts), p, n) { SilentForGood(v, p, acts, n); }
    }
  }

  // A step away from the start of a broadcast to one customer.
  function ToOne(id: string, phone: string): seq<Action> { [Create(id, [phone]), Begin(id), Choose] }

  predicate Eligible(w: World, phone: string) {
    phone in w.entries ==>
      && !w.entries[phone].optedOut
      && (w.entries[phone].lastBroadcastAt.Some? ==>
            DaysSince(w.clock, w.entries[phone].lastBroadcastAt.value) >= CAP_DAYS)
  }

  lemma ExecThree(w: World, a: Action, b: Action, c: Action)
    ensures Exec(w, [a, b, c]) == Next(Next(Next(w, a), b), c)
  {
    assert [a, b, c][1..] == [b, c];
    ExecTwo(Next(w, a), b, c);
  }

  // With nothing running, a new broadcast comes to send to any eligible customer at once.
  lemma ReachesSending(w: World, id: string, phone: string)
    requires w.job.Idle? && id !in w.broadcasts && Eligible(w, phone)
    ensures var u := Exec(w, ToOne(id, phone));
            && UnderWay(u, phone) && u.job.phase.Sending? && u.job.id == id
            && u.entries == w.entries && u.clock == w.clock && u.outbox == w.outbox && u.deliveries == w.deliveries
            && u.raced == w.raced && u.broadcasts.Keys == w.broadcasts.Keys + {id}
  {
    var w1 := Next(w, Create(id, [phone]));
    var rs := [Recipient(phone, Pending)];
    assert w1.broadcasts[id] == rs;
    assert rs[..0] == [] && PendingOf(rs) == [0];
    ExecThree(w, Create(id, [phone]), Begin(id), Choose);
  }

  ghost predicate SentDespiteOptOut(w: World, p: string) {
    p in w.entries && w.entries[p].optedOut && RecordedSince(w, p, w.entries[p].optedOutStep)
  }

  // A listed customer opts out between the check and the send, and the send is recorded.
  lemma OptOutRace()
    ensures exists acts :: SentDespiteOptOut(Exec(Start(0), acts), "p")
  {
    var w0 := Next(Start(0), Upsert("p"));
    ReachesSending(w0, "x", "p");
    var w := Exec(w0, ToOne("x", "p"));
    var v := Next(w, OptOut("p"));
    UnderWayFinishes(v, "p", w.step);
    var more :| RecordedSince(Exec(v, more), "p", w.step);
    OptOutStays(v, "p", more);
    var acts := [Upsert("p")] + (ToOne("x", "p") + ([OptOut("p")] + more));
    ExecFirst(Start(0), Upsert("p"), ToOne("x", "p") + ([OptOut("p")] + more));
    ExecAppend(w0, ToOne("x", "p"), [OptOut("p")] + more);
    ExecFirst(w, OptOut("p"), more);
    assert SentDespiteOptOut(Exec(Start(0), acts), "p");
  }

  lemma ExecFirst(w: World, a: Action, rest: seq<Action>)
    ensures Exec(w, [a] + rest) == Exec(Next(w, a), rest)
  {
    assert ([a] + rest)[1..] == rest;
  }

  // ---------------------------------------------------------------- the cap on deliveries

  predicate Entered(entries: map<string, Entry>, x: Taken) {
    && x.phone in entries && entries[x.phone].lastBroadcastAt.Some?
    && x.at <= entries[x.phone].lastBroadcastAt.value
  }

  // The sender is about to enter deliveries to this customer.
  predicate BeingEntered(w: World, phone: string) {
    JobOn(w) && w.job.phase.Recording? && Current(w).phone == phone
  }

  ghost predicate DeliveriesApart(xs: seq<Taken>) {
    forall i, j :: 0 <= i < j < |xs| && xs[i].phone == xs[j].phone ==> xs[j].at - xs[i].at >= 604800
  }

  // The customer has opted out and no message to them is under way.
  predicate Out(w: World, phone: string) {
    phone in w.entries && w.entries[phone].optedOut && !UnderWay(w, phone)
  }

  // Why a delivery keeps the next one to its customer seven days away: it is on the list or
  // about to be, it is seven days old, or the customer has opted out.
  predicate Guarded(w: World, x: Taken) {
    || Entered(w.entries, x) || BeingEntered(w, x.phone)
    || w.clock - x.at >= CAP_DAYS * DAY || Out(w, x.phone)
  }

  ghost predicate AllGuarded(w: World) {
    forall k :: 0 <= k < |w.deliveries| ==>
      && w.deliveries[k].at <= w.clock && Guarded(w, w.deliveries[k])
      && (BeingEntered(w, w.deliveries[k].phone) ==> w.deliveries[k].at <= w.job.phase.at)
  }

  ghost predicate DeliveryInv(w: World) {
    CapInv(w) && DeliveriesApart(w.deliveries) && AllGuarded(w)
  }

  // The turn ends without a record on the list: it fails, the process dies, or the customer
  // is not on the list.
  predicate Unrecorded(w: World, a: Action) {
    && JobOn(w) && w.job.phase.Recording?
    && (a.Die? || (a.Save? && (!a.committed || Current(w).phone !in w.entries)))
  }

  // A turn that ends so for a customer who has not opted out, with a message to them that is
  // less than seven days old and not on the list.
  ghost predicate Exposes(w: World, a: Action) {
    && Unrecorded(w, a)
    && (Current(w).phone in w.entries ==> !w.entries[Current(w).phone].optedOut)
    && exists k :: 0 <= k < |w.deliveries| && w.deliveries[k].phone == Current(w).phone
                && !Entered(w.entries, w.deliveries[k]) && w.clock - w.deliveries[k].at < 604800
  }

  lemma OthersKeepGuarded(w: World, a: Action)
    requires AllGuarded(w) && SenderOk(w) && !a.Dispatch? && !a.Save? && !a.Die? && !a.Choose?
    ensures AllGuarded(Next(w, a))
  {
    var u := Next(w, a);
    assert u.deliveries == w.deliveries && w.clock <= u.clock;
    forall k | 0 <= k < |u.deliveries|
      ensures Entered(w.entries, u.deliveries[k]) ==> Entered(u.entries, u.deliveries[k])
      ensures BeingEntered(w, u.deliveries[k].phone) <==> BeingEntered(u, u.deliveries[k].phone)
      ensures Out(w, u.deliveries[k].phone) ==> Out(u, u.deliveries[k].phone)
    {
    }
  }

  lemma ChooseKeepsGuarded(w: World)
    requires AllGuarded(w)
    ensures AllGuarded(Next(w, Choose))
  {
    var u := Next(w, Choose);
    assert u.deliveries == w.deliveries && u.entries == w.entries && u.clock == w.clock;
    if JobOn(w) && w.job.phase.Choosing? {
      assert forall p :: !BeingEntered(w, p) && !BeingEntered(u, p);
      assert forall p :: Out(w, p) ==> Out(u, p);
    }
  }

  // A message that may go out now is seven days behind every earlier one.
  lemma SendingIsApart(w: World, k: nat)
    requires DeliveryInv(w) && JobOn(w) && w.job.phase.Sending?
    requires k < |w.deliveries| && w.deliveries[k].phone == Current(w).phone
    ensures w.clock - w.deliveries[k].at >= CAP_DAYS * DAY
  {
    assert Guarded(w, w.deliveries[k]) && UnderWay(w, Current(w).phone);
  }

  lemma DispatchKeepsGuarded(w: World, ok: bool)
    requires DeliveryInv(w)
    ensures AllGuarded(Next(w, Dispatch(ok))) && DeliveriesApart(Next(w, Dispatch(ok)).deliveries)
  {
    if JobOn(w) && w.job.phase.Sending? {
      var u, p := Next(w, Dispatch(ok)), Current(w).phone;
      assert u.entries == w.entries && u.clock == w.clock;
      forall k | 0 <= k < |w.deliveries|
        ensures w.deliveries[k].phone == p ==> w.clock - w.deliveries[k].at >= CAP_DAYS * DAY
        ensures Guarded(u, w.deliveries[k])
      {
        assert Guarded(w, w.deliveries[k]) && !BeingEntered(w, w.deliveries[k].phone);
        if w.deliveries[k].phone == p { SendingIsApart(w, k); }
      }
    }
  }

  // Ending a turn keeps every delivery guarded exactly when it exposes none.
  lemma EndKeepsGuarded(w: World, a: Action)
    requires DeliveryInv(w) && JobOn(w) && w.job.phase.Recording? && (a.Save? || a.Die?)
    ensures AllGuarded(Next(w, a)) <==> !Exposes(w, a)
  {
    var u, p := Next(w, a), Current(w).phone;
    assert u.deliveries == w.deliveries && u.clock == w.clock;
    assert forall q :: !BeingEntered(u, q) && !UnderWay(u, q);
    forall k | 0 <= k < |w.deliveries|
      ensures w.deliveries[k].phone != p ==> Guarded(u, w.deliveries[k])
      ensures w.deliveries[k].phone == p ==>
                (Guarded(u, w.deliveries[k]) <==>
                 || !Unrecorded(w, a) || Entered(w.entries, w.deliveries[k])
                 || w.clock - w.deliveries[k].at >= CAP_DAYS * DAY || (p in w.entries && w.entries[p].optedOut))
    {
      assert Guarded(w, w.deliveries[k]);
      assert BeingEntered(w, w.deliveries[k].phone) <==> w.deliveries[k].phone == p;
    }
  }

  lemma QuietEnd(w: World, a: Action)
    requires AllGuarded(w) && (a.Save? || a.Die?) && !(JobOn(w) && w.job.phase.Recording?)
    ensures AllGuarded(Next(w, a))
  {
    var u := Next(w, a);
    assert u.deliveries == w.deliveries && u.entries == w.entries && u.clock == w.clock;
    assert forall p :: !BeingEntered(w, p) && !BeingEntered(u, p);
    assert forall p :: Out(w, p) ==> Out(u, p);
  }

  lemma DeliveriesUnchanged(w: World, a: Action)
    ensures !a.Dispatch? ==> Next(w, a).deliveries == w.deliveries
  {
  }

  // A step keeps every delivery guarded exactly when it exposes none.
  lemma DeliveriesKeptExactly(w: World, a: Action)
    requires DeliveryInv(w)
    ensures DeliveryInv(Next(w, a)) <==> !Exposes(w, a)
  {
    NextKeepsCap(w, a);
    DeliveriesUnchanged(w, a);
    if a.Dispatch? {
      DispatchKeepsGuarded(w, a.accepted);
    } else if a.Choose? {
      ChooseKeepsGuarded(w);
    } else if (a.Save? || a.Die?) && JobOn(w) && w.job.phase.Recording? {
      EndKeepsGuarded(w, a);
    } else if a.Save? || a.Die? {
      QuietEnd(w, a);
    } else {
      OthersKeepGuarded(w, a);
    }
  }

  ghost predicate NoExposure(w: World, acts: seq<Action>)
    decreases |acts|
  {
    acts == [] || (!Exposes(w, acts[0]) && NoExposure(Next(w, acts[0]), acts[1..]))
  }

  // MAIN: over every run that exposes no delivery, messages delivered to one customer are
  // seven days apart, on the list or not.
  lemma {:induction false} DeliveriesSpaced(w: World, acts: seq<Action>)
    requires DeliveryInv(w) && NoExposure(w, acts)
    ensures DeliveryInv(Exec(w, acts)) && DeliveriesApart(Exec(w, acts).deliveries)
    decreases |acts|
  {
    if acts == [] {
    } else {
      DeliveriesKeptExactly(w, acts[0]);
      DeliveriesSpaced(Next(w, acts[0]), acts[1..]);
    }
  }

  // Deliveries stay seven days apart from here on, whatever follows without a further exposure.
  ghost predicate SafeFromHere(w: World) {
    forall acts :: NoExposure(w, acts) ==> DeliveriesApart(Exec(w, acts).deliveries)
  }

  lemma {:induction false} LongerThanAll(ids: set<string>) returns (n: nat)
    ensures forall id :: id in ids ==> |id| < n
    decreases |ids|
  {
    if ids == {} {
      n := 0;
    } else {
      var x :| x in ids;
      var m := LongerThanAll(ids - {x});
      n := if m > |x| then m else |x| + 1;
    }
  }

  lemma UnusedId(ids: set<string>) returns (id: string)
    ensures id !in ids
  {
    var n := LongerThanAll(ids);
    id := seq(n, _ => 'x');
  }

  lemma {:induction false} OnlyEndsExpose(w: World, acts: seq<Action>)
    requires forall i :: 0 <= i < |acts| ==> !acts[i].Save? && !acts[i].Die?
    ensures NoExposure(w, acts)
    decreases |acts|
  {
    if acts == [] {
    } else {
      OnlyEndsExpose(Next(w, acts[0]), acts[1..]);
    }
  }

  // After an unrecorded turn the same customer can be written to again at once.
  lemma UnrecordedLeaves(w: World, a: Action)
    requires CapInv(w) && Unrecorded(w, a)
    requires Current(w).phone in w.entries ==> !w.entries[Current(w).phone].optedOut
    ensures var u := Next(w, a);
            var v := Next(u, Die);
            && !Exposes(u, Die) && v.job.Idle? && Eligible(v, Current(w).phone)
            && v.clock == w.clock && v.deliveries == w.deliveries
  {
    var u := Next(w, a);
    assert u.entries == w.entries && u.clock == w.clock && u.deliveries == w.deliveries;
    assert SendingOk(w) && w.job.now <= w.clock;
  }

  // From a state with nothing running one more message goes out to an eligible customer.
  lemma OneMore(v: World, p: string) returns (acts: seq<Action>)
    requires v.job.Idle? && Eligible(v, p)
    ensures NoExposure(v, acts) && Exec(v, acts).deliveries == v.deliveries + [Taken(p, v.clock)]
  {
    var id := UnusedId(v.broadcasts.Keys + set e | e in v.outbox.rows :: e.0);
    assert (id, p) !in v.outbox.rows;
    acts := ToOne(id, p) + [Dispatch(true)];
    ReachesSending(v, id, p);
    ExecAppend(v, ToOne(id, p), [Dispatch(true)]);
    ExecOne(Exec(v, ToOne(id, p)), Dispatch(true));
    OnlyEndsExpose(v, acts);
  }

  lemma NotApart(xs: seq<Taken>, k: nat, x: Taken)
    requires k < |xs| && xs[k].phone == x.phone && x.at - xs[k].at < CAP_DAYS * DAY
    ensures !DeliveriesApart(xs + [x])
  {
    var all := xs + [x];
    assert all[k] == xs[k] && all[|xs|] == x;
  }

  lemma ExposedIsUnsafe(w: World, a: Action)
    requires DeliveryInv(w) && Exposes(w, a)
    ensures !SafeFromHere(Next(w, a))
  {
    var u, p := Next(w, a), Current(w).phone;
    UnrecordedLeaves(w, a);
    var v := Next(u, Die);
    var more := OneMore(v, p);
    var k :| 0 <= k < |w.deliveries| && w.deliveries[k].phone == p && w.clock - w.deliveries[k].at < CAP_DAYS * DAY;
    NotApart(w.deliveries, k, Taken(p, w.clock));
    var acts := [Die] + more;
    assert acts[1..] == more;
    assert NoExposure(u, acts) && !DeliveriesApart(Exec(u, acts).deliveries);
  }

  // MAIN: after a step, deliveries to one customer stay seven days apart in every continuation
  // that exposes nothing further, if and only if the step exposed nothing.
  lemma DeliveriesSafeExactly(w: World, a: Action)
    requires DeliveryInv(w)
    ensures SafeFromHere(Next(w, a)) <==> !Exposes(w, a)
  {
    if Exposes(w, a) {
      ExposedIsUnsafe(w, a);
    } else {
      DeliveriesKeptExactly(w, a);
      forall acts | NoExposure(Next(w, a), acts) ensures DeliveriesApart(Exec(Next(w, a), acts).deliveries) {
        DeliveriesSpaced(Next(w, a), acts);
      }
    }
  }

  // Every run up to its first exposure is in such a state.
  lemma DeliveriesSafeFromStart(clock: int, acts: seq<Action>)
    requires NoExposure(Start(clock), acts)
    ensures DeliveryInv(Exec(Start(clock), acts)) && SafeFromHere(Exec(Start(clock), acts))
  {
    var w := Exec(Start(clock), acts);
    DeliveriesSpaced(Start(clock), acts);
    forall more | NoExposure(w, more) ensures DeliveriesApart(Exec(w, more).deliveries) {
      DeliveriesSpaced(w, more);
    }
  }

  // A broadcast to one customer that dies between the send and the record.
  function Aborted(id: string, phone: string): seq<Action> { ToOne(id, phone) + [Dispatch(true), Die] }

  lemma AbortedDelivers(w: World, id: string, phone: string)
    requires w.job.Idle? && id !in w.broadcasts && Eligible(w, phone) && (id, phone) !in w.outbox.rows
    ensures var u := Exec(w, Aborted(id, phone));
            && u.deliveries == w.deliveries + [Taken(phone, w.clock)] && u.clock == w.clock && u.job.Idle?
            && u.entries == w.entries && u.broadcasts.Keys == w.broadcasts.Keys + {id}
            && u.outbox.rows == w.outbox.rows + {(id, phone)}
  {
    ReachesSending(w, id, phone);
    ExecAppend(w, ToOne(id, phone), [Dispatch(true), Die]);
    ExecTwo(Exec(w, ToOne(id, phone)), Dispatch(true), Die);
  }

  lemma TwoAborted(w: World, x: string, y: string, p: string)
    requires w.job.Idle? && x !in w.broadcasts && y !in w.broadcasts && x != y && Eligible(w, p)
    requires (x, p) !in w.outbox.rows && (y, p) !in w.outbox.rows
    ensures Exec(w, Aborted(x, p) + Aborted(y, p)).deliveries == w.deliveries + [Taken(p, w.clock), Taken(p, w.clock)]
  {
    AbortedDelivers(w, x, p);
    AbortedDelivers(Exec(w, Aborted(x, p)), y, p);
    ExecAppend(w, Aborted(x, p), Aborted(y, p));
  }

  // So to a listed customer two messages can go out at once.
  lemma LostRecordRepeats()
    ensures exists acts :: Exec(Start(0), acts).deliveries == [Taken("p", 0), Taken("p", 0)]
  {
    var w := Next(Start(0), Upsert("p"));
    TwoAborted(w, "x", "y", "p");
    ExecFirst(Start(0), Upsert("p"), Aborted("x", "p") + Aborted("y", "p"));
  }

  // ---------------------------------------------------------------- what becomes of a recipient

  predicate Recent(w: World, p: string, now: int) {
    p in w.entries && w.entries[p].lastBroadcastAt.Some? && now - w.entries[p].lastBroadcastAt.value < 7 * 86400
  }

  function Verdict(w: World, taken: bool): Status
    requires JobOn(w)
  {
    var p := Current(w).phone;
    if Recent(w, p, w.job.now) then Skipped
    else if p in w.entries && w.entries[p].optedOut then OptedOut
    else if taken then Sent
    else Current(w).status
  }

  lemma ChooseOutcome(w: World)
    requires JobOn(w) && w.job.phase.Choosing?
    ensures var u, v, i := Next(w, Choose), Verdict(w, true), w.job.loaded[w.job.next];
            && Same(w, u) && u.job.Running? && w.job.id in u.broadcasts && i < |u.broadcasts[w.job.id]|
            && u.job.sent == w.job.sent && u.step == w.step + 1
            && (v.Sent? ==> JobOn(u) && u.job.phase.Sending? && u.broadcasts == w.broadcasts
                            && u.job.id == w.job.id && u.job.loaded == w.job.loaded && u.job.next == w.job.next
                            && u.job.readStep == w.step)
            && (!v.Sent? ==> u.job.phase.Choosing? && u.job.next == w.job.next + 1
                             && u.broadcasts[w.job.id][i] == Recipient(Current(w).phone, v))
  {
  }

  // Nothing outside the sender's own state and the recipients has changed.
  predicate Same(w: World, u: World) {
    && u.outbox == w.outbox && u.entries == w.entries && u.log == w.log && u.deliveries == w.deliveries
    && u.clock == w.clock
  }

  lemma PassOutcome(w: World, a: Action)
    requires w.job.Running? && w.job.phase.Choosing? && (a.Dispatch? || a.Save?)
    ensures Next(w, a).(step := w.step) == w
  {
  }

  // What a message that is taken and recorded leaves behind.
  ghost predicate Recorded(w: World, u: World, p: string, read: nat, step: nat, sent: bool, taken: bool) {
    && u.log == w.log + (if sent then [Record(p, w.clock, p in w.entries, read, step)] else [])
    && u.entries ==
         (if sent && p in w.entries
          then w.entries[p := Entry(Some(w.clock), w.entries[p].optedOut, w.entries[p].optedOutStep)] else w.entries)
    && u.deliveries == w.deliveries + (if taken then [Taken(p, w.clock)] else [])
    && u.clock == w.clock
  }

  lemma RefusedOutcome(w: World, committed: bool)
    requires JobOn(w) && w.job.phase.Sending? && (w.job.id, Current(w).phone) !in w.outbox.rows
    ensures var u := Next(Next(w, Dispatch(false)), Save(committed));
            && Same(w, u) && u.broadcasts == w.broadcasts
            && u.job.Running? && u.job.next == w.job.next + 1 && u.job.sent == w.job.sent
  {
  }

  lemma TakenOutcome(w: World, accepted: bool, committed: bool)
    requires JobOn(w) && w.job.phase.Sending? && (accepted || (w.job.id, Current(w).phone) in w.outbox.rows)
    ensures var e, i := (w.job.id, Current(w).phone), w.job.loaded[w.job.next];
            var u := Next(Next(w, Dispatch(accepted)), Save(committed));
            && w.job.id in u.broadcasts && i < |u.broadcasts[w.job.id]|
            && u.broadcasts[w.job.id][i] == Recipient(e.1, if committed then Sent else Current(w).status)
            && Recorded(w, u, e.1, w.job.readStep, w.step + 1, committed, e !in w.outbox.rows)
            && u.outbox.delivered == w.outbox.delivered + (if e !in w.outbox.rows then [e] else [])
            && u.job.Running? && u.job.next == w.job.next + 1
            && u.job.sent == w.job.sent + (if committed then 1 else 0)
  {
  }

  // A turn nobody interferes with settles the recipient: skipped when written to less than
  // seven days before, opted out when so marked, and otherwise sent if the message is taken
  // and recorded; a message goes out exactly to those not ruled out, once per broadcast; and
  // exactly a recorded send is counted and entered in log and list, with the time of sending.
  lemma TurnOutcome(w: World, accepted: bool, committed: bool)
    requires JobOn(w) && w.job.phase.Choosing?
    ensures var e, i := (w.job.id, Current(w).phone), w.job.loaded[w.job.next];
            var u := Next(Next(Next(w, Choose), Dispatch(accepted)), Save(committed));
            var goes := Verdict(w, true).Sent? && (accepted || e in w.outbox.rows);
            && w.job.id in u.broadcasts && i < |u.broadcasts[w.job.id]|
            && u.broadcasts[w.job.id][i] == Recipient(e.1, Verdict(w, goes && committed))
            && u.outbox.delivered == w.outbox.delivered + (if goes && e !in w.outbox.rows then [e] else [])
            && Recorded(w, u, e.1, w.step, w.step + 2, goes && committed, goes && e !in w.outbox.rows)
            && u.job.Running? && u.job.next == w.job.next + 1
            && u.job.sent == w.job.sent + (if goes && committed then 1 else 0)
  {
    var w1 := Next(w, Choose);
    ChooseOutcome(w);
    if Verdict(w, true).Sent? {
      if accepted || (w.job.id, Current(w).phone) in w.outbox.rows {
        TakenOutcome(w1, accepted, committed);
      } else {
        RefusedOutcome(w1, committed);
      }
    } else {
      PassOutcome(w1, Dispatch(accepted));
      PassOutcome(Next(w1, Dispatch(accepted)), Save(committed));
    }
  }

  // ---------------------------------------------------------------- the list and the log

  // When the log last has a send to the customer while on the list.
  function LastListed(log: seq<Record>, p: string): Option<int> {
    if log == [] then None
    else
      var r := log[|log| - 1];
      if r.listed && r.phone == p then Some(r.at) else LastListed(log[..|log| - 1], p)
  }

  // The list tells the last recorded send, and nothing else.
  ghost predicate ListTells(entries: map<string, Entry>, log: seq<Record>) {
    forall p :: LastListed(log, p) == if p in entries then entries[p].lastBroadcastAt else None
  }

  lemma LastAppend(log: seq<Record>, r: Record, p: string)
    ensures LastListed(log + [r], p) == if r.listed && r.phone == p then Some(r.at) else LastListed(log, p)
  {
    assert (log + [r])[..|log|] == log;
  }

  lemma SaveTells(w: World, ok: bool)
    requires ListTells(w.entries, w.log) && JobOn(w) && w.job.phase.Recording?
    ensures ListTells(SaveStep(w, ok).entries, SaveStep(w, ok).log)
  {
    if ok {
      var u := SaveStep(w, ok);
      var r := Record(Current(w).phone, w.job.phase.at, Current(w).phone in w.entries, w.job.readStep, w.step);
      assert u.log == w.log + [r];
      forall p ensures LastListed(u.log, p) == if p in u.entries then u.entries[p].lastBroadcastAt else None {
        LastAppend(w.log, r, p);
        assert LastListed(w.log, p) == if p in w.entries then w.entries[p].lastBroadcastAt else None;
      }
    }
  }

  lemma NextTells(w: World, a: Action)
    requires ListTells(w.entries, w.log)
    ensures ListTells(Next(w, a).entries, Next(w, a).log)
  {
    if a.Save? && JobOn(w) && w.job.phase.Recording? {
      SaveTells(w, a.committed);
    } else {
      QuietTells(w, a);
    }
  }

  lemma QuietTells(w: World, a: Action)
    requires ListTells(w.entries, w.log) && !(a.Save? && JobOn(w) && w.job.phase.Recording?)
    ensures ListTells(Next(w, a).entries, Next(w, a).log)
  {
    var u := Next(w, a);
    assert u.log == w.log;
    forall p ensures (if p in u.entries then u.entries[p].lastBroadcastAt else None)
                  == (if p in w.entries then w.entries[p].lastBroadcastAt else None)
    {
    }
  }

  // MAIN: in every run the list has, for every customer, the time of the last send the log
  // records while they were on it, and no time exactly when there is none.
  lemma {:induction false} ListTellsLastSend(w: World, acts: seq<Action>)
    requires ListTells(w.entries, w.log)
    ensures ListTells(Exec(w, acts).entries, Exec(w, acts).log)
    decreases |acts|
  {
    if acts == [] {
    } else {
      NextTells(w, acts[0]);
      ListTellsLastSend(Next(w, acts[0]), acts[1..]);
    }
  }

  // A recorded send to the listed customer less than seven days before the given time.
  ghost predicate SentWithinWeek(log: seq<Record>, p: string, now: int) {
    exists i :: 0 <= i < |log| && log[i].listed && log[i].phone == p && now - log[i].at < 604800
  }

  lemma {:induction false} LastIsLatest(log: seq<Record>, p: string)
    requires Apart(log)
    ensures match LastListed(log, p)
            case None => forall i :: 0 <= i < |log| && log[i].phone == p ==> !log[i].listed
            case Some(t) =>
              && (exists i :: 0 <= i < |log| && log[i].listed && log[i].phone == p && log[i].at == t)
              && (forall i :: 0 <= i < |log| && log[i].listed && log[i].phone == p ==> log[i].at <= t)
  {
    if log == [] {
    } else {
      var n := |log| - 1;
      var front := log[..n];
      LastIsLatest(front, p);
      assert forall i :: 0 <= i < n ==> log[i] == front[i];
      if log[n].listed && log[n].phone == p {
        assert forall i :: 0 <= i < n && log[i].listed && log[i].phone == p ==> log[n].at - log[i].at >= CAP_DAYS * DAY;
      }
    }
  }

  lemma RecentMeansLogged(w: World, p: string, now: int)
    requires ListTells(w.entries, w.log) && Apart(w.log)
    ensures Recent(w, p, now) <==> SentWithinWeek(w.log, p, now)
  {
    LastIsLatest(w.log, p);
    assert LastListed(w.log, p) == if p in w.entries then w.entries[p].lastBroadcastAt else None;
  }

  // MAIN: in every run, when a recipient's turn comes, they are skipped if and only if the log
  // has a send to them as a listed customer less than 604800 seconds before the job started;
  // otherwise ruled out if they have opted out, and otherwise written to.
  lemma SkippedExactly(clock: int, acts: seq<Action>)
    ensures var w := Exec(Start(clock), acts);
            JobOn(w) && w.job.phase.Choosing? ==>
              var u, p, i := Next(w, Choose), Current(w).phone, w.job.loaded[w.job.next];
              && w.job.id in u.broadcasts && i < |u.broadcasts[w.job.id]|
              && (if SentWithinWeek(w.log, p, w.job.now) then u.broadcasts[w.job.id][i] == Recipient(p, Skipped)
                  else if p in w.entries && w.entries[p].optedOut then
                    u.broadcasts[w.job.id][i] == Recipient(p, OptedOut)
                  else u.broadcasts == w.broadcasts && UnderWay(u, p) && u.job.phase.Sending?)
  {
    var w := Exec(Start(clock), acts);
    ListTellsLastSend(Start(clock), acts);
    ExecKeepsCap(Start(clock), acts);
    if JobOn(w) && w.job.phase.Choosing? {
      RecentMeansLogged(w, Current(w).phone, w.job.now);
      ChooseOutcome(w);
    }
  }

  lemma JobStaysSame(w: World, a: Action)
    requires w.job.Running? && !a.Finish? && !a.Die?
    ensures var j := Next(w, a).job;
            j.Running? && j.id == w.job.id && j.now == w.job.now && j.loaded == w.job.loaded
  {
  }

  // A job works with the clock and the pending recipients of its start until it ends.
  lemma {:induction false} JobIsFixed(w: World, acts: seq<Action>)
    requires w.job.Running? && forall i :: 0 <= i < |acts| ==> !acts[i].Finish? && !acts[i].Die?
    ensures var j := Exec(w, acts).job;
            j.Running? && j.id == w.job.id && j.now == w.job.now && j.loaded == w.job.loaded
    decreases |acts|
  {
    if acts == [] {
    } else {
      JobStaysSame(w, acts[0]);
      JobIsFixed(Next(w, acts[0]), acts[1..]);
    }
  }

  lemma JobStartsNow(w: World, id: string, acts: seq<Action>)
    requires w.job.Idle? && id in w.broadcasts && forall i :: 0 <= i < |acts| ==> !acts[i].Finish? && !acts[i].Die?
    ensures var j := Exec(Next(w, Begin(id)), acts).job;
            && j.Running? && j.id == id && j.now == w.clock
            && (forall i :: i in j.loaded <==> 0 <= i < |w.broadcasts[id]| && w.broadcasts[id][i].status.Pending?)
  {
    JobIsFixed(Next(w, Begin(id)), acts);
    PendingOfMeaning(w.broadcasts[id]);
  }

  // ---------------------------------------------------------------- the tally of a run

  function Count(rs: seq<Recipient>, idx: seq<nat>, st: Status): nat
    requires forall k :: 0 <= k < |idx| ==> idx[k] < |rs|
  {
    if idx == [] then 0
    else
      var n := |idx| - 1;
      Count(rs, idx[..n], st) + if rs[idx[n]].status == st then 1 else 0
  }

  lemma {:induction false} CountsAddUp(rs: seq<Recipient>, idx: seq<nat>)
    requires forall k :: 0 <= k < |idx| ==> idx[k] < |rs|
    ensures Count(rs, idx, Sent) + Count(rs, idx, Skipped) + Count(rs, idx, OptedOut) + Count(rs, idx, Pending) == |idx|
  {
    if idx == [] {
    } else {
      CountsAddUp(rs, idx[..|idx| - 1]);
    }
  }

  lemma {:induction false} CountElsewhere(rs: seq<Recipient>, idx: seq<nat>, i: nat, r: Recipient, st: Status)
    requires i < |rs| && i !in idx && forall k :: 0 <= k < |idx| ==> idx[k] < |rs|
    ensures Count(rs[i := r], idx, st) == Count(rs, idx, st)
  {
    if idx == [] {
    } else {
      CountElsewhere(rs, idx[..|idx| - 1], i, r, st);
    }
  }

  // Settling one pending recipient.
  lemma {:induction false} CountSettle(rs: seq<Recipient>, idx: seq<nat>, k: nat, r: Recipient, st: Status)
    requires forall j :: 0 <= j < |idx| ==> idx[j] < |rs|
    requires Distinct(idx) && k < |idx| && rs[idx[k]].status.Pending? && !st.Pending?
    ensures Count(rs[idx[k] := r], idx, st) == Count(rs, idx, st) + if r.status == st then 1 else 0
  {
    var n := |idx| - 1;
    if k == n {
      CountElsewhere(rs, idx[..n], idx[k], r, st);
    } else {
      CountSettle(rs, idx[..n], k, r, st);
    }
  }

  lemma {:induction false} CountNone(rs: seq<Recipient>, idx: seq<nat>, st: Status)
    requires forall k :: 0 <= k < |idx| ==> idx[k] < |rs| && rs[idx[k]].status != st
    ensures Count(rs, idx, st) == 0
  {
    if idx == [] {
    } else {
      CountNone(rs, idx[..|idx| - 1], st);
    }
  }

  lemma {:induction false} PendingOfMeaning(rs: seq<Recipient>)
    ensures forall k :: 0 <= k < |PendingOf(rs)| ==> PendingOf(rs)[k] < |rs| && rs[PendingOf(rs)[k]].status.Pending?
    ensures forall i :: 0 <= i < |rs| && rs[i].status.Pending? ==> i in PendingOf(rs)
    ensures Distinct(PendingOf(rs))
  {
    if rs == [] {
    } else {
      PendingOfMeaning(rs[..|rs| - 1]);
    }
  }

  // The running job against its broadcast.
  ghost predicate JobTally(rs: seq<Recipient>, loaded: seq<nat>, next: nat, sent: nat) {
    && next <= |loaded| && Distinct(loaded)
    && (forall k :: 0 <= k < |loaded| ==> loaded[k] < |rs|)
    && (forall k :: next <= k < |loaded| ==> rs[loaded[k]].status.Pending?)
    && (forall i :: 0 <= i < |rs| && rs[i].status.Pending? ==> i in loaded)
    && sent == Count(rs, loaded, Sent)
  }

  // Whoever is marked as sent was sent the message, once.
  ghost predicate SentTruly(broadcasts: map<string, seq<Recipient>>, rows: set<(string, string)>) {
    forall id, i :: id in broadcasts && 0 <= i < |broadcasts[id]| && broadcasts[id][i].status.Sent? ==>
      (id, broadcasts[id][i].phone) in rows
  }

  ghost predicate Truthful(w: World) {
    && (forall e :: e in w.outbox.rows <==> e in w.outbox.delivered) && Distinct(w.outbox.delivered)
    && SentTruly(w.broadcasts, w.outbox.rows)
    && (JobOn(w) && w.job.phase.Recording? ==> (w.job.id, Current(w).phone) in w.outbox.rows)
  }

  ghost predicate TallyOk(w: World) {
    w.job.Running? ==>
      w.job.id in w.broadcasts && JobTally(w.broadcasts[w.job.id], w.job.loaded, w.job.next, w.job.sent)
  }

  ghost predicate TallyInv(w: World) { TallyOk(w) && Truthful(w) }

  lemma SettleKeepsTally(rs: seq<Recipient>, loaded: seq<nat>, next: nat, sent: nat, r: Recipient)
    requires JobTally(rs, loaded, next, sent) && next < |loaded| && !r.status.Pending?
    ensures JobTally(rs[loaded[next] := r], loaded, next + 1, if r.status.Sent? then sent + 1 else sent)
  {
    CountSettle(rs, loaded, next, r, Sent);
  }

  lemma BeginKeepsTally(rs: seq<Recipient>)
    ensures JobTally(rs, PendingOf(rs), 0, 0)
  {
    PendingOfMeaning(rs);
    CountNone(rs, PendingOf(rs), Sent);
  }

  lemma MarkKeepsTally(w: World, st: Status)
    requires TallyOk(w) && JobOn(w) && !st.Pending?
    ensures w.job.id in Mark(w, st).broadcasts
    ensures JobTally(Mark(w, st).broadcasts[w.job.id], w.job.loaded, w.job.next + 1,
                     if st.Sent? then w.job.sent + 1 else w.job.sent)
  {
    SettleKeepsTally(w.broadcasts[w.job.id], w.job.loaded, w.job.next, w.job.sent, Current(w).(status := st));
  }

  lemma PassKeepsTally(rs: seq<Recipient>, loaded: seq<nat>, next: nat, sent: nat)
    requires JobTally(rs, loaded, next, sent) && next < |loaded|
    ensures JobTally(rs, loaded, next + 1, sent)
  {
  }

  lemma ChooseKeepsTally(w: World)
    requires TallyOk(w) && JobOn(w)
    ensures TallyOk(Next(w, Choose))
  {
    MarkKeepsTally(w, Skipped);
    MarkKeepsTally(w, OptedOut);
  }

  lemma DispatchKeepsTally(w: World, ok: bool)
    requires TallyOk(w) && JobOn(w)
    ensures TallyOk(Next(w, Dispatch(ok)))
  {
    PassKeepsTally(w.broadcasts[w.job.id], w.job.loaded, w.job.next, w.job.sent);
  }

  lemma SaveKeepsTally(w: World, ok: bool)
    requires TallyOk(w) && JobOn(w)
    ensures TallyOk(Next(w, Save(ok)))
  {
    MarkKeepsTally(w, Sent);
    PassKeepsTally(w.broadcasts[w.job.id], w.job.loaded, w.job.next, w.job.sent);
  }

  lemma MarkKeepsTruth(w: World, st: Status)
    requires JobOn(w) && SentTruly(w.broadcasts, w.outbox.rows)
    requires st.Sent? ==> (w.job.id, Current(w).phone) in w.outbox.rows
    ensures SentTruly(Mark(w, st).broadcasts, w.outbox.rows)
  {
  }

  lemma StepKeepsTruth(w: World, a: Action)
    requires Truthful(w) && JobOn(w) && (a.Choose? || a.Save?)
    ensures Truthful(Next(w, a))
  {
    MarkKeepsTruth(w, Skipped);
    MarkKeepsTruth(w, OptedOut);
    if w.job.phase.Recording? { MarkKeepsTruth(w, Sent); }
  }

  lemma DispatchKeepsTruth(w: World, ok: bool)
    requires Truthful(w)
    ensures Truthful(Next(w, Dispatch(ok)))
  {
  }

  lemma CreateKeepsTally(w: World, id: string, phones: seq<string>)
    requires TallyInv(w)
    ensures TallyInv(Next(w, Create(id, phones)))
  {
    var u := Next(w, Create(id, phones));
    assert SentTruly(u.broadcasts, u.outbox.rows);
  }

  lemma SameKeepsTally(w: World, u: World)
    requires TallyInv(w) && u.broadcasts == w.broadcasts && u.outbox == w.outbox && (u.job == w.job || u.job.Idle?)
    ensures TallyInv(u)
  {
  }

  lemma OthersKeepTally(w: World, a: Action)
    requires TallyInv(w) && !a.Choose? && !a.Dispatch? && !a.Save? && !a.Begin?
    ensures TallyInv(Next(w, a))
  {
    if a.Create? { CreateKeepsTally(w, a.id, a.phones); } else { SameKeepsTally(w, Next(w, a)); }
  }

  lemma NextKeepsTally(w: World, a: Action)
    requires TallyInv(w)
    ensures TallyInv(Next(w, a))
  {
    match a
    case Begin(id) => if id in w.broadcasts { BeginKeepsTally(w.broadcasts[id]); }
    case Dispatch(ok) =>
      DispatchKeepsTruth(w, ok);
      if JobOn(w) { DispatchKeepsTally(w, ok); }
    case Choose => if JobOn(w) { ChooseKeepsTally(w); StepKeepsTruth(w, a); }
    case Save(ok) => if JobOn(w) { SaveKeepsTally(w, ok); StepKeepsTruth(w, a); }
    case _ => OthersKeepTally(w, a);
  }

  lemma {:induction false} ExecKeepsTally(w: World, acts: seq<Action>)
    requires TallyInv(w)
    ensures TallyInv(Exec(w, acts))
    decreases |acts|
  {
    if acts == [] {
    } else {
      NextKeepsTally(w, acts[0]);
      ExecKeepsTally(Next(w, acts[0]), acts[1..]);
    }
  }

  // Every run that finishes accounts for each recipient it loaded, and reports the sends.
  lemma FinishedRunAddsUp(clock: int, acts: seq<Action>)
    ensures var w := Exec(Start(clock), acts);
            w.job.Running? && w.job.next >= |w.job.loaded| ==>
              var u := Next(w, Finish);
              && w.job.id in u.broadcasts && w.job.id in u.sentCount
              && (forall k :: 0 <= k < |w.job.loaded| ==> w.job.loaded[k] < |u.broadcasts[w.job.id]|)
              && u.sentCount[w.job.id] == Count(u.broadcasts[w.job.id], w.job.loaded, Sent)
              && u.sentCount[w.job.id] + Count(u.broadcasts[w.job.id], w.job.loaded, Skipped)
                 + Count(u.broadcasts[w.job.id], w.job.loaded, OptedOut)
                 + Count(u.broadcasts[w.job.id], w.job.loaded, Pending) == |w.job.loaded|
  {
    ExecKeepsTally(Start(clock), acts);
    var w := Exec(Start(clock), acts);
    if w.job.Running? { CountsAddUp(w.broadcasts[w.job.id], w.job.loaded); }
  }

  // A recipient once settled keeps its status, whatever happens next.
  lemma SettledStays(w: World, a: Action, id: string, i: nat)
    requires JobOn(w) ==> Current(w).status.Pending?
    requires id in w.broadcasts && i < |w.broadcasts[id]| && !w.broadcasts[id][i].status.Pending?
    ensures var u := Next(w, a);
            id in u.broadcasts && i < |u.broadcasts[id]| && u.broadcasts[id][i] == w.broadcasts[id][i]
  {
  }

  lemma {:induction false} SettledIsFinal(w: World, acts: seq<Action>, id: string, i: nat)
    requires TallyInv(w) && id in w.broadcasts && i < |w.broadcasts[id]| && !w.broadcasts[id][i].status.Pending?
    ensures var u := Exec(w, acts);
            id in u.broadcasts && i < |u.broadcasts[id]| && u.broadcasts[id][i] == w.broadcasts[id][i]
    decreases |acts|
  {
    if acts == [] {
    } else {
      NextKeepsTally(w, acts[0]);
      SettledStays(w, acts[0], id, i);
      SettledIsFinal(Next(w, acts[0]), acts[1..], id, i);
    }
  }

  // ---------------------------------------------------------------- the sender itself

  lemma {:induction false} ExecAppend(w: World, a: seq<Action>, b: seq<Action>)
    ensures Exec(w, a + b) == Exec(Exec(w, a), b)
    decreases |a|
  {
    if a == [] {
      assert a + b == b;
    } else {
      assert (a + b)[1..] == a[1..] + b;
      ExecAppend(Next(w, a[0]), a[1..], b);
    }
  }

  // What others do to the customer list and the clock.
  predicate Outside(a: Action) { a.Tick? || a.Upsert? || a.OptOut? || a.Create? }

  // What happens while one recipient has its turn.
  datatype Turn = Turn(before: seq<Action>, accepted: bool, between: seq<Action>, committed: bool)

  predicate TurnOk(t: Turn) {
    && (forall i :: 0 <= i < |t.before| ==> Outside(t.before[i]))
    && (forall i :: 0 <= i < |t.between| ==> Outside(t.between[i]))
  }

  function TurnScript(t: Turn): seq<Action> {
    [Choose] + t.before + [Dispatch(t.accepted)] + t.between + [Save(t.committed)]
  }

  function Script(turn: nat -> Turn, n: nat): seq<Action> {
    if n == 0 then [] else Script(turn, n - 1) + TurnScript(turn(n - 1))
  }

  lemma TurnEffect(w: World, t: Turn)
    ensures Exec(w, TurnScript(t)) ==
            Next(Exec(Next(Exec(Next(w, Choose), t.before), Dispatch(t.accepted)), t.between), Save(t.committed))
  {
    ExecAppend(w, [Choose] + t.before + [Dispatch(t.accepted)] + t.between, [Save(t.committed)]);
    ExecAppend(w, [Choose] + t.before + [Dispatch(t.accepted)], t.between);
    ExecAppend(w, [Choose] + t.before, [Dispatch(t.accepted)]);
    ExecAppend(w, [Choose], t.before);
    ExecOne(w, Choose);
    ExecOne(Exec(Next(w, Choose), t.before), Dispatch(t.accepted));
    ExecOne(Exec(Next(Exec(Next(w, Choose), t.before), Dispatch(t.accepted)), t.between), Save(t.committed));
  }

  // Others leave the job and its recipients alone.
  lemma {:induction false} OutsideKeepsJob(w: World, acts: seq<Action>)
    requires JobOn(w) && forall i :: 0 <= i < |acts| ==> Outside(acts[i])
    ensures var u := Exec(w, acts);
            && u.job == w.job && u.outbox == w.outbox && u.log == w.log
            && w.job.id in u.broadcasts && u.broadcasts[w.job.id] == w.broadcasts[w.job.id]
    decreases |acts|
  {
    if acts == [] {
    } else {
      OutsideKeepsJob(Next(w, acts[0]), acts[1..]);
    }
  }

  lemma ScriptStep(w: World, turn: nat -> Turn, n: nat)
    ensures Exec(w, Script(turn, n + 1)) == Exec(Exec(w, Script(turn, n)), TurnScript(turn(n)))
  {
    ExecAppend(w, Script(turn, n), TurnScript(turn(n)));
  }

  lemma WholeScript(w: World, id: string, turn: nat -> Turn, n: nat)
    ensures Exec(w, [Begin(id)] + Script(turn, n) + [Finish]) == Next(Exec(Next(w, Begin(id)), Script(turn, n)), Finish)
  {
    ExecAppend(w, [Begin(id)] + Script(turn, n), [Finish]);
    ExecAppend(w, [Begin(id)], Script(turn, n));
    ExecOne(w, Begin(id));
    ExecOne(Exec(Next(w, Begin(id)), Script(turn, n)), Finish);
  }

  class BroadcastSender {
    var clock: int
    var entries: map<string, Entry>
    var broadcasts: map<string, seq<Recipient>>
    var sentCount: map<string, nat>
    var outbox: Outbox<(string, string)>
    var step: nat
    ghost var log: seq<Record>
    ghost var deliveries: seq<Taken>
    ghost var raced: set<string>

    ghost function State(job: Job): World
      reads this
    {
      World(clock, step, entries, broadcasts, sentCount, outbox, log, deliveries, raced, job)
    }

    constructor (now: int)
      ensures State(Idle) == Start(now)
    {
      clock, entries, broadcasts, sentCount := now, map[], map[], map[];
      outbox, step, log, deliveries, raced := Outbox({}, []), 0, [], [], {};
    }

    method UpsertCustomer(phone: string, ghost job: Job)
      modifies this
      ensures State(job) == Next(old(State(job)), Upsert(phone))
    {
      if phone !in entries { entries := entries[phone := Entry(None, false, 0)]; }
      step := step + 1;
    }

    method OptOutCustomer(phone: string, ghost job: Job) returns (updated: bool)
      modifies this
      ensures State(job) == Next(old(State(job)), OptOut(phone))
      ensures updated <==> phone in old(entries) && !old(entries)[phone].optedOut
    {
      updated := phone in entries && !entries[phone].optedOut;
      if updated {
        raced := if UnderWay(State(job), phone) then raced + {phone} else raced;
        entries := entries[phone := entries[phone].(optedOut := true, optedOutStep := step)];
      }
      step := step + 1;
    }

    method ActOutside(a: Action, ghost job: Job)
      requires Outside(a)
      modifies this
      ensures State(job) == Next(old(State(job)), a)
    {
      match a
      case Tick(n) => clock, step := clock + n, step + 1;
      case Upsert(p) => UpsertCustomer(p, job);
      case OptOut(p) => var _ := OptOutCustomer(p, job);
      case Create(id, phones) =>
        if id !in broadcasts {
          broadcasts := broadcasts[id := AllPending(phones)];
        }
        step := step + 1;
    }

    // While the sender waits, the rest of the system goes on.
    method Meanwhile(acts: seq<Action>, ghost job: Job)
      requires forall i :: 0 <= i < |acts| ==> Outside(acts[i])
      modifies this
      ensures State(job) == Exec(old(State(job)), acts)
    {
      ghost var whole := Exec(State(job), acts);
      for i := 0 to |acts|
        invariant whole == Exec(State(job), acts[i..])
      {
        assert acts[i..] == [acts[i]] + acts[i + 1..];
        ExecFirst(State(job), acts[i], acts[i + 1..]);
        ActOutside(acts[i], job);
      }
    }

    // The checks on one recipient; job holds the sender's own variables.
    method Check(job: Job) returns (job': Job)
      requires JobOn(State(job)) && job.phase.Choosing?
      modifies this
      ensures State(job') == Next(old(State(job)), Choose)
    {
      var at := job.loaded[job.next];
      var r := broadcasts[job.id][at];
      if r.phone in entries && entries[r.phone].lastBroadcastAt.Some?
         && DaysSince(job.now, entries[r.phone].lastBroadcastAt.value) < CAP_DAYS {
        broadcasts := broadcasts[job.id := broadcasts[job.id][at := Recipient(r.phone, Skipped)]];
        job' := Running(job.id, job.now, job.loaded, job.next + 1, job.sent, Choosing, job.readStep);
      } else if r.phone in entries && entries[r.phone].optedOut {
        broadcasts := broadcasts[job.id := broadcasts[job.id][at := Recipient(r.phone, OptedOut)]];
        job' := Running(job.id, job.now, job.loaded, job.next + 1, job.sent, Choosing, job.readStep);
      } else {
        job' := Running(job.id, job.now, job.loaded, job.next, job.sent, Sending, step);
      }
      step := step + 1;
    }

    method Deliver(job: Job, accepted: bool) returns (job': Job)
      requires JobOn(State(job)) && job.phase.Sending?
      modifies this
      ensures State(job') == Next(old(State(job)), Dispatch(accepted))
    {
      var e := (job.id, broadcasts[job.id][job.loaded[job.next]].phone);
      if e !in outbox.rows && !accepted {
        job' := Running(job.id, job.now, job.loaded, job.next + 1, job.sent, Choosing, job.readStep);
      } else {
        if e !in outbox.rows {
          outbox := Outbox(outbox.rows + {e}, outbox.delivered + [e]);
          deliveries := deliveries + [Taken(e.1, clock)];
        }
        job' := Running(job.id, job.now, job.loaded, job.next, job.sent, Recording(clock), job.readStep);
      }
      step := step + 1;
    }

    method RecordSent(job: Job, committed: bool) returns (job': Job)
      requires JobOn(State(job)) && job.phase.Recording?
      modifies this
      ensures State(job') == Next(old(State(job)), Save(committed))
    {
      var at := job.loaded[job.next];
      var r := broadcasts[job.id][at];
      var sent := job.sent;
      if committed {
        log := log + [Record(r.phone, job.phase.at, r.phone in entries, job.readStep, step)];
        broadcasts := broadcasts[job.id := broadcasts[job.id][at := Recipient(r.phone, Sent)]];
        if r.phone in entries {
          entries := entries[r.phone := entries[r.phone].(lastBroadcastAt := Some(job.phase.at))];
        }
        sent := sent + 1;
      }
      job' := Running(job.id, job.now, job.loaded, job.next + 1, sent, Choosing, job.readStep);
      step := step + 1;
    }

    // The sender's variables during a turn that began with job.
    ghost predicate Midway(job: Job, job': Job)
      reads this
      requires job.Running?
    {
      && job'.Running? && job'.id == job.id && job'.loaded == job.loaded
      && if job'.phase.Choosing? then job'.next == job.next + 1 else job'.next == job.next && JobOn(State(job'))
    }

    method CheckAndWait(job: Job, before: seq<Action>) returns (job': Job)
      requires JobOn(State(job)) && job.phase.Choosing? && forall i :: 0 <= i < |before| ==> Outside(before[i])
      modifies this
      ensures State(job') == Exec(Next(old(State(job)), Choose), before)
      ensures Midway(job, job') && !job'.phase.Recording?
    {
      job' := Check(job);
      if job'.phase.Sending? { OutsideKeepsJob(State(job'), before); }
      Meanwhile(before, job');
    }

    method DeliverAndWait(ghost start: Job, job: Job, accepted: bool, between: seq<Action>) returns (job': Job)
      requires start.Running? && Midway(start, job) && !job.phase.Recording?
      requires forall i :: 0 <= i < |between| ==> Outside(between[i])
      modifies this
      ensures State(job') == Exec(Next(old(State(job)), Dispatch(accepted)), between)
      ensures Midway(start, job') && !job'.phase.Sending?
    {
      if job.phase.Sending? {
        job' := Deliver(job, accepted);
        if job'.phase.Recording? { OutsideKeepsJob(State(job'), between); }
      } else {
        job' := job;
        step := step + 1;
      }
      Meanwhile(between, job');
    }

    method EndTurn(ghost start: Job, job: Job, committed: bool) returns (job': Job)
      requires start.Running? && Midway(start, job) && !job.phase.Sending?
      modifies this
      ensures State(job') == Next(old(State(job)), Save(committed))
      ensures Midway(start, job') && job'.phase.Choosing?
    {
      if job.phase.Recording? {
        job' := RecordSent(job, committed);
      } else {
        job' := job;
        step := step + 1;
      }
    }

    // One recipient's turn; t says what happens around it.
    method TakeTurn(job: Job, t: Turn) returns (job': Job)
      requires JobOn(State(job)) && job.phase.Choosing? && TurnOk(t)
      modifies this
      ensures State(job') == Exec(old(State(job)), TurnScript(t))
      ensures Midway(job, job') && job'.phase.Choosing?
    {
      TurnEffect(State(job), t);
      job' := CheckAndWait(job, t.before);
      job' := DeliverAndWait(job, job', t.accepted, t.between);
      job' := EndTurn(job, job', t.committed);
    }

    // The run that began in w with start has come to job.
    ghost predicate Going(w: World, start: Job, job: Job, turn: nat -> Turn)
      reads this
    {
      && start.Running? && job.Running? && job.phase.Choosing? && job.id == start.id && job.loaded == start.loaded
      && job.next <= |job.loaded| && TallyInv(State(job)) && State(job) == Exec(w, Script(turn, job.next))
    }

    method NextTurn(ghost w: World, ghost start: Job, job: Job, turn: nat -> Turn) returns (job': Job)
      requires Going(w, start, job, turn) && job.next < |job.loaded| && TurnOk(turn(job.next))
      modifies this
      ensures Going(w, start, job', turn) && job'.next == job.next + 1
    {
      ScriptStep(w, turn, job.next);
      ExecKeepsTally(State(job), TurnScript(turn(job.next)));
      job' := TakeTurn(job, turn(job.next));
    }

    lemma GoingStarts(start: Job, turn: nat -> Turn)
      requires start.Running? && start.phase.Choosing? && start.next == 0 && TallyInv(State(start))
      ensures Going(State(start), start, start, turn)
    {
    }

    method TakeTurns(start: Job, turn: nat -> Turn) returns (job: Job)
      requires start.Running? && start.phase.Choosing? && start.next == 0
      requires TallyInv(State(start)) && forall i :: TurnOk(turn(i))
      modifies this
      ensures Going(old(State(start)), start, job, turn) && job.next == |job.loaded|
    {
      ghost var w := State(start);
      GoingStarts(start, turn);
      job := start;
      while job.next < |job.loaded|
        invariant Going(w, start, job, turn)
        decreases |start.loaded| - job.next
      {
        job := NextTurn(w, start, job, turn);
      }
    }

    method BeginRun(id: string) returns (job: Job)
      requires TallyInv(State(Idle)) && id in broadcasts
      modifies this
      ensures State(job) == Next(old(State(Idle)), Begin(id)) && TallyInv(State(job))
      ensures job.Running? && job.phase.Choosing? && job.next == 0 && job.id == id
      ensures job.loaded == PendingOf(old(broadcasts)[id])
    {
      NextKeepsTally(State(Idle), Begin(id));
      job := Running(id, clock, PendingOf(broadcasts[id]), 0, 0, Choosing, step);
      step := step + 1;
    }

    method FinishRun(job: Job)
      requires TallyInv(State(job)) && job.Running? && job.next == |job.loaded|
      modifies this
      ensures State(Idle) == Next(old(State(job)), Finish) && TallyInv(State(Idle))
      ensures job.id in sentCount && sentCount[job.id] == job.sent
    {
      NextKeepsTally(State(job), Finish);
      sentCount := sentCount[job.id := job.sent];
      step := step + 1;
    }

    // Sent is what the broadcast reports, total how many recipients were loaded.
    method SendBroadcastPaced(id: string, turn: nat -> Turn) returns (sent: nat, total: nat)
      requires TallyInv(State(Idle)) && forall i :: TurnOk(turn(i))
      modifies this
      ensures id !in old(broadcasts) ==> State(Idle) == old(State(Idle)) && total == 0
      ensures id in old(broadcasts) ==>
                && total == |PendingOf(old(broadcasts)[id])|
                && State(Idle) == Exec(old(State(Idle)), [Begin(id)] + Script(turn, total) + [Finish])
                && id in sentCount && sentCount[id] == sent
      ensures TallyInv(State(Idle))
    {
      if id !in broadcasts { return 0, 0; }
      ghost var w := State(Idle);
      var start := BeginRun(id);
      total := |start.loaded|;
      var job := TakeTurns(start, turn);
      WholeScript(w, id, turn, total);
      FinishRun(job);
      sent := job.sent;
    }
  }
}
