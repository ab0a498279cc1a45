/**
 * The WhatsApp onboarding conversation with one trader, up to completion.
 *
 * The session lives in Redis.  Moving on means: store the new step together with
 * the prompt that leads into it, send the prompt, and take the stored prompt out
 * again once it was sent.  While a stored prompt is there, an inbound message only
 * triggers another attempt to send it and is not interpreted.
 */
module Onboarding {
  import opened Basics
  import opened Delivery
  import opened Text

  datatype Step =
    | AwaitingName | AwaitingCategory | AwaitingCatalogue
    | AwaitingPhoto | AwaitingPhotoConfirmation
    | AwaitingVoice | AwaitingVoiceConfirmation
    | QaInProgress

  datatype Media = Photo | VoiceNote

  // What the trader is shown, by meaning rather than by wording.
  datatype Say =
    | Welcome | CategoryMenu(name: string) | DescribeOther | CatalogueMenu(category: string)
    | PathMenu | SendPhoto | SendVoice | NothingFound(media: Media) | Question(item: string)
    | WelcomeBack | NameTooShort | PickCategory | PickPath | WrongMedia(media: Media)
    | Processing(media: Media) | Checkpoint(done: nat, total: nat) | DoneEarly

  datatype Data = Data(
    name: Option<string>,
    category: Option<string>,
    awaitingOther: bool,
    description: Option<string>,
    qaIndex: nat,
    qaPrices: map<string, nat>,
    pending: Option<Say>
  )

  datatype Session = Session(step: Step, data: Data)

  // Replies to one inbound message carry its id and a suffix as their event id.
  datatype Suffix = Plain | Back | Reprompt | Ack | Progress

  type ReplyId = (string, Suffix)

  datatype Event =
    | Asked(prompt: Say)                                            // step and prompt stored
    | Shown(say: Say)                                               // WhatsApp took it
    | Interpreted(step: Step, about: Option<string>, text: string)  // a step handler read it

  datatype World = World(
    session: Option<Session>,
    outbox: Outbox<ReplyId>,
    trace: seq<Event>,
    answers: seq<string>       // the Q&A answers behind the current index
  )

  datatype Inbound = Inbound(
    id: string,
    text: string,
    knownTrader: bool,         // a trader row exists for the number
    trigger: bool,             // greeting, or a referral or agent code
    wasAway: bool,             // silent for more than six hours
    hasMedia: bool,            // the message carries a media id
    extracted: bool            // the media reader found products
  )

  // The starter items of each category, and the price reader.
  datatype Config = Config(items: map<string, seq<string>>, price: string -> Option<nat>)

  function ItemsOf(cfg: Config, category: Option<string>): seq<string> {
    if category.Some? && category.value in cfg.items then cfg.items[category.value] else []
  }

  const CATEGORIES: map<string, string> :=
    map["1" := "provisions", "2" := "fabric", "3" := "food", "4" := "electronics",
        "5" := "cosmetics", "6" := "building", "7" := "other"]

  const EMPTY_DATA := Data(None, None, false, None, 0, map[], None)

  // ---------------------------------------------------------------- sending

  function Reply(w: World, id: ReplyId, say: Say, up: bool): (World, bool) {
    if Raises(w.outbox, id, up) then (w, false)
    else (w.(outbox := Send(w.outbox, id, up),
             trace := if id in w.outbox.rows then w.trace else w.trace + [Shown(say)]), true)
  }

  function Store(w: World, step: Step, data: Data): World {
    w.(session := Some(Session(step, data)))
  }

  // up(s) tells whether WhatsApp takes the reply with suffix s.
  function Advance(w: World, step: Step, data: Data, prompt: Say, id: string, up: Suffix -> bool): World {
    var stored := Store(w, step, data.(pending := Some(prompt))).(trace := w.trace + [Asked(prompt)]);
    var (sent, ok) := Reply(stored, (id, Plain), prompt, up(Plain));
    if ok then Store(sent, step, data.(pending := None)) else sent
  }

  // ---------------------------------------------------------------- step handlers

  function NameStep(w: World, msg: string, d: Data, id: string, up: Suffix -> bool): World {
    if |msg| < 2 then Reply(w, (id, Plain), NameTooShort, up(Plain)).0
    else
      var name := if |msg| > 60 then msg[..60] else msg;
      Advance(w, AwaitingCategory, d.(name := Some(name)), CategoryMenu(name), id, up)
  }

  function CategoryStep(w: World, msg: string, d: Data, id: string, up: Suffix -> bool): World {
    if d.awaitingOther then
      var desc := if |msg| > 200 then msg[..200] else msg;
      var data := d.(awaitingOther := false, description := Some(desc));
      Advance(w, AwaitingCatalogue, data, CatalogueMenu("noted"), id, up)
    else if msg !in CATEGORIES then
      Reply(w, (id, Plain), PickCategory, up(Plain)).0
    else
      var category := CATEGORIES[msg];
      var data := d.(category := Some(category));
      if category == "other" then
        Advance(w, AwaitingCategory, data.(awaitingOther := true), DescribeOther, id, up)
      else
        Advance(w, AwaitingCatalogue, data, CatalogueMenu(category), id, up)
  }

  // Completion leaves the session as it is: it stops before the state is cleared.
  function CatalogueStep(cfg: Config, w: World, msg: string, d: Data, id: string, up: Suffix -> bool): World {
    if msg == "1" then Advance(w, AwaitingPhoto, d, SendPhoto, id, up)
    else if msg == "2" then Advance(w, AwaitingVoice, d, SendVoice, id, up)
    else if msg == "3" then StartQa(cfg, w, d, id, up)
    else if msg == "4" then w
    else if msg == "back" then Advance(w, AwaitingCatalogue, d, PathMenu, id, up)
    else Reply(w, (id, Plain), PickPath, up(Plain)).0
  }

  function StartQa(cfg: Config, w: World, d: Data, id: string, up: Suffix -> bool): World {
    var items := ItemsOf(cfg, d.category);
    if items == [] then w
    else Advance(w.(answers := []), QaInProgress, d.(qaIndex := 0, qaPrices := map[]), Question(items[0]), id, up)
  }

  // A non-empty extraction stops before anything is stored.
  function MediaStep(cfg: Config, w: World, m: Inbound, msg: string, d: Data, want: Media, up: Suffix -> bool): World {
    if msg in {"1", "2", "3", "4", "back"} then CatalogueStep(cfg, w, msg, d, m.id, up)
    else if !m.hasMedia || msg != (if want.Photo? then "[image]" else "[audio]") then
      Reply(w, (m.id, Plain), WrongMedia(want), up(Plain)).0
    else
      var w1 := Reply(w, (m.id, Ack), Processing(want), up(Ack)).0;
      if m.extracted then w1
      else Advance(w1, AwaitingCatalogue, d, NothingFound(want), m.id, up)
  }

  const SKIP_WORDS := {"0", "skip", "s", "done", "finish"}

  const CHECKPOINT_EVERY := 5

  function Priced(cfg: Config, prices: map<string, nat>, item: string, msg: string): map<string, nat> {
    var p := cfg.price(msg);
    if p.Some? then prices[item := p.value] else prices
  }

  function QaStep(cfg: Config, w: World, msg: string, d: Data, id: string, up: Suffix -> bool): World {
    var items := ItemsOf(cfg, d.category);
    if Lower(msg) in SKIP_WORDS then Reply(w, (id, Plain), DoneEarly, up(Plain)).0
    else if d.qaIndex + 1 >= |items| then w    // last item: on to completion
    else
      var next := d.qaIndex + 1;
      var data := d.(qaIndex := next, qaPrices := Priced(cfg, d.qaPrices, items[d.qaIndex], msg));
      var w1 := if next % CHECKPOINT_EVERY == 0
                then Reply(w, (id, Progress), Checkpoint(next, |items|), up(Progress)).0 else w;
      Advance(w1.(answers := w.answers + [msg]), QaInProgress, data, Question(items[next]), id, up)
  }

  // ---------------------------------------------------------------- one inbound message

  function About(cfg: Config, s: Session): Option<string> {
    var items := ItemsOf(cfg, s.data.category);
    if s.step.QaInProgress? && s.data.qaIndex < |items| then Some(items[s.data.qaIndex]) else None
  }

  function Interpret(cfg: Config, w: World, m: Inbound, s: Session, up: Suffix -> bool): World {
    var msg := Strip(m.text);
    var w1 := w.(trace := w.trace + [Interpreted(s.step, About(cfg, s), msg)]);
    match s.step
    case AwaitingName => NameStep(w1, msg, s.data, m.id, up)
    case AwaitingCategory => CategoryStep(w1, msg, s.data, m.id, up)
    case AwaitingCatalogue => CatalogueStep(cfg, w1, msg, s.data, m.id, up)
    case AwaitingPhoto => MediaStep(cfg, w1, m, msg, s.data, Photo, up)
    case AwaitingVoice => MediaStep(cfg, w1, m, msg, s.data, VoiceNote, up)
    case QaInProgress => QaStep(cfg, w1, msg, s.data, m.id, up)
    case AwaitingPhotoConfirmation => w1
    case AwaitingVoiceConfirmation => w1
  }

  function Handle(cfg: Config, w: World, m: Inbound, up: Suffix -> bool): World {
    if m.knownTrader then w
    else if w.session.None? then
      if m.trigger then Advance(w, AwaitingName, EMPTY_DATA, Welcome, m.id, up) else w
    else
      var s := w.session.value;
      var w1 := if m.wasAway then Reply(w, (m.id, Back), WelcomeBack, up(Back)).0 else w;
      if s.data.pending.Some? then
        var (w2, ok) := Reply(w1, (m.id, Reprompt), s.data.pending.value, up(Reprompt));
        if ok then Store(w2, s.step, s.data.(pending := None)) else w2
      else
        Interpret(cfg, w1, m, s, up)
  }

  // A run: messages, and the seven-day expiry of the session.
  datatype Action = Message(m: Inbound, up: Suffix -> bool) | Expire

  function Next(cfg: Config, w: World, a: Action): World {
    match a
    case Message(m, up) => Handle(cfg, w, m, up)
    case Expire => w.(session := None)
  }

  function Exec(cfg: Config, w: World, acts: seq<Action>): World
    decreases |acts|
  {
    if acts == [] then w else Exec(cfg, Next(cfg, w, acts[0]), acts[1..])
  }

  const START := World(None, Outbox({}, []), [], [])

  // ---------------------------------------------------------------- what the trader has seen

  // The prompt that leads into the current state, and whether it was shown since.
  function Showing(t: seq<Event>): Option<(Say, bool)> {
    if t == [] then None
    else
      var before := Showing(t[..|t| - 1]);
      match t[|t| - 1]
      case Asked(p) => Some((p, false))
      case Shown(q) => if before.Some? && before.value.0 == q then Some((q, true)) else before
      case Interpreted(_, _, _) => before
  }

  lemma ShowingAppend(t: seq<Event>, e: Event)
    ensures Showing(t + [e]) ==
      match e
      case Asked(p) => Some((p, false))
      case Shown(q) => if Showing(t).Some? && Showing(t).value.0 == q then Some((q, true)) else Showing(t)
      case Interpreted(_, _, _) => Showing(t)
  {
    assert (t + [e])[..|t|] == t;
  }

  // The prompt of the current state was asked for, and in Q&A it is the item's question.
  predicate AskedFor(before: seq<Event>, e: Event)
    requires e.Interpreted?
  {
    && Showing(before).Some?
    && (e.step.QaInProgress? ==> e.about.Some? && Showing(before).value.0 == Question(e.about.value))
  }

  // ... and it has been shown.
  predicate Informed(before: seq<Event>, e: Event)
    requires e.Interpreted?
  {
    AskedFor(before, e) && Showing(before).value.1
  }

  ghost predicate OnlyAsked(t: seq<Event>) {
    forall i :: 0 <= i < |t| && t[i].Interpreted? ==> AskedFor(t[..i], t[i])
  }

  ghost predicate OnlyInformed(t: seq<Event>) {
    forall i :: 0 <= i < |t| && t[i].Interpreted? ==> Informed(t[..i], t[i])
  }

  lemma OnlyAskedAppend(t: seq<Event>, e: Event)
    requires OnlyAsked(t) && (e.Interpreted? ==> AskedFor(t, e))
    ensures OnlyAsked(t + [e])
  {
    forall i | 0 <= i < |t + [e]| && (t + [e])[i].Interpreted?
      ensures AskedFor((t + [e])[..i], (t + [e])[i])
    {
      if i < |t| { assert (t + [e])[..i] == t[..i]; } else { assert (t + [e])[..i] == t; }
    }
  }

  lemma OnlyInformedAppend(t: seq<Event>, e: Event)
    requires OnlyInformed(t) && (e.Interpreted? ==> Informed(t, e))
    ensures OnlyInformed(t + [e])
  {
    forall i | 0 <= i < |t + [e]| && (t + [e])[i].Interpreted?
      ensures Informed((t + [e])[..i], (t + [e])[i])
    {
      if i < |t| { assert (t + [e])[..i] == t[..i]; } else { assert (t + [e])[..i] == t; }
    }
  }

  // ---------------------------------------------------------------- well-formed sessions

  // The price map that a list of answers builds, first item first.
  function PricesOf(cfg: Config, items: seq<string>, answers: seq<string>): map<string, nat>
    requires |answers| <= |items|
  {
    if answers == [] then map[]
    else
      var n := |answers| - 1;
      Priced(cfg, PricesOf(cfg, items, answers[..n]), items[n], answers[n])
  }

  // Read the other way: an item is in the map exactly when one of its answers parsed, with
  // the price of the last answer that did.
  ghost predicate PricedBy(cfg: Config, items: seq<string>, answers: seq<string>, k: string, v: nat)
    requires |answers| <= |items|
  {
    exists i :: 0 <= i < |answers| && items[i] == k && cfg.price(answers[i]) == Some(v)
             && forall j :: i < j < |answers| && items[j] == k ==> cfg.price(answers[j]).None?
  }

  lemma {:induction false} PricesMeaning(cfg: Config, items: seq<string>, answers: seq<string>, k: string)
    requires |answers| <= |items|
    ensures var prices := PricesOf(cfg, items, answers);
            && (k in prices ==> PricedBy(cfg, items, answers, k, prices[k]))
            && (k !in prices ==> forall i :: 0 <= i < |answers| && items[i] == k ==> cfg.price(answers[i]).None?)
    decreases |answers|
  {
    if answers == [] {
    } else {
      var n := |answers| - 1;
      var before := answers[..n];
      PricesMeaning(cfg, items, before, k);
      var was := PricesOf(cfg, items, before);
      if items[n] == k && cfg.price(answers[n]).Some? {
        assert PricedBy(cfg, items, answers, k, cfg.price(answers[n]).value);
      } else if k in was {
        var i :| 0 <= i < |before| && items[i] == k && cfg.price(before[i]) == Some(was[k])
              && forall j :: i < j < |before| && items[j] == k ==> cfg.price(before[j]).None?;
        assert forall j :: 0 <= j < n ==> before[j] == answers[j];
        assert answers[i] == before[i];
      } else {
        assert forall j :: 0 <= j < n ==> before[j] == answers[j];
      }
    }
  }

  ghost predicate DataOk(cfg: Config, s: Session, answers: seq<string>) {
    var d, items := s.data, ItemsOf(cfg, s.data.category);
    && (!s.step.AwaitingName? ==> d.name.Some? && |d.name.value| >= 2)
    && (d.awaitingOther ==> s.step.AwaitingCategory? && d.category == Some("other"))
    && (!s.step.AwaitingName? && !s.step.AwaitingCategory? ==>
          d.category.Some? && d.category.value in CATEGORIES.Values)
    && !s.step.AwaitingPhotoConfirmation? && !s.step.AwaitingVoiceConfirmation?
    && (s.step.QaInProgress? ==>
          && d.qaIndex < |items| && |answers| == d.qaIndex
          && d.qaPrices == PricesOf(cfg, items, answers))
  }

  // Every stored answer was interpreted as the answer to its own item.
  ghost predicate Recorded(items: seq<string>, answers: seq<string>, t: seq<Event>) {
    |answers| <= |items| &&
    forall i :: 0 <= i < |answers| ==> Interpreted(QaInProgress, Some(items[i]), answers[i]) in t
  }

  // What the session says about the prompts: a stored prompt is the one asked for last and
  // has not been shown.
  ghost predicate AskedOk(cfg: Config, s: Session, t: seq<Event>) {
    var items := ItemsOf(cfg, s.data.category);
    && Showing(t).Some?
    && (s.data.pending.Some? ==>
          s.data.pending.value != WelcomeBack && Showing(t).value == (s.data.pending.value, false))
    && (s.step.QaInProgress? ==> s.data.qaIndex < |items| && Showing(t).value.0 == Question(items[s.data.qaIndex]))
  }

  // Holds in every run.
  ghost predicate BaseInv(cfg: Config, w: World) {
    && OnlyAsked(w.trace)
    && (w.session.Some? ==>
          && DataOk(cfg, w.session.value, w.answers) && AskedOk(cfg, w.session.value, w.trace)
          && (w.session.value.step.QaInProgress? ==>
                Recorded(ItemsOf(cfg, w.session.value.data.category), w.answers, w.trace)))
  }

  // When no prompt is stored the current one has been shown.
  ghost predicate Seen(w: World) {
    w.session.Some? && w.session.value.data.pending.None? ==> Showing(w.trace).Some? && Showing(w.trace).value.1
  }

  ghost predicate Inv(cfg: Config, w: World) { BaseInv(cfg, w) && OnlyInformed(w.trace) && Seen(w) }

  // A step from w to t that keeps what holds in every run, reads only informed messages, and
  // keeps the rest of the invariant exactly when it clears no prompt unseen.
  ghost predicate Kept(cfg: Config, w: World, t: World, unseen: bool) {
    && BaseInv(cfg, t)
    && (Inv(cfg, w) ==> OnlyInformed(t.trace) && (Inv(cfg, t) <==> !unseen))
  }

  predicate NewId(w: World, id: string) {
    forall s: Suffix :: (id, s) !in w.outbox.rows
  }

  // A reply changes nothing but what the trader has seen.
  lemma ReplyKeeps(cfg: Config, w: World, id: ReplyId, say: Say, up: bool)
    requires BaseInv(cfg, w) && (w.session.Some? && w.session.value.data.pending.Some? ==> say == WelcomeBack)
    ensures var r := Reply(w, id, say, up).0;
            && Kept(cfg, w, r, false) && r.session == w.session && r.answers == w.answers
            && w.trace <= r.trace && w.outbox.rows <= r.outbox.rows <= w.outbox.rows + {id}
  {
    ShowingAppend(w.trace, Shown(say));
    OnlyAskedAppend(w.trace, Shown(say));
    if OnlyInformed(w.trace) { OnlyInformedAppend(w.trace, Shown(say)); }
  }

  // The store-send-clear protocol: the prompt is cleared unseen exactly when its id has a row.
  lemma AdvanceKeeps(cfg: Config, w: World, step: Step, data: Data, prompt: Say, id: string, up: Suffix -> bool)
    requires OnlyAsked(w.trace) && prompt != WelcomeBack
    requires DataOk(cfg, Session(step, data), w.answers)
    requires step.QaInProgress? ==>
               && Recorded(ItemsOf(cfg, data.category), w.answers, w.trace)
               && prompt == Question(ItemsOf(cfg, data.category)[data.qaIndex])
    ensures var t := Advance(w, step, data, prompt, id, up);
            && BaseInv(cfg, t)
            && (OnlyInformed(w.trace) ==>
                  OnlyInformed(t.trace) && (Inv(cfg, t) <==> (id, Plain) !in w.outbox.rows))
            && t.outbox.rows <= w.outbox.rows + {(id, Plain)}
  {
    var t := w.trace + [Asked(prompt)];
    ShowingAppend(w.trace, Asked(prompt));
    OnlyAskedAppend(w.trace, Asked(prompt));
    ShowingAppend(t, Shown(prompt));
    OnlyAskedAppend(t, Shown(prompt));
    if OnlyInformed(w.trace) {
      OnlyInformedAppend(w.trace, Asked(prompt));
      OnlyInformedAppend(t, Shown(prompt));
    }
  }

  // Whether the handler of a step moves on, and so stores and sends a new prompt.
  predicate NameMoves(msg: string) { |msg| >= 2 }

  predicate CategoryMoves(msg: string, d: Data) { d.awaitingOther || msg in CATEGORIES }

  predicate CatalogueMoves(cfg: Config, msg: string, d: Data) {
    msg == "1" || msg == "2" || msg == "back" || (msg == "3" && ItemsOf(cfg, d.category) != [])
  }

  predicate MediaMoves(cfg: Config, m: Inbound, msg: string, d: Data, want: Media) {
    if msg in {"1", "2", "3", "4", "back"} then CatalogueMoves(cfg, msg, d)
    else m.hasMedia && msg == (if want.Photo? then "[image]" else "[audio]") && !m.extracted
  }

  predicate QaMoves(cfg: Config, msg: string, d: Data) {
    Lower(msg) !in SKIP_WORDS && d.qaIndex + 1 < |ItemsOf(cfg, d.category)|
  }

  predicate Moves(cfg: Config, s: Session, m: Inbound) {
    var msg := Strip(m.text);
    match s.step
    case AwaitingName => NameMoves(msg)
    case AwaitingCategory => CategoryMoves(msg, s.data)
    case AwaitingCatalogue => CatalogueMoves(cfg, msg, s.data)
    case AwaitingPhoto => MediaMoves(cfg, m, msg, s.data, Photo)
    case AwaitingVoice => MediaMoves(cfg, m, msg, s.data, VoiceNote)
    case QaInProgress => QaMoves(cfg, msg, s.data)
    case AwaitingPhotoConfirmation => false
    case AwaitingVoiceConfirmation => false
  }

  // The message reaches one of the two places where a prompt is cleared, and the id of the
  // reply sent there already has a row.
  predicate ClearsUnseen(cfg: Config, w: World, m: Inbound) {
    && !m.knownTrader
    && match w.session
       case None => m.trigger && (m.id, Plain) in w.outbox.rows
       case Some(s) =>
         if s.data.pending.Some? then (m.id, Reprompt) in w.outbox.rows
         else Moves(cfg, s, m) && (m.id, Plain) in w.outbox.rows
  }

  predicate Open(w: World, s: Session) { w.session == Some(s) && s.data.pending.None? }

  lemma NameKeeps(cfg: Config, w: World, msg: string, d: Data, id: string, up: Suffix -> bool)
    requires BaseInv(cfg, w) && Open(w, Session(AwaitingName, d))
    ensures Kept(cfg, w, NameStep(w, msg, d, id, up), NameMoves(msg) && (id, Plain) in w.outbox.rows)
    ensures NameStep(w, msg, d, id, up).outbox.rows <= w.outbox.rows + {(id, Plain)}
  {
    if |msg| < 2 {
      ReplyKeeps(cfg, w, (id, Plain), NameTooShort, up(Plain));
    } else {
      var name := if |msg| > 60 then msg[..60] else msg;
      AdvanceKeeps(cfg, w, AwaitingCategory, d.(name := Some(name)), CategoryMenu(name), id, up);
    }
  }

  lemma CategoryKeeps(cfg: Config, w: World, msg: string, d: Data, id: string, up: Suffix -> bool)
    requires BaseInv(cfg, w) && Open(w, Session(AwaitingCategory, d))
    ensures Kept(cfg, w, CategoryStep(w, msg, d, id, up), CategoryMoves(msg, d) && (id, Plain) in w.outbox.rows)
    ensures CategoryStep(w, msg, d, id, up).outbox.rows <= w.outbox.rows + {(id, Plain)}
  {
    assert "other" in CATEGORIES.Values by { assert CATEGORIES["7"] == "other"; }
    if d.awaitingOther {
      var desc := if |msg| > 200 then msg[..200] else msg;
      AdvanceKeeps(cfg, w, AwaitingCatalogue, d.(awaitingOther := false, description := Some(desc)),
                   CatalogueMenu("noted"), id, up);
    } else if msg !in CATEGORIES {
      ReplyKeeps(cfg, w, (id, Plain), PickCategory, up(Plain));
    } else {
      var data := d.(category := Some(CATEGORIES[msg]));
      if CATEGORIES[msg] == "other" {
        AdvanceKeeps(cfg, w, AwaitingCategory, data.(awaitingOther := true), DescribeOther, id, up);
      } else {
        AdvanceKeeps(cfg, w, AwaitingCatalogue, data, CatalogueMenu(CATEGORIES[msg]), id, up);
      }
    }
  }

  // Data good for the catalogue menu, a photo or a voice note: nothing depends on which.
  predicate PathStep(step: Step) { step.AwaitingCatalogue? || step.AwaitingPhoto? || step.AwaitingVoice? }

  lemma CatalogueKeeps(cfg: Config, w: World, msg: string, s: Session, id: string, up: Suffix -> bool)
    requires BaseInv(cfg, w) && Open(w, s) && PathStep(s.step)
    ensures Kept(cfg, w, CatalogueStep(cfg, w, msg, s.data, id, up),
                 CatalogueMoves(cfg, msg, s.data) && (id, Plain) in w.outbox.rows)
    ensures CatalogueStep(cfg, w, msg, s.data, id, up).outbox.rows <= w.outbox.rows + {(id, Plain)}
  {
    var d := s.data;
    if msg == "1" { AdvanceKeeps(cfg, w, AwaitingPhoto, d, SendPhoto, id, up); }
    else if msg == "2" { AdvanceKeeps(cfg, w, AwaitingVoice, d, SendVoice, id, up); }
    else if msg == "3" {
      var items := ItemsOf(cfg, d.category);
      if items != [] {
        var data := d.(qaIndex := 0, qaPrices := map[]);
        AdvanceKeeps(cfg, w.(answers := []), QaInProgress, data, Question(items[0]), id, up);
      }
    }
    else if msg == "4" {}
    else if msg == "back" { AdvanceKeeps(cfg, w, AwaitingCatalogue, d, PathMenu, id, up); }
    else { ReplyKeeps(cfg, w, (id, Plain), PickPath, up(Plain)); }
  }

  lemma MediaKeeps(cfg: Config, w: World, m: Inbound, msg: string, s: Session, want: Media, up: Suffix -> bool)
    requires BaseInv(cfg, w) && Open(w, s) && PathStep(s.step)
    ensures Kept(cfg, w, MediaStep(cfg, w, m, msg, s.data, want, up),
                 MediaMoves(cfg, m, msg, s.data, want) && (m.id, Plain) in w.outbox.rows)
    ensures MediaStep(cfg, w, m, msg, s.data, want, up).outbox.rows <= w.outbox.rows + {(m.id, Plain), (m.id, Ack)}
  {
    if msg in {"1", "2", "3", "4", "back"} {
      CatalogueKeeps(cfg, w, msg, s, m.id, up);
    } else if !m.hasMedia || msg != (if want.Photo? then "[image]" else "[audio]") {
      ReplyKeeps(cfg, w, (m.id, Plain), WrongMedia(want), up(Plain));
    } else {
      ReplyKeeps(cfg, w, (m.id, Ack), Processing(want), up(Ack));
      var w1 := Reply(w, (m.id, Ack), Processing(want), up(Ack)).0;
      if !m.extracted {
        AdvanceKeeps(cfg, w1, AwaitingCatalogue, s.data, NothingFound(want), m.id, up);
      }
    }
  }

  // One more answer: the data for the next item.
  lemma QaData(cfg: Config, d: Data, answers: seq<string>, msg: string)
    requires DataOk(cfg, Session(QaInProgress, d), answers)
    requires d.qaIndex + 1 < |ItemsOf(cfg, d.category)|
    ensures var items := ItemsOf(cfg, d.category);
            DataOk(cfg, Session(QaInProgress, d.(qaIndex := d.qaIndex + 1,
                                                 qaPrices := Priced(cfg, d.qaPrices, items[d.qaIndex], msg))),
                   answers + [msg])
  {
    assert (answers + [msg])[..d.qaIndex] == answers;
  }

  lemma RecordedNext(items: seq<string>, answers: seq<string>, msg: string, t: seq<Event>, t': seq<Event>)
    requires Recorded(items, answers, t) && t <= t' && |answers| < |items|
    requires Interpreted(QaInProgress, Some(items[|answers|]), msg) in t
    ensures Recorded(items, answers + [msg], t')
  {
    assert forall e :: e in t ==> e in t';
  }

  lemma QaMovesOn(cfg: Config, w: World, w1: World, msg: string, d: Data, id: string, up: Suffix -> bool)
    requires BaseInv(cfg, w) && Open(w, Session(QaInProgress, d)) && d.qaIndex + 1 < |ItemsOf(cfg, d.category)|
    requires Interpreted(QaInProgress, Some(ItemsOf(cfg, d.category)[d.qaIndex]), msg) in w.trace
    requires OnlyAsked(w1.trace) && w.trace <= w1.trace && (OnlyInformed(w.trace) ==> OnlyInformed(w1.trace))
    requires (id, Plain) in w1.outbox.rows <==> (id, Plain) in w.outbox.rows
    ensures var items := ItemsOf(cfg, d.category);
            var data := d.(qaIndex := d.qaIndex + 1, qaPrices := Priced(cfg, d.qaPrices, items[d.qaIndex], msg));
            var w2, question := w1.(answers := w.answers + [msg]), Question(items[d.qaIndex + 1]);
            var t := Advance(w2, QaInProgress, data, question, id, up);
            Kept(cfg, w, t, (id, Plain) in w.outbox.rows) && t.outbox.rows <= w1.outbox.rows + {(id, Plain)}
  {
    var items := ItemsOf(cfg, d.category);
    var data := d.(qaIndex := d.qaIndex + 1, qaPrices := Priced(cfg, d.qaPrices, items[d.qaIndex], msg));
    QaData(cfg, d, w.answers, msg);
    RecordedNext(items, w.answers, msg, w.trace, w1.trace);
    AdvanceKeeps(cfg, w1.(answers := w.answers + [msg]), QaInProgress, data, Question(items[d.qaIndex + 1]), id, up);
  }

  // A reply in between does not change what was read.
  lemma ReplyReads(w: World, id: ReplyId, say: Say, up: bool)
    requires OnlyAsked(w.trace)
    ensures var r := Reply(w, id, say, up).0;
            && OnlyAsked(r.trace) && (OnlyInformed(w.trace) ==> OnlyInformed(r.trace)) && w.trace <= r.trace
            && w.outbox.rows <= r.outbox.rows <= w.outbox.rows + {id}
  {
    OnlyAskedAppend(w.trace, Shown(say));
    if OnlyInformed(w.trace) { OnlyInformedAppend(w.trace, Shown(say)); }
  }

  lemma QaKeeps(cfg: Config, w: World, msg: string, d: Data, id: string, up: Suffix -> bool)
    requires BaseInv(cfg, w) && Open(w, Session(QaInProgress, d))
    requires Interpreted(QaInProgress, Some(ItemsOf(cfg, d.category)[d.qaIndex]), msg) in w.trace
    ensures Kept(cfg, w, QaStep(cfg, w, msg, d, id, up), QaMoves(cfg, msg, d) && (id, Plain) in w.outbox.rows)
    ensures QaStep(cfg, w, msg, d, id, up).outbox.rows <= w.outbox.rows + {(id, Plain), (id, Progress)}
  {
    var items := ItemsOf(cfg, d.category);
    if Lower(msg) in SKIP_WORDS {
      ReplyKeeps(cfg, w, (id, Plain), DoneEarly, up(Plain));
    } else if d.qaIndex + 1 < |items| {
      var next := d.qaIndex + 1;
      ReplyReads(w, (id, Progress), Checkpoint(next, |items|), up(Progress));
      var w1 := if next % CHECKPOINT_EVERY == 0
                then Reply(w, (id, Progress), Checkpoint(next, |items|), up(Progress)).0 else w;
      QaMovesOn(cfg, w, w1, msg, d, id, up);
    }
  }

  // Reading a message while no prompt is stored.
  lemma ReadKeeps(cfg: Config, w: World, s: Session, msg: string)
    requires BaseInv(cfg, w) && Open(w, s)
    ensures var w1 := w.(trace := w.trace + [Interpreted(s.step, About(cfg, s), msg)]);
            BaseInv(cfg, w1) && (Inv(cfg, w) ==> Inv(cfg, w1))
  {
    var e := Interpreted(s.step, About(cfg, s), msg);
    ShowingAppend(w.trace, e);
    OnlyAskedAppend(w.trace, e);
    if Inv(cfg, w) { OnlyInformedAppend(w.trace, e); }
  }

  lemma InterpretKeeps(cfg: Config, w: World, m: Inbound, s: Session, up: Suffix -> bool)
    requires BaseInv(cfg, w) && Open(w, s)
    ensures Kept(cfg, w, Interpret(cfg, w, m, s, up), Moves(cfg, s, m) && (m.id, Plain) in w.outbox.rows)
    ensures Interpret(cfg, w, m, s, up).outbox.rows <= w.outbox.rows + {(m.id, Plain), (m.id, Ack), (m.id, Progress)}
  {
    var msg := Strip(m.text);
    ReadKeeps(cfg, w, s, msg);
    var w1 := w.(trace := w.trace + [Interpreted(s.step, About(cfg, s), msg)]);
    match s.step
    case AwaitingName => NameKeeps(cfg, w1, msg, s.data, m.id, up);
    case AwaitingCategory => CategoryKeeps(cfg, w1, msg, s.data, m.id, up);
    case AwaitingCatalogue => CatalogueKeeps(cfg, w1, msg, s, m.id, up);
    case AwaitingPhoto => MediaKeeps(cfg, w1, m, msg, s, Photo, up);
    case AwaitingVoice => MediaKeeps(cfg, w1, m, msg, s, VoiceNote, up);
    case QaInProgress => QaKeeps(cfg, w1, msg, s.data, m.id, up);
    case AwaitingPhotoConfirmation =>
    case AwaitingVoiceConfirmation =>
  }

  // Sending a stored prompt again.
  lemma RepromptKeeps(cfg: Config, w: World, s: Session, id: ReplyId, up: bool)
    requires BaseInv(cfg, w) && w.session == Some(s) && s.data.pending.Some?
    ensures var (w2, ok) := Reply(w, id, s.data.pending.value, up);
            && Kept(cfg, w, if ok then Store(w2, s.step, s.data.(pending := None)) else w2, id in w.outbox.rows)
            && w2.outbox.rows <= w.outbox.rows + {id}
  {
    var p := s.data.pending.value;
    ShowingAppend(w.trace, Shown(p));
    OnlyAskedAppend(w.trace, Shown(p));
    if OnlyInformed(w.trace) { OnlyInformedAppend(w.trace, Shown(p)); }
  }

  lemma HandleKeeps(cfg: Config, w: World, m: Inbound, up: Suffix -> bool)
    requires BaseInv(cfg, w)
    ensures Kept(cfg, w, Handle(cfg, w, m, up), ClearsUnseen(cfg, w, m))
    ensures forall r :: r in Handle(cfg, w, m, up).outbox.rows && r !in w.outbox.rows ==> r.0 == m.id
  {
    if m.knownTrader {
    } else if w.session.None? {
      if m.trigger { AdvanceKeeps(cfg, w, AwaitingName, EMPTY_DATA, Welcome, m.id, up); }
    } else {
      var s := w.session.value;
      ReplyKeeps(cfg, w, (m.id, Back), WelcomeBack, up(Back));
      var w1 := if m.wasAway then Reply(w, (m.id, Back), WelcomeBack, up(Back)).0 else w;
      if s.data.pending.Some? {
        RepromptKeeps(cfg, w1, s, (m.id, Reprompt), up(Reprompt));
      } else {
        InterpretKeeps(cfg, w1, m, s, up);
      }
    }
  }

  // MAIN: from a good state, one message leaves a good state exactly when it does not reach a
  // clearing place whose reply id already has a row.
  lemma ClearedUnseenExactly(cfg: Config, w: World, m: Inbound, up: Suffix -> bool)
    requires Inv(cfg, w)
    ensures Inv(cfg, Handle(cfg, w, m, up)) <==> !ClearsUnseen(cfg, w, m)
  {
    HandleKeeps(cfg, w, m, up);
  }

  // No message of the run clears a prompt unseen.
  predicate NeverUnseen(cfg: Config, w: World, acts: seq<Action>)
    decreases |acts|
  {
    acts == [] ||
    ((acts[0].Message? ==> !ClearsUnseen(cfg, w, acts[0].m)) && NeverUnseen(cfg, Next(cfg, w, acts[0]), acts[1..]))
  }

  lemma NextKeeps(cfg: Config, w: World, a: Action)
    requires BaseInv(cfg, w)
    ensures Kept(cfg, w, Next(cfg, w, a), a.Message? && ClearsUnseen(cfg, w, a.m))
  {
    if a.Message? { HandleKeeps(cfg, w, a.m, a.up); }
  }

  lemma {:induction false} ExecKeepsBase(cfg: Config, w: World, acts: seq<Action>)
    requires BaseInv(cfg, w)
    ensures BaseInv(cfg, Exec(cfg, w, acts))
    decreases |acts|
  {
    if acts == [] {
    } else {
      NextKeeps(cfg, w, acts[0]);
      ExecKeepsBase(cfg, Next(cfg, w, acts[0]), acts[1..]);
    }
  }

  lemma {:induction false} ExecKeeps(cfg: Config, w: World, acts: seq<Action>)
    requires Inv(cfg, w) && NeverUnseen(cfg, w, acts)
    ensures Inv(cfg, Exec(cfg, w, acts))
    decreases |acts|
  {
    if acts == [] {
    } else {
      NextKeeps(cfg, w, acts[0]);
      ExecKeeps(cfg, Next(cfg, w, acts[0]), acts[1..]);
    }
  }

  // Every inbound message has its own id.
  ghost predicate FreshIds(acts: seq<Action>) {
    forall i, j :: 0 <= i < j < |acts| && acts[i].Message? && acts[j].Message? ==> acts[i].m.id != acts[j].m.id
  }

  // With message ids of their own no message clears a prompt unseen.
  lemma {:induction false} FreshIdsSuffice(cfg: Config, w: World, acts: seq<Action>)
    requires BaseInv(cfg, w) && FreshIds(acts)
    requires forall i :: 0 <= i < |acts| && acts[i].Message? ==> NewId(w, acts[i].m.id)
    ensures NeverUnseen(cfg, w, acts)
    decreases |acts|
  {
    if acts == [] {
    } else {
      var t := Next(cfg, w, acts[0]);
      NextKeeps(cfg, w, acts[0]);
      if acts[0].Message? { HandleKeeps(cfg, w, acts[0].m, acts[0].up); }
      forall i | 0 <= i < |acts[1..]| && acts[1..][i].Message? ensures NewId(t, acts[1..][i].m.id) {
        assert acts[1..][i] == acts[i + 1];
        assert NewId(w, acts[i + 1].m.id);
        assert acts[0].Message? ==> acts[0].m.id != acts[i + 1].m.id;
      }
      FreshIdsSuffice(cfg, t, acts[1..]);
    }
  }

  // MAIN: with any pattern of failed replies, a step handler reads a message only after the
  // prompt that led into the current state was shown; in Q&A that prompt is the question
  // about the very item the message is taken to answer.
  lemma InterpretsOnlyInformed(cfg: Config, acts: seq<Action>)
    requires NeverUnseen(cfg, START, acts)
    ensures OnlyInformed(Exec(cfg, START, acts).trace)
  {
    assert Inv(cfg, START);
    ExecKeeps(cfg, START, acts);
  }

  // MAIN: every reachable session is well formed, whatever was sent, failed or repeated.
  lemma ReachableWellFormed(cfg: Config, acts: seq<Action>)
    ensures var w := Exec(cfg, START, acts);
            w.session.Some? ==> DataOk(cfg, w.session.value, w.answers)
  {
    ExecKeepsBase(cfg, START, acts);
  }

  // MAIN: every recorded price was read from a message taken as the answer to the item whose
  // question had been asked last; unless a prompt was cleared unseen, that question was showing.
  lemma PriceHasItsQuestion(cfg: Config, acts: seq<Action>, item: string)
    requires var w := Exec(cfg, START, acts);
             w.session.Some? && w.session.value.step.QaInProgress? && item in w.session.value.data.qaPrices
    ensures var w := Exec(cfg, START, acts);
            exists i :: 0 <= i < |w.trace| && w.trace[i].Interpreted? && w.trace[i].about == Some(item)
                     && cfg.price(w.trace[i].text) == Some(w.session.value.data.qaPrices[item])
                     && Showing(w.trace[..i]).Some? && Showing(w.trace[..i]).value.0 == Question(item)
                     && (NeverUnseen(cfg, START, acts) ==> Showing(w.trace[..i]).value.1)
  {
    ExecKeepsBase(cfg, START, acts);
    var w := Exec(cfg, START, acts);
    if NeverUnseen(cfg, START, acts) { InterpretsOnlyInformed(cfg, acts); }
    PricedItem(cfg, w, item);
    var i :| 0 <= i < |w.trace| && w.trace[i].Interpreted? && w.trace[i].step.QaInProgress?
             && w.trace[i].about == Some(item)
             && cfg.price(w.trace[i].text) == Some(w.session.value.data.qaPrices[item]);
    assert AskedFor(w.trace[..i], w.trace[i]);
    assert OnlyInformed(w.trace) ==> Informed(w.trace[..i], w.trace[i]);
  }

  lemma PricedItem(cfg: Config, w: World, item: string)
    requires BaseInv(cfg, w) && w.session.Some? && w.session.value.step.QaInProgress?
    requires item in w.session.value.data.qaPrices
    ensures exists i :: 0 <= i < |w.trace| && w.trace[i].Interpreted? && w.trace[i].step.QaInProgress?
                     && w.trace[i].about == Some(item)
                     && cfg.price(w.trace[i].text) == Some(w.session.value.data.qaPrices[item])
  {
    var d := w.session.value.data;
    var items := ItemsOf(cfg, d.category);
    PricesMeaning(cfg, items, w.answers, item);
    var k :| 0 <= k < |w.answers| && items[k] == item && cfg.price(w.answers[k]) == Some(d.qaPrices[item]);
    assert Interpreted(QaInProgress, Some(item), w.answers[k]) in w.trace;
  }

  // ---------------------------------------------------------------- a Q&A that goes well

  predicate PlainAnswer(m: Inbound) { !m.knownTrader && !m.wasAway && Lower(Strip(m.text)) !in SKIP_WORDS }

  function AllUp(s: Suffix): bool { true }

  // An answer before the last item records its price and brings up the next question.
  lemma AnswerIsTaken(cfg: Config, w: World, d: Data, m: Inbound)
    requires w.session == Some(Session(QaInProgress, d)) && d.pending.None?
    requires PlainAnswer(m) && NewId(w, m.id) && d.qaIndex + 1 < |ItemsOf(cfg, d.category)|
    ensures var items, t := ItemsOf(cfg, d.category), Handle(cfg, w, m, AllUp);
            && t.session == Some(Session(QaInProgress,
                 d.(qaIndex := d.qaIndex + 1, qaPrices := Priced(cfg, d.qaPrices, items[d.qaIndex], Strip(m.text)))))
            && t.answers == w.answers + [Strip(m.text)]
            && Showing(t.trace) == Some((Question(items[d.qaIndex + 1]), true))
            && (forall id :: id != m.id && NewId(w, id) ==> NewId(t, id))
  {
    HandleIsQa(cfg, w, d, m);
    var items, msg := ItemsOf(cfg, d.category), Strip(m.text);
    var w1 := w.(trace := w.trace + [Interpreted(QaInProgress, Some(items[d.qaIndex]), msg)]);
    QaGoesOn(cfg, w1, msg, d, m.id);
  }

  lemma HandleIsQa(cfg: Config, w: World, d: Data, m: Inbound)
    requires w.session == Some(Session(QaInProgress, d)) && d.pending.None? && !m.knownTrader && !m.wasAway
    requires d.qaIndex < |ItemsOf(cfg, d.category)|
    ensures var msg, item := Strip(m.text), ItemsOf(cfg, d.category)[d.qaIndex];
            Handle(cfg, w, m, AllUp) ==
              QaStep(cfg, w.(trace := w.trace + [Interpreted(QaInProgress, Some(item), msg)]), msg, d, m.id, AllUp)
  {
  }

  lemma QaGoesOn(cfg: Config, w: World, msg: string, d: Data, id: string)
    requires NewId(w, id) && Lower(msg) !in SKIP_WORDS && d.pending.None? && d.qaIndex + 1 < |ItemsOf(cfg, d.category)|
    ensures var items, t := ItemsOf(cfg, d.category), QaStep(cfg, w, msg, d, id, AllUp);
            && t.session == Some(Session(QaInProgress,
                 d.(qaIndex := d.qaIndex + 1, qaPrices := Priced(cfg, d.qaPrices, items[d.qaIndex], msg))))
            && t.answers == w.answers + [msg]
            && Showing(t.trace) == Some((Question(items[d.qaIndex + 1]), true))
            && (forall i :: i != id && NewId(w, i) ==> NewId(t, i))
  {
    var items, next := ItemsOf(cfg, d.category), d.qaIndex + 1;
    var w2 := if next % CHECKPOINT_EVERY == 0
              then Reply(w, (id, Progress), Checkpoint(next, |items|), AllUp(Progress)).0 else w;
    var data := d.(qaIndex := next, qaPrices := Priced(cfg, d.qaPrices, items[d.qaIndex], msg));
    AdvanceUp(w2.(answers := w.answers + [msg]), QaInProgress, data, Question(items[next]), id);
  }

  // A move whose prompt goes through.
  lemma AdvanceUp(w: World, step: Step, data: Data, prompt: Say, id: string)
    requires (id, Plain) !in w.outbox.rows
    ensures var t := Advance(w, step, data, prompt, id, AllUp);
            && t.session == Some(Session(step, data.(pending := None))) && t.answers == w.answers
            && t.outbox.rows == w.outbox.rows + {(id, Plain)}
            && Showing(t.trace) == Some((prompt, true))
  {
    ShowingAppend(w.trace, Asked(prompt));
    ShowingAppend(w.trace + [Asked(prompt)], Shown(prompt));
  }

  function Texts(ms: seq<Inbound>): seq<string> { seq(|ms|, i requires 0 <= i < |ms| => Strip(ms[i].text)) }

  function Messages(ms: seq<Inbound>): seq<Action> { seq(|ms|, i requires 0 <= i < |ms| => Message(ms[i], AllUp)) }

  lemma ExecMessage(cfg: Config, w: World, ms: seq<Inbound>)
    requires ms != []
    ensures Exec(cfg, w, Messages(ms)) == Exec(cfg, Handle(cfg, w, ms[0], AllUp), Messages(ms[1..]))
  {
    assert Messages(ms)[1..] == Messages(ms[1..]);
    assert Next(cfg, w, Messages(ms)[0]) == Handle(cfg, w, ms[0], AllUp);
  }

  // In the middle of a Q&A: the answers so far are recorded and the next question is showing.
  ghost predicate InQa(cfg: Config, w: World, d: Data) {
    && w.session == Some(Session(QaInProgress, d)) && d.pending.None?
    && d.qaIndex < |ItemsOf(cfg, d.category)|
    && |w.answers| == d.qaIndex && d.qaPrices == PricesOf(cfg, ItemsOf(cfg, d.category), w.answers)
    && Showing(w.trace) == Some((Question(ItemsOf(cfg, d.category)[d.qaIndex]), true))
  }

  ghost predicate NewAnswers(w: World, ms: seq<Inbound>) {
    && (forall i :: 0 <= i < |ms| ==> PlainAnswer(ms[i]) && NewId(w, ms[i].id))
    && (forall i, j :: 0 <= i < j < |ms| ==> ms[i].id != ms[j].id)
  }

  lemma OneAnswer(cfg: Config, w: World, d: Data, ms: seq<Inbound>)
    requires InQa(cfg, w, d) && ms != [] && NewAnswers(w, ms) && d.qaIndex + 1 < |ItemsOf(cfg, d.category)|
    ensures var items, t := ItemsOf(cfg, d.category), Handle(cfg, w, ms[0], AllUp);
            && t.session.Some? && InQa(cfg, t, t.session.value.data) && NewAnswers(t, ms[1..])
            && t.session.value.data == d.(qaIndex := d.qaIndex + 1, qaPrices := t.session.value.data.qaPrices)
            && t.answers == w.answers + [Strip(ms[0].text)]
  {
    var t := Handle(cfg, w, ms[0], AllUp);
    AnswerIsTaken(cfg, w, d, ms[0]);
    assert t.answers[..|w.answers|] == w.answers;
  }

  ghost predicate Collected(cfg: Config, answers: seq<string>, d: Data, texts: seq<string>, t: World) {
    && t.session.Some? && InQa(cfg, t, t.session.value.data)
    && t.session.value.data == d.(qaIndex := d.qaIndex + |texts|, qaPrices := t.session.value.data.qaPrices)
    && t.answers == answers + texts
  }

  lemma CollectedBefore(
    cfg: Config, answers: seq<string>, d: Data, first: string, d': Data, texts: seq<string>, t: World)
    requires Collected(cfg, answers + [first], d', texts, t)
    requires d' == d.(qaIndex := d.qaIndex + 1, qaPrices := d'.qaPrices)
    ensures Collected(cfg, answers, d, [first] + texts, t)
  {
    assert answers + [first] + texts == answers + ([first] + texts);
  }

  // MAIN: answering any number of questions before the last, with replies going through, ends
  // at the right item with exactly the prices of those answers, its question showing.
  lemma {:induction false} AnswersAreCollected(cfg: Config, w: World, d: Data, ms: seq<Inbound>)
    requires InQa(cfg, w, d) && NewAnswers(w, ms) && d.qaIndex + |ms| < |ItemsOf(cfg, d.category)|
    ensures Collected(cfg, w.answers, d, Texts(ms), Exec(cfg, w, Messages(ms)))
    decreases |ms|
  {
    if ms == [] {
      NoMessages(cfg, w, d);
    } else {
      var t := Handle(cfg, w, ms[0], AllUp);
      OneAnswer(cfg, w, d, ms);
      AnswersAreCollected(cfg, t, t.session.value.data, ms[1..]);
      ExecMessage(cfg, w, ms);
      TextsFirst(ms);
      CollectedBefore(cfg, w.answers, d, Strip(ms[0].text), t.session.value.data, Texts(ms[1..]),
                      Exec(cfg, w, Messages(ms)));
    }
  }

  lemma TextsFirst(ms: seq<Inbound>)
    requires ms != []
    ensures Texts(ms) == [Strip(ms[0].text)] + Texts(ms[1..])
  {
  }

  lemma NoMessages(cfg: Config, w: World, d: Data)
    requires InQa(cfg, w, d)
    ensures Collected(cfg, w.answers, d, Texts([]), Exec(cfg, w, Messages([])))
  {
    assert w.answers + Texts([]) == w.answers;
  }

  // ---------------------------------------------------------------- what each answer leads to

  // A message that reaches the handler of the step, with an id of its own.
  ghost predicate Heard(w: World, step: Step, d: Data, m: Inbound) {
    Open(w, Session(step, d)) && !m.knownTrader && !m.wasAway && NewId(w, m.id)
  }

  // The session moves on and the prompt is showing.
  ghost predicate Leads(t: World, step: Step, d: Data, prompt: Say) {
    t.session == Some(Session(step, d)) && Showing(t.trace) == Some((prompt, true))
  }

  // The session stays as it is, and these things are said.
  ghost predicate Stays(cfg: Config, w: World, t: World, m: Inbound, says: seq<Say>) {
    && w.session.Some? && t.session == w.session
    && var s := w.session.value;
       t.trace == w.trace + [Interpreted(s.step, About(cfg, s), Strip(m.text))] + Shows(says)
  }

  function Shows(says: seq<Say>): seq<Event> { seq(|says|, i requires 0 <= i < |says| => Shown(says[i])) }

  // The world in which the handler starts.
  function Read(cfg: Config, w: World, s: Session, msg: string): World {
    w.(trace := w.trace + [Interpreted(s.step, About(cfg, s), msg)])
  }

  lemma ReplyUp(w: World, id: ReplyId, say: Say)
    requires id !in w.outbox.rows
    ensures var r := Reply(w, id, say, true).0;
            && r.session == w.session && r.answers == w.answers && r.trace == w.trace + [Shown(say)]
            && r.outbox.rows == w.outbox.rows + {id}
  {
  }

  lemma SaysOne(cfg: Config, w: World, s: Session, m: Inbound, say: Say)
    requires Open(w, s) && NewId(w, m.id)
    ensures Stays(cfg, w, Reply(Read(cfg, w, s, Strip(m.text)), (m.id, Plain), say, true).0, m, [say])
  {
    ReplyUp(Read(cfg, w, s, Strip(m.text)), (m.id, Plain), say);
    assert Shows([say]) == [Shown(say)];
  }

  lemma SaysNothing(cfg: Config, w: World, s: Session, m: Inbound)
    requires Open(w, s)
    ensures Stays(cfg, w, Read(cfg, w, s, Strip(m.text)), m, [])
  {
    assert Shows([]) == [];
  }

  // A known trader is left to the order handler; only a trigger starts the conversation.
  lemma FirstMessage(cfg: Config, w: World, m: Inbound)
    requires NewId(w, m.id)
    ensures m.knownTrader ==> Handle(cfg, w, m, AllUp) == w
    ensures !m.knownTrader && w.session.None? && !m.trigger ==> Handle(cfg, w, m, AllUp) == w
    ensures !m.knownTrader && w.session.None? && m.trigger ==>
              Leads(Handle(cfg, w, m, AllUp), AwaitingName, Data(None, None, false, None, 0, map[], None), Welcome)
  {
    if !m.knownTrader && w.session.None? && m.trigger { AdvanceUp(w, AwaitingName, EMPTY_DATA, Welcome, m.id); }
  }

  // A stored prompt is shown instead of reading the message.
  lemma StoredPromptComesFirst(cfg: Config, w: World, s: Session, m: Inbound)
    requires w.session == Some(s) && s.data.pending.Some? && !m.knownTrader && !m.wasAway && NewId(w, m.id)
    ensures var t := Handle(cfg, w, m, AllUp);
            t.session == Some(Session(s.step, s.data.(pending := None)))
            && t.trace == w.trace + [Shown(s.data.pending.value)]
  {
  }

  // Someone who was away is welcomed back first.
  lemma WelcomedBack(cfg: Config, w: World, s: Session, m: Inbound)
    requires w.session == Some(s) && !m.knownTrader && m.wasAway && NewId(w, m.id)
    ensures var back := World(w.session, Outbox(w.outbox.rows + {(m.id, Back)}, w.outbox.delivered + [(m.id, Back)]),
                              w.trace + [Shown(WelcomeBack)], w.answers);
            Handle(cfg, w, m, AllUp) == Handle(cfg, back, m.(wasAway := false), AllUp)
  {
    var back := World(w.session, Outbox(w.outbox.rows + {(m.id, Back)}, w.outbox.delivered + [(m.id, Back)]),
                      w.trace + [Shown(WelcomeBack)], w.answers);
    if s.data.pending.None? { AwayIsIrrelevant(cfg, back, m, s); }
  }

  lemma AwayIsIrrelevant(cfg: Config, w: World, m: Inbound, s: Session)
    ensures Interpret(cfg, w, m, s, AllUp) == Interpret(cfg, w, m.(wasAway := false), s, AllUp)
  {
  }

  // The name is the trimmed text, at least two characters, cut at sixty.
  lemma NameAnswer(cfg: Config, w: World, d: Data, m: Inbound)
    requires Heard(w, AwaitingName, d, m)
    ensures var t, msg := Handle(cfg, w, m, AllUp), Strip(m.text);
            if |msg| < 2 then Stays(cfg, w, t, m, [NameTooShort])
            else
              var name := if |msg| <= 60 then msg else msg[..60];
              Leads(t, AwaitingCategory, d.(name := Some(name)), CategoryMenu(name))
  {
    var s, msg := Session(AwaitingName, d), Strip(m.text);
    SaysOne(cfg, w, s, m, NameTooShort);
    if |msg| >= 2 {
      var name := if |msg| <= 60 then msg else msg[..60];
      AdvanceUp(Read(cfg, w, s, msg), AwaitingCategory, d.(name := Some(name)), CategoryMenu(name), m.id);
    }
  }

  // The seven categories.
  lemma CategoryAnswer(cfg: Config, w: World, d: Data, m: Inbound)
    requires Heard(w, AwaitingCategory, d, m) && !d.awaitingOther
    ensures var t, msg := Handle(cfg, w, m, AllUp), Strip(m.text);
            && (msg == "1" ==> Picks(t, d, "provisions")) && (msg == "2" ==> Picks(t, d, "fabric"))
            && (msg == "3" ==> Picks(t, d, "food")) && (msg == "4" ==> Picks(t, d, "electronics"))
            && (msg == "5" ==> Picks(t, d, "cosmetics")) && (msg == "6" ==> Picks(t, d, "building"))
            && (msg == "7" ==>
                  Leads(t, AwaitingCategory, d.(category := Some("other"), awaitingOther := true), DescribeOther))
            && (msg !in {"1", "2", "3", "4", "5", "6", "7"} ==> Stays(cfg, w, t, m, [PickCategory]))
  {
    var s, msg := Session(AwaitingCategory, d), Strip(m.text);
    var w1 := Read(cfg, w, s, msg);
    SaysOne(cfg, w, s, m, PickCategory);
    assert CATEGORIES.Keys == {"1", "2", "3", "4", "5", "6", "7"};
    if msg in CATEGORIES { CategoryPicked(w1, d, msg, m.id); }
  }

  ghost predicate Picks(t: World, d: Data, category: string) {
    Leads(t, AwaitingCatalogue, d.(category := Some(category)), CatalogueMenu(category))
  }

  lemma CategoryPicked(w: World, d: Data, msg: string, id: string)
    requires msg in CATEGORIES && !d.awaitingOther && d.pending.None? && (id, Plain) !in w.outbox.rows
    ensures var t := CategoryStep(w, msg, d, id, AllUp);
            if msg == "7"
            then Leads(t, AwaitingCategory, d.(category := Some("other"), awaitingOther := true), DescribeOther)
            else CATEGORIES[msg] != "other" && Picks(t, d, CATEGORIES[msg])
  {
    var data := d.(category := Some(CATEGORIES[msg]));
    AdvanceUp(w, AwaitingCategory, data.(awaitingOther := true), DescribeOther, id);
    AdvanceUp(w, AwaitingCatalogue, data, CatalogueMenu(CATEGORIES[msg]), id);
  }

  // The description of another business is the trimmed text cut at two hundred.
  lemma DescriptionAnswer(cfg: Config, w: World, d: Data, m: Inbound)
    requires Heard(w, AwaitingCategory, d, m) && d.awaitingOther
    ensures var t, msg := Handle(cfg, w, m, AllUp), Strip(m.text);
            var desc := if |msg| <= 200 then msg else msg[..200];
            Leads(t, AwaitingCatalogue, d.(awaitingOther := false, description := Some(desc)), CatalogueMenu("noted"))
  {
    var s, msg := Session(AwaitingCategory, d), Strip(m.text);
    var desc := if |msg| <= 200 then msg else msg[..200];
    AdvanceUp(Read(cfg, w, s, msg), AwaitingCatalogue, d.(awaitingOther := false, description := Some(desc)),
              CatalogueMenu("noted"), m.id);
  }

  // Where a choice of path leads, from the catalogue menu or from a media step.
  ghost predicate PathTaken(cfg: Config, w: World, t: World, d: Data, m: Inbound, msg: string) {
    var items := ItemsOf(cfg, d.category);
    && (msg == "1" ==> Leads(t, AwaitingPhoto, d, SendPhoto))
    && (msg == "2" ==> Leads(t, AwaitingVoice, d, SendVoice))
    && (msg == "3" && items != [] ==>
          Leads(t, QaInProgress, d.(qaIndex := 0, qaPrices := map[]), Question(items[0])) && t.answers == [])
    && (msg == "3" && items == [] ==> Stays(cfg, w, t, m, []))
    && (msg == "4" ==> Stays(cfg, w, t, m, []))
    && (msg == "back" ==> Leads(t, AwaitingCatalogue, d, PathMenu))
  }

  lemma PathStepTakes(cfg: Config, w: World, s: Session, m: Inbound, msg: string)
    requires Open(w, s) && NewId(w, m.id) && msg == Strip(m.text)
    ensures var t := CatalogueStep(cfg, Read(cfg, w, s, msg), msg, s.data, m.id, AllUp);
            && PathTaken(cfg, w, t, s.data, m, msg)
            && (msg !in {"1", "2", "3", "4", "back"} ==> Stays(cfg, w, t, m, [PickPath]))
  {
    var w1, d, items := Read(cfg, w, s, msg), s.data, ItemsOf(cfg, s.data.category);
    SaysOne(cfg, w, s, m, PickPath);
    SaysNothing(cfg, w, s, m);
    AdvanceUp(w1, AwaitingPhoto, d, SendPhoto, m.id);
    AdvanceUp(w1, AwaitingVoice, d, SendVoice, m.id);
    AdvanceUp(w1, AwaitingCatalogue, d, PathMenu, m.id);
    if items != [] {
      AdvanceUp(w1.(answers := []), QaInProgress, d.(qaIndex := 0, qaPrices := map[]), Question(items[0]), m.id);
    }
  }

  lemma PathAnswer(cfg: Config, w: World, d: Data, m: Inbound)
    requires Heard(w, AwaitingCatalogue, d, m)
    ensures var t, msg := Handle(cfg, w, m, AllUp), Strip(m.text);
            && PathTaken(cfg, w, t, d, m, msg)
            && (msg !in {"1", "2", "3", "4", "back"} ==> Stays(cfg, w, t, m, [PickPath]))
  {
    PathStepTakes(cfg, w, Session(AwaitingCatalogue, d), m, Strip(m.text));
  }

  // At a media step the paths stay open; anything but the awaited medium is refused, and an
  // empty reading leads back to the catalogue menu.
  lemma MediaAnswer(cfg: Config, w: World, d: Data, m: Inbound, want: Media)
    requires Heard(w, if want.Photo? then AwaitingPhoto else AwaitingVoice, d, m)
    ensures var t, msg := Handle(cfg, w, m, AllUp), Strip(m.text);
            var awaited := m.hasMedia && msg == (if want.Photo? then "[image]" else "[audio]");
            && PathTaken(cfg, w, t, d, m, msg)
            && (msg !in {"1", "2", "3", "4", "back"} && !awaited ==> Stays(cfg, w, t, m, [WrongMedia(want)]))
            && (awaited && !m.extracted ==> Leads(t, AwaitingCatalogue, d, NothingFound(want)))
            && (awaited && m.extracted ==> Stays(cfg, w, t, m, [Processing(want)]))
  {
    var s, msg := Session(if want.Photo? then AwaitingPhoto else AwaitingVoice, d), Strip(m.text);
    assert Handle(cfg, w, m, AllUp) == MediaStep(cfg, Read(cfg, w, s, msg), m, msg, d, want, AllUp);
    NotAPath();
    if msg in {"1", "2", "3", "4", "back"} {
      PathStepTakes(cfg, w, s, m, msg);
    } else {
      MediaStepTakes(cfg, w, s, m, msg, want);
    }
  }

  lemma NotAPath()
    ensures "[image]" !in {"1", "2", "3", "4", "back"} && "[audio]" !in {"1", "2", "3", "4", "back"}
  {
    assert |"[image]"| == 7 && |"[audio]"| == 7;
  }

  lemma MediaStepTakes(cfg: Config, w: World, s: Session, m: Inbound, msg: string, want: Media)
    requires Open(w, s) && NewId(w, m.id) && msg == Strip(m.text) && msg !in {"1", "2", "3", "4", "back"}
    ensures var t := MediaStep(cfg, Read(cfg, w, s, msg), m, msg, s.data, want, AllUp);
            var awaited := m.hasMedia && msg == (if want.Photo? then "[image]" else "[audio]");
            && (!awaited ==> Stays(cfg, w, t, m, [WrongMedia(want)]))
            && (awaited && !m.extracted ==> Leads(t, AwaitingCatalogue, s.data, NothingFound(want)))
            && (awaited && m.extracted ==> Stays(cfg, w, t, m, [Processing(want)]))
  {
    var w1 := Read(cfg, w, s, msg);
    SaysOne(cfg, w, s, m, WrongMedia(want));
    ReplyUp(w1, (m.id, Ack), Processing(want));
    assert Shows([Processing(want)]) == [Shown(Processing(want))];
    AdvanceUp(Reply(w1, (m.id, Ack), Processing(want), true).0, AwaitingCatalogue, s.data, NothingFound(want), m.id);
  }

  // In the Q&A five words in any case end it early, and so does the last answer.
  lemma QaEnds(cfg: Config, w: World, d: Data, m: Inbound)
    requires Heard(w, QaInProgress, d, m)
    ensures var t, word := Handle(cfg, w, m, AllUp), Lower(Strip(m.text));
            if word == "0" || word == "skip" || word == "s" || word == "done" || word == "finish" then
              Stays(cfg, w, t, m, [DoneEarly])
            else d.qaIndex + 1 >= |ItemsOf(cfg, d.category)| ==> Stays(cfg, w, t, m, [])
  {
    var s := Session(QaInProgress, d);
    SaysOne(cfg, w, s, m, DoneEarly);
    SaysNothing(cfg, w, s, m);
  }

  // After every fifth answer the trader is told how far they have come.
  lemma QaCheckpoint(cfg: Config, w: World, d: Data, m: Inbound)
    requires Heard(w, QaInProgress, d, m) && PlainAnswer(m) && d.qaIndex + 1 < |ItemsOf(cfg, d.category)|
    ensures var items, n := ItemsOf(cfg, d.category), d.qaIndex + 1;
            Handle(cfg, w, m, AllUp).trace ==
              w.trace + [Interpreted(QaInProgress, Some(items[d.qaIndex]), Strip(m.text))]
              + (if n % 5 == 0 then [Shown(Checkpoint(n, |items|))] else [])
              + [Asked(Question(items[n])), Shown(Question(items[n]))]
  {
    HandleIsQa(cfg, w, d, m);
    var items, n, msg := ItemsOf(cfg, d.category), d.qaIndex + 1, Strip(m.text);
    var w1 := w.(trace := w.trace + [Interpreted(QaInProgress, Some(items[d.qaIndex]), msg)]);
    ReplyUp(w1, (m.id, Progress), Checkpoint(n, |items|));
    var w2 := if n % 5 == 0 then Reply(w1, (m.id, Progress), Checkpoint(n, |items|), true).0 else w1;
    assert w1.trace + [] == w1.trace;
    var data := d.(qaIndex := n, qaPrices := Priced(cfg, d.qaPrices, items[d.qaIndex], msg));
    AdvanceTrace(w2.(answers := w.answers + [msg]), QaInProgress, data, Question(items[n]), m.id);
  }

  lemma AdvanceTrace(w: World, step: Step, data: Data, prompt: Say, id: string)
    requires (id, Plain) !in w.outbox.rows
    ensures Advance(w, step, data, prompt, id, AllUp).trace == w.trace + [Asked(prompt), Shown(prompt)]
  {
    assert w.trace + [Asked(prompt)] + [Shown(prompt)] == w.trace + [Asked(prompt), Shown(prompt)];
  }

  lemma AdvanceDown(w: World, step: Step, data: Data, prompt: Say, id: string)
    requires (id, Plain) !in w.outbox.rows
    ensures Advance(w, step, data, prompt, id, AllDown).session == Some(Session(step, data.(pending := Some(prompt))))
  {
  }

  // The same step with the prompt still to be shown.
  ghost predicate Stores(t: World, step: Step, d: Data, prompt: Say) {
    t.session == Some(Session(step, d.(pending := Some(prompt))))
  }

  // When WhatsApp takes no reply, the step a message leads to is stored together with its
  // prompt, and a message that leads nowhere changes nothing.
  lemma FailedMoveIsStored(cfg: Config, w: World, s: Session, m: Inbound)
    requires Open(w, s) && !m.knownTrader && !m.wasAway && NewId(w, m.id)
    ensures var up, down := Handle(cfg, w, m, AllUp), Handle(cfg, w, m, AllDown);
            if Moves(cfg, s, m) then
              && up.session.Some? && Showing(up.trace).Some?
              && Stores(down, up.session.value.step, up.session.value.data, Showing(up.trace).value.0)
            else up.session == w.session && down.session == w.session
  {
    var w1, d, msg := Read(cfg, w, s, Strip(m.text)), s.data, Strip(m.text);
    match s.step
    case AwaitingName =>
      var name := if |msg| > 60 then msg[..60] else msg;
      AdvanceBoth(w1, w1, AwaitingCategory, d.(name := Some(name)), CategoryMenu(name), m.id);
    case AwaitingCategory => CategoryBoth(w1, msg, d, m.id);
    case AwaitingCatalogue => CatalogueBoth(cfg, w1, msg, d, m.id);
    case AwaitingPhoto => MediaBoth(cfg, w1, m, msg, d, Photo);
    case AwaitingVoice => MediaBoth(cfg, w1, m, msg, d, VoiceNote);
    case QaInProgress => QaBoth(cfg, w1, msg, d, m.id);
    case _ =>
  }

  // Up and down from worlds that differ only in what has been said.
  ghost predicate Both(up: World, down: World) {
    && up.session.Some? && Showing(up.trace).Some?
    && Stores(down, up.session.value.step, up.session.value.data, Showing(up.trace).value.0)
  }

  lemma AdvanceBoth(w: World, w': World, step: Step, data: Data, prompt: Say, id: string)
    requires (id, Plain) !in w.outbox.rows && (id, Plain) !in w'.outbox.rows
    ensures Both(Advance(w, step, data, prompt, id, AllUp), Advance(w', step, data, prompt, id, AllDown))
  {
    AdvanceUp(w, step, data, prompt, id);
    AdvanceDown(w', step, data, prompt, id);
  }

  lemma CategoryBoth(w: World, msg: string, d: Data, id: string)
    requires (id, Plain) !in w.outbox.rows
    ensures var up, down := CategoryStep(w, msg, d, id, AllUp), CategoryStep(w, msg, d, id, AllDown);
            if CategoryMoves(msg, d) then Both(up, down) else up.session == w.session && down.session == w.session
  {
    if d.awaitingOther {
      var desc := if |msg| > 200 then msg[..200] else msg;
      AdvanceBoth(w, w, AwaitingCatalogue, d.(awaitingOther := false, description := Some(desc)),
                  CatalogueMenu("noted"), id);
    } else if msg in CATEGORIES {
      var data := d.(category := Some(CATEGORIES[msg]));
      AdvanceBoth(w, w, AwaitingCategory, data.(awaitingOther := true), DescribeOther, id);
      AdvanceBoth(w, w, AwaitingCatalogue, data, CatalogueMenu(CATEGORIES[msg]), id);
    }
  }

  lemma CatalogueBoth(cfg: Config, w: World, msg: string, d: Data, id: string)
    requires (id, Plain) !in w.outbox.rows
    ensures var up, down := CatalogueStep(cfg, w, msg, d, id, AllUp), CatalogueStep(cfg, w, msg, d, id, AllDown);
            if CatalogueMoves(cfg, msg, d) then Both(up, down)
            else up.session == w.session && down.session == w.session
  {
    var items := ItemsOf(cfg, d.category);
    AdvanceBoth(w, w, AwaitingPhoto, d, SendPhoto, id);
    AdvanceBoth(w, w, AwaitingVoice, d, SendVoice, id);
    AdvanceBoth(w, w, AwaitingCatalogue, d, PathMenu, id);
    if items != [] {
      var w1 := w.(answers := []);
      AdvanceBoth(w1, w1, QaInProgress, d.(qaIndex := 0, qaPrices := map[]), Question(items[0]), id);
    }
  }

  lemma MediaBoth(cfg: Config, w: World, m: Inbound, msg: string, d: Data, want: Media)
    requires NewId(w, m.id)
    ensures var up, down := MediaStep(cfg, w, m, msg, d, want, AllUp), MediaStep(cfg, w, m, msg, d, want, AllDown);
            if MediaMoves(cfg, m, msg, d, want) then Both(up, down)
            else up.session == w.session && down.session == w.session
  {
    if msg in {"1", "2", "3", "4", "back"} {
      CatalogueBoth(cfg, w, msg, d, m.id);
    } else {
      ReplyUp(w, (m.id, Ack), Processing(want));
      AdvanceBoth(Reply(w, (m.id, Ack), Processing(want), true).0, w, AwaitingCatalogue, d, NothingFound(want), m.id);
    }
  }

  lemma QaBoth(cfg: Config, w: World, msg: string, d: Data, id: string)
    requires NewId(w, id)
    ensures var up, down := QaStep(cfg, w, msg, d, id, AllUp), QaStep(cfg, w, msg, d, id, AllDown);
            if QaMoves(cfg, msg, d) then Both(up, down) else up.session == w.session && down.session == w.session
  {
    if QaMoves(cfg, msg, d) {
      var items, n := ItemsOf(cfg, d.category), d.qaIndex + 1;
      var data := d.(qaIndex := n, qaPrices := Priced(cfg, d.qaPrices, items[d.qaIndex], msg));
      ReplyUp(w, (id, Progress), Checkpoint(n, |items|));
      var up := if n % CHECKPOINT_EVERY == 0
                then Reply(w, (id, Progress), Checkpoint(n, |items|), true).0 else w;
      AdvanceBoth(up.(answers := w.answers + [msg]), w.(answers := w.answers + [msg]), QaInProgress, data,
                  Question(items[n]), id);
    }
  }

  // ---------------------------------------------------------------- repeated message ids

  // A message that is handled twice moves the conversation on without showing the second
  // prompt, and the next message is then read against a prompt the trader never saw.
  lemma RepeatedMessageSkipsPrompt(cfg: Config, w: World, d: Data, m: Inbound, next: Inbound, up: Suffix -> bool)
    requires w.session == Some(Session(AwaitingCategory, d)) && d.pending.None? && !d.awaitingOther
    requires (m.id, Plain) !in w.outbox.rows && up(Plain)
    requires !m.knownTrader && !m.wasAway && m.text == "1" && !next.knownTrader && !next.wasAway
    ensures var t := Handle(cfg, Handle(cfg, w, m, up), m, up);
            && t.session == Some(Session(AwaitingPhoto, d.(category := Some("provisions"))))
            && Showing(t.trace) == Some((SendPhoto, false))
            && !OnlyInformed(Handle(cfg, t, next, up).trace)
  {
    StripTrimmed("1");
    var w1 := Handle(cfg, w, m, up);
    var data := d.(category := Some("provisions"));
    assert w1.session == Some(Session(AwaitingCatalogue, data)) && (m.id, Plain) in w1.outbox.rows;
    var t := Handle(cfg, w1, m, up);
    var read := w1.trace + [Interpreted(AwaitingCatalogue, None, "1")];
    assert t.trace == read + [Asked(SendPhoto)];
    ShowingAppend(read, Asked(SendPhoto));
    UninformedRead(cfg, t, next, Session(AwaitingPhoto, data), up);
  }

  // A message read while the current prompt has not been shown.
  lemma UninformedRead(cfg: Config, w: World, m: Inbound, s: Session, up: Suffix -> bool)
    requires Open(w, s) && !m.knownTrader && !m.wasAway
    requires Showing(w.trace).Some? && !Showing(w.trace).value.1
    ensures !OnlyInformed(Handle(cfg, w, m, up).trace)
  {
    var e := Interpreted(s.step, About(cfg, s), Strip(m.text));
    var t := Handle(cfg, w, m, up).trace;
    InterpretGrows(cfg, w, m, s, up);
    assert t[|w.trace|] == e && t[..|w.trace|] == w.trace;
  }

  lemma ReplyGrows(w: World, id: ReplyId, say: Say, up: bool)
    ensures w.trace <= Reply(w, id, say, up).0.trace
  {
  }

  lemma AdvanceGrows(w: World, step: Step, data: Data, prompt: Say, id: string, up: Suffix -> bool)
    ensures w.trace <= Advance(w, step, data, prompt, id, up).trace
  {
  }

  lemma NameGrows(w: World, msg: string, d: Data, id: string, up: Suffix -> bool)
    ensures w.trace <= NameStep(w, msg, d, id, up).trace
  {
    var name := if |msg| > 60 then msg[..60] else msg;
    ReplyGrows(w, (id, Plain), NameTooShort, up(Plain));
    AdvanceGrows(w, AwaitingCategory, d.(name := Some(name)), CategoryMenu(name), id, up);
  }

  lemma CategoryGrows(w: World, msg: string, d: Data, id: string, up: Suffix -> bool)
    ensures w.trace <= CategoryStep(w, msg, d, id, up).trace
  {
    if d.awaitingOther {
      var desc := if |msg| > 200 then msg[..200] else msg;
      var data := d.(awaitingOther := false, description := Some(desc));
      AdvanceGrows(w, AwaitingCatalogue, data, CatalogueMenu("noted"), id, up);
    } else if msg !in CATEGORIES {
      ReplyGrows(w, (id, Plain), PickCategory, up(Plain));
    } else {
      var data := d.(category := Some(CATEGORIES[msg]));
      AdvanceGrows(w, AwaitingCategory, data.(awaitingOther := true), DescribeOther, id, up);
      AdvanceGrows(w, AwaitingCatalogue, data, CatalogueMenu(CATEGORIES[msg]), id, up);
    }
  }

  lemma CatalogueGrows(cfg: Config, w: World, msg: string, d: Data, id: string, up: Suffix -> bool)
    ensures w.trace <= CatalogueStep(cfg, w, msg, d, id, up).trace
  {
    var items := ItemsOf(cfg, d.category);
    ReplyGrows(w, (id, Plain), PickPath, up(Plain));
    AdvanceGrows(w, AwaitingPhoto, d, SendPhoto, id, up);
    AdvanceGrows(w, AwaitingVoice, d, SendVoice, id, up);
    AdvanceGrows(w, AwaitingCatalogue, d, PathMenu, id, up);
    if items != [] {
      AdvanceGrows(w.(answers := []), QaInProgress, d.(qaIndex := 0, qaPrices := map[]), Question(items[0]), id, up);
    }
  }

  lemma MediaGrows(cfg: Config, w: World, m: Inbound, msg: string, d: Data, want: Media, up: Suffix -> bool)
    ensures w.trace <= MediaStep(cfg, w, m, msg, d, want, up).trace
  {
    if msg in {"1", "2", "3", "4", "back"} {
      CatalogueGrows(cfg, w, msg, d, m.id, up);
    } else {
      var w1 := Reply(w, (m.id, Ack), Processing(want), up(Ack)).0;
      ReplyGrows(w, (m.id, Ack), Processing(want), up(Ack));
      ReplyGrows(w, (m.id, Plain), WrongMedia(want), up(Plain));
      AdvanceGrows(w1, AwaitingCatalogue, d, NothingFound(want), m.id, up);
    }
  }

  lemma QaGrows(cfg: Config, w: World, msg: string, d: Data, id: string, up: Suffix -> bool)
    ensures w.trace <= QaStep(cfg, w, msg, d, id, up).trace
  {
    var items, next := ItemsOf(cfg, d.category), d.qaIndex + 1;
    ReplyGrows(w, (id, Plain), DoneEarly, up(Plain));
    if next < |items| {
      var w1 := if next % CHECKPOINT_EVERY == 0
                then Reply(w, (id, Progress), Checkpoint(next, |items|), up(Progress)).0 else w;
      ReplyGrows(w, (id, Progress), Checkpoint(next, |items|), up(Progress));
      AdvanceGrows(w1.(answers := w.answers + [msg]), QaInProgress,
                   d.(qaIndex := next, qaPrices := Priced(cfg, d.qaPrices, items[d.qaIndex], msg)),
                   Question(items[next]), id, up);
    }
  }

  lemma InterpretGrows(cfg: Config, w: World, m: Inbound, s: Session, up: Suffix -> bool)
    ensures w.trace + [Interpreted(s.step, About(cfg, s), Strip(m.text))] <= Interpret(cfg, w, m, s, up).trace
  {
    var msg := Strip(m.text);
    var w1 := w.(trace := w.trace + [Interpreted(s.step, About(cfg, s), msg)]);
    match s.step
    case AwaitingName => NameGrows(w1, msg, s.data, m.id, up);
    case AwaitingCategory => CategoryGrows(w1, msg, s.data, m.id, up);
    case AwaitingCatalogue => CatalogueGrows(cfg, w1, msg, s.data, m.id, up);
    case AwaitingPhoto => MediaGrows(cfg, w1, m, msg, s.data, Photo, up);
    case AwaitingVoice => MediaGrows(cfg, w1, m, msg, s.data, VoiceNote, up);
    case QaInProgress => QaGrows(cfg, w1, msg, s.data, m.id, up);
    case AwaitingPhotoConfirmation =>
    case AwaitingVoiceConfirmation =>
  }

  // Whatever message comes next, only informed ones have been read.
  ghost predicate Probed(cfg: Config, w: World) {
    forall m, up :: OnlyInformed(Handle(cfg, w, m, up).trace)
  }

  lemma ProbedExactly(cfg: Config, w: World)
    requires BaseInv(cfg, w) && OnlyInformed(w.trace)
    ensures Probed(cfg, w) <==> Seen(w)
  {
    if Seen(w) {
      forall m, up ensures OnlyInformed(Handle(cfg, w, m, up).trace) { HandleKeeps(cfg, w, m, up); }
    } else {
      var m := Inbound("", "", false, false, false, false, false);
      UninformedRead(cfg, w, m, w.session.value, AllUp);
    }
  }

  ghost predicate ProbedThroughout(cfg: Config, w: World, acts: seq<Action>) {
    forall k :: 0 <= k <= |acts| ==> Probed(cfg, Exec(cfg, w, acts[..k]))
  }

  lemma ProbedFirst(cfg: Config, w: World, acts: seq<Action>)
    requires acts != []
    ensures ProbedThroughout(cfg, w, acts) <==>
            Probed(cfg, w) && ProbedThroughout(cfg, Next(cfg, w, acts[0]), acts[1..])
  {
    var t, rest := Next(cfg, w, acts[0]), acts[1..];
    assert acts[..0] == [];
    forall k | 0 <= k <= |rest| ensures Exec(cfg, w, acts[..k + 1]) == Exec(cfg, t, rest[..k]) {
      assert acts[..k + 1][0] == acts[0] && acts[..k + 1][1..] == rest[..k];
    }
    if ProbedThroughout(cfg, w, acts) {
      assert Probed(cfg, Exec(cfg, w, acts[..0]));
      forall k | 0 <= k <= |rest| ensures Probed(cfg, Exec(cfg, t, rest[..k])) {
        assert Probed(cfg, Exec(cfg, w, acts[..k + 1]));
      }
    }
    if Probed(cfg, w) && ProbedThroughout(cfg, t, rest) {
      forall k | 0 <= k <= |acts| ensures Probed(cfg, Exec(cfg, w, acts[..k])) {
        if k > 0 { assert Probed(cfg, Exec(cfg, t, rest[..k - 1])); }
      }
    }
  }

  // MAIN: at every point of a run, only informed messages have been read whichever message
  // comes next, if and only if no message of the run clears a prompt unseen.
  lemma {:induction false} InformedExactly(cfg: Config, w: World, acts: seq<Action>)
    requires Inv(cfg, w)
    ensures ProbedThroughout(cfg, w, acts) <==> NeverUnseen(cfg, w, acts)
    decreases |acts|
  {
    ProbedExactly(cfg, w);
    if acts == [] {
      assert acts[..0] == [];
    } else {
      var t := Next(cfg, w, acts[0]);
      NextKeeps(cfg, w, acts[0]);
      ProbedFirst(cfg, w, acts);
      if Inv(cfg, t) {
        InformedExactly(cfg, t, acts[1..]);
      } else {
        ProbedExactly(cfg, t);
        assert acts[1..][..0] == [];
        assert Exec(cfg, t, acts[1..][..0]) == t;
      }
    }
  }

  // The other clearing place: a repeated message finds the id of its own reprompt taken, and
  // the menu stored meanwhile is cleared although it was never shown.
  lemma RepeatedRepromptSkipsPrompt(cfg: Config)
    ensures exists acts :: MenuCleared(Exec(cfg, START, acts))
  {
    var a := Inbound("a", "hi", false, true, false, false, false);
    var b := Inbound("b", "hi", false, true, false, false, false);
    var c := Inbound("c", "Ada", false, false, false, false, false);
    var d := EMPTY_DATA;
    var w1 := Handle(cfg, START, a, AllDown);
    assert w1 == World(Some(Session(AwaitingName, d.(pending := Some(Welcome)))), Outbox({}, []), [Asked(Welcome)], []);
    var w2 := Handle(cfg, w1, b, AllUp);
    var rows := Outbox({("b", Reprompt)}, [("b", Reprompt)]);
    assert w2 == World(Some(Session(AwaitingName, d)), rows, [Asked(Welcome), Shown(Welcome)], []);
    StripTrimmed("Ada");
    var w3 := Handle(cfg, w2, c, AllDown);
    var read := w2.trace + [Interpreted(AwaitingName, None, "Ada")];
    var named := d.(name := Some("Ada"));
    assert w3 == World(Some(Session(AwaitingCategory, named.(pending := Some(CategoryMenu("Ada"))))), rows,
                       read + [Asked(CategoryMenu("Ada"))], []);
    ShowingAppend(read, Asked(CategoryMenu("Ada")));
    assert MenuCleared(Handle(cfg, w3, b, AllUp));
    FourMessages(cfg, START, Message(a, AllDown), Message(b, AllUp), Message(c, AllDown), Message(b, AllUp));
  }

  predicate MenuCleared(w: World) {
    && w.session.Some? && w.session.value.step.AwaitingCategory? && w.session.value.data.pending.None?
    && Showing(w.trace) == Some((CategoryMenu("Ada"), false))
  }

  function AllDown(s: Suffix): bool { false }

  lemma FourMessages(cfg: Config, w: World, a: Action, b: Action, c: Action, d: Action)
    ensures Exec(cfg, w, [a, b, c, d]) == Next(cfg, Next(cfg, Next(cfg, Next(cfg, w, a), b), c), d)
  {
    assert [a, b, c, d][1..] == [b, c, d] && [b, c, d][1..] == [c, d] && [c, d][1..] == [d] && [d][1..] == [];
    var w3 := Next(cfg, Next(cfg, Next(cfg, w, a), b), c);
    assert Exec(cfg, w3, [d]) == Exec(cfg, Next(cfg, w3, d), []);
    assert Exec(cfg, Next(cfg, w, a), [b, c, d]) == Exec(cfg, Next(cfg, Next(cfg, w, a), b), [c, d]);
  }

  /** The service object: it overwrites the Redis session step by step. */
  class OnboardingService {
    const cfg: Config
    var session: Option<Session>
    var outbox: Outbox<ReplyId>
    ghost var trace: seq<Event>
    ghost var answers: seq<string>

    ghost function State(): World
      reads this
    {
      World(session, outbox, trace, answers)
    }

    constructor (cfg: Config)
      ensures this.cfg == cfg && State() == START
    {
      this.cfg := cfg;
      session, outbox, trace, answers := None, Outbox({}, []), [], [];
    }

    method Tell(id: ReplyId, say: Say, up: bool) returns (ok: bool)
      modifies this
      ensures (State(), ok) == Reply(old(State()), id, say, up)
    {
      if id in outbox.rows { return true; }
      if !up { return false; }
      outbox := Outbox(outbox.rows + {id}, outbox.delivered + [id]);
      trace := trace + [Shown(say)];
      return true;
    }

    method MoveTo(step: Step, data: Data, prompt: Say, id: string, up: Suffix -> bool)
      modifies this
      ensures State() == Advance(old(State()), step, data, prompt, id, up)
    {
      session := Some(Session(step, data.(pending := Some(prompt))));
      trace := trace + [Asked(prompt)];
      var ok := Tell((id, Plain), prompt, up(Plain));
      if ok {
        session := Some(Session(step, data.(pending := None)));
      }
    }

    method HandleName(msg: string, d: Data, id: string, up: Suffix -> bool)
      modifies this
      ensures State() == NameStep(old(State()), msg, d, id, up)
    {
      if |msg| < 2 {
        var _ := Tell((id, Plain), NameTooShort, up(Plain));
        return;
      }
      var name := if |msg| > 60 then msg[..60] else msg;
      MoveTo(AwaitingCategory, d.(name := Some(name)), CategoryMenu(name), id, up);
    }

    method HandleCategory(msg: string, d: Data, id: string, up: Suffix -> bool)
      modifies this
      ensures State() == CategoryStep(old(State()), msg, d, id, up)
    {
      if d.awaitingOther {
        var desc := if |msg| > 200 then msg[..200] else msg;
        var data := d.(awaitingOther := false, description := Some(desc));
        MoveTo(AwaitingCatalogue, data, CatalogueMenu("noted"), id, up);
        return;
      }
      if msg !in CATEGORIES {
        var _ := Tell((id, Plain), PickCategory, up(Plain));
        return;
      }
      var category := CATEGORIES[msg];
      var data := d.(category := Some(category));
      if category == "other" {
        MoveTo(AwaitingCategory, data.(awaitingOther := true), DescribeOther, id, up);
      } else {
        MoveTo(AwaitingCatalogue, data, CatalogueMenu(category), id, up);
      }
    }

    method HandleCatalogueChoice(msg: string, d: Data, id: string, up: Suffix -> bool)
      modifies this
      ensures State() == CatalogueStep(cfg, old(State()), msg, d, id, up)
    {
      if msg == "1" {
        MoveTo(AwaitingPhoto, d, SendPhoto, id, up);
      } else if msg == "2" {
        MoveTo(AwaitingVoice, d, SendVoice, id, up);
      } else if msg == "3" {
        var items := ItemsOf(cfg, d.category);
        if items != [] {
          answers := [];
          MoveTo(QaInProgress, d.(qaIndex := 0, qaPrices := map[]), Question(items[0]), id, up);
        }
      } else if msg == "4" {
        // completion stops before it clears the session
      } else if msg == "back" {
        MoveTo(AwaitingCatalogue, d, PathMenu, id, up);
      } else {
        var _ := Tell((id, Plain), PickPath, up(Plain));
      }
    }

    method HandleMedia(m: Inbound, msg: string, d: Data, want: Media, up: Suffix -> bool)
      modifies this
      ensures State() == MediaStep(cfg, old(State()), m, msg, d, want, up)
    {
      if msg in {"1", "2", "3", "4", "back"} {
        HandleCatalogueChoice(msg, d, m.id, up);
      } else if !m.hasMedia || msg != (if want.Photo? then "[image]" else "[audio]") {
        var _ := Tell((m.id, Plain), WrongMedia(want), up(Plain));
      } else {
        var _ := Tell((m.id, Ack), Processing(want), up(Ack));
        if !m.extracted {
          MoveTo(AwaitingCatalogue, d, NothingFound(want), m.id, up);
        }
      }
    }

    method HandleQa(msg: string, d: Data, id: string, up: Suffix -> bool)
      modifies this
      ensures State() == QaStep(cfg, old(State()), msg, d, id, up)
    {
      var items := ItemsOf(cfg, d.category);
      if Lower(msg) in SKIP_WORDS {
        var _ := Tell((id, Plain), DoneEarly, up(Plain));
        return;
      }
      var next := d.qaIndex + 1;
      if next >= |items| { return; }
      var prices := d.qaPrices;
      var price := cfg.price(msg);
      if price.Some? {
        prices := prices[items[d.qaIndex] := price.value];
      }
      if next % CHECKPOINT_EVERY == 0 {
        var _ := Tell((id, Progress), Checkpoint(next, |items|), up(Progress));
      }
      answers := answers + [msg];
      MoveTo(QaInProgress, d.(qaIndex := next, qaPrices := prices), Question(items[next]), id, up);
    }

    method HandleStep(m: Inbound, s: Session, up: Suffix -> bool)
      modifies this
      ensures State() == Interpret(cfg, old(State()), m, s, up)
    {
      var msg := Strip(m.text);
      trace := trace + [Interpreted(s.step, About(cfg, s), msg)];
      match s.step {
        case AwaitingName => HandleName(msg, s.data, m.id, up);
        case AwaitingCategory => HandleCategory(msg, s.data, m.id, up);
        case AwaitingCatalogue => HandleCatalogueChoice(msg, s.data, m.id, up);
        case AwaitingPhoto => HandleMedia(m, msg, s.data, Photo, up);
        case AwaitingVoice => HandleMedia(m, msg, s.data, VoiceNote, up);
        case QaInProgress => HandleQa(msg, s.data, m.id, up);
        case _ =>
      }
    }

    method HandleMessage(m: Inbound, up: Suffix -> bool)
      modifies this
      ensures State() == Handle(cfg, old(State()), m, up)
    {
      if m.knownTrader { return; }
      if session.None? {
        if m.trigger { MoveTo(AwaitingName, EMPTY_DATA, Welcome, m.id, up); }
        return;
      }
      var s := session.value;
      if m.wasAway {
        var _ := Tell((m.id, Back), WelcomeBack, up(Back));
      }
      if s.data.pending.Some? {
        var ok := Tell((m.id, Reprompt), s.data.pending.value, up(Reprompt));
        if ok { session := Some(Session(s.step, s.data.(pending := None))); }
        return;
      }
      HandleStep(m, s, up);
    }
  }
}
