/**
 * Moving a trader's orders, with their conversations, messages and scheduled
 * messages, from the shared platform tenant to the trader's own tenant.
 * `body` stands for the columns of a row that the migration does not name.
 */
module TenantMigration {
  import opened Basics

  datatype Order = Order(tenant: string, trader: Option<string>, conversation: string, body: string)

  datatype Conversation = Conversation(tenant: string, body: string)

  datatype Message = Message(tenant: string, conversation: string, body: string)

  datatype Db = Db(
    orders: map<string, Order>,
    conversations: map<string, Conversation>,
    messages: map<string, Message>,
    scheduled: map<string, Message>
  )

  // ---------------------------------------------------------------- the migration

  function OrderIds(db: Db, trader: string, from: string): set<string> {
    set id | id in db.orders && db.orders[id].tenant == from && db.orders[id].trader == Some(trader)
  }

  function ConversationIds(db: Db, trader: string, from: string): set<string> {
    set id | id in OrderIds(db, trader, from) :: db.orders[id].conversation
  }

  function MoveOrders(orders: map<string, Order>, ids: set<string>, to: string): map<string, Order> {
    map id | id in orders :: if id in ids then orders[id].(tenant := to) else orders[id]
  }

  function MoveConversations(rows: map<string, Conversation>, ids: set<string>, from: string, to: string)
    : map<string, Conversation>
  {
    map id | id in rows :: if id in ids && rows[id].tenant == from then rows[id].(tenant := to) else rows[id]
  }

  function MoveMessages(rows: map<string, Message>, ids: set<string>, from: string, to: string): map<string, Message> {
    map id | id in rows ::
      if rows[id].conversation in ids && rows[id].tenant == from then rows[id].(tenant := to) else rows[id]
  }

  function Migrate(db: Db, trader: string, from: string, to: string): Db {
    var ids, convs := OrderIds(db, trader, from), ConversationIds(db, trader, from);
    Db(MoveOrders(db.orders, ids, to),
       MoveConversations(db.conversations, convs, from, to),
       MoveMessages(db.messages, convs, from, to),
       MoveMessages(db.scheduled, convs, from, to))
  }

  // ---------------------------------------------------------------- what it keeps

  // Messages hang on existing conversations and carry their tenant.
  ghost predicate Agrees(rows: map<string, Message>, conversations: map<string, Conversation>) {
    forall id :: id in rows ==>
      rows[id].conversation in conversations && rows[id].tenant == conversations[rows[id].conversation].tenant
  }

  ghost predicate Coherent(db: Db) {
    Agrees(db.messages, db.conversations) && Agrees(db.scheduled, db.conversations)
  }

  lemma MoveKeepsAgreement(
    rows: map<string, Message>, convs: map<string, Conversation>, ids: set<string>, from: string, to: string)
    requires Agrees(rows, convs)
    ensures Agrees(MoveMessages(rows, ids, from, to), MoveConversations(convs, ids, from, to))
  {
  }

  // Only these rows change, and only in their tenant.
  ghost predicate OnlyMoves(db: Db, u: Db, trader: string, from: string, to: string) {
    && u.orders.Keys == db.orders.Keys && u.conversations.Keys == db.conversations.Keys
    && u.messages.Keys == db.messages.Keys && u.scheduled.Keys == db.scheduled.Keys
    && (forall id :: id in db.orders ==>
          u.orders[id] == (if db.orders[id].tenant == from && db.orders[id].trader == Some(trader)
                           then db.orders[id].(tenant := to) else db.orders[id]))
    && (forall id :: id in db.conversations && u.conversations[id] != db.conversations[id] ==>
          && db.conversations[id].tenant == from && Served(db, trader, from, id)
          && u.conversations[id] == db.conversations[id].(tenant := to))
    && (forall id :: id in db.messages && u.messages[id] != db.messages[id] ==>
          && db.messages[id].tenant == from && Served(db, trader, from, db.messages[id].conversation)
          && u.messages[id] == db.messages[id].(tenant := to))
    && (forall id :: id in db.scheduled && u.scheduled[id] != db.scheduled[id] ==>
          && db.scheduled[id].tenant == from && Served(db, trader, from, db.scheduled[id].conversation)
          && u.scheduled[id] == db.scheduled[id].(tenant := to))
  }

  // The trader has an order of the old tenant in this conversation.
  ghost predicate Served(db: Db, trader: string, from: string, conversation: string) {
    exists id :: id in db.orders && db.orders[id].tenant == from && db.orders[id].trader == Some(trader)
              && db.orders[id].conversation == conversation
  }

  lemma ServedIds(db: Db, trader: string, from: string, c: string)
    ensures c in ConversationIds(db, trader, from) <==> Served(db, trader, from, c)
  {
    if Served(db, trader, from, c) {
      var id :| id in db.orders && db.orders[id].tenant == from && db.orders[id].trader == Some(trader)
             && db.orders[id].conversation == c;
      assert id in OrderIds(db, trader, from);
    }
  }

  // MAIN: one migration keeps message and scheduled-message coherence, touches nothing but
  // the trader's rows, and leaves none of the trader's orders behind.
  lemma MigrateSound(db: Db, trader: string, from: string, to: string)
    requires Coherent(db)
    ensures var u := Migrate(db, trader, from, to);
            && Coherent(u) && OnlyMoves(db, u, trader, from, to)
            && (from != to ==> OrderIds(u, trader, from) == {})
  {
    var ids := ConversationIds(db, trader, from);
    MoveKeepsAgreement(db.messages, db.conversations, ids, from, to);
    MoveKeepsAgreement(db.scheduled, db.conversations, ids, from, to);
    forall c ensures c in ids <==> Served(db, trader, from, c) { ServedIds(db, trader, from, c); }
  }

  lemma NoMessagesMove(rows: map<string, Message>, from: string, to: string)
    ensures MoveMessages(rows, {}, from, to) == rows
  {
  }

  lemma NothingToMove(db: Db, trader: string, from: string, to: string)
    requires OrderIds(db, trader, from) == {}
    ensures Migrate(db, trader, from, to) == db
  {
    assert ConversationIds(db, trader, from) == {};
    assert MoveOrders(db.orders, {}, to) == db.orders;
    assert MoveConversations(db.conversations, {}, from, to) == db.conversations;
    NoMessagesMove(db.messages, from, to);
    NoMessagesMove(db.scheduled, from, to);
  }

  lemma NowhereToMove(db: Db, trader: string, from: string)
    ensures Migrate(db, trader, from, from) == db
  {
    var u := Migrate(db, trader, from, from);
    assert u.orders == db.orders;
    assert u.conversations == db.conversations;
    assert u.messages == db.messages;
    assert u.scheduled == db.scheduled;
  }

  // MAIN: repeating a migration changes nothing.
  lemma MigrateTwice(db: Db, trader: string, from: string, to: string)
    ensures Migrate(Migrate(db, trader, from, to), trader, from, to) == Migrate(db, trader, from, to)
  {
    var u := Migrate(db, trader, from, to);
    if from == to {
      NowhereToMove(u, trader, from);
    } else {
      assert OrderIds(u, trader, from) == {};
      NothingToMove(u, trader, from, to);
    }
  }

  // ---------------------------------------------------------------- orders and conversations

  ghost predicate OrdersAgree(db: Db) {
    forall id :: id in db.orders ==>
      && db.orders[id].conversation in db.conversations
      && db.orders[id].tenant == db.conversations[db.orders[id].conversation].tenant
  }

  // Somebody else's order of the old tenant sits in a conversation the trader takes along.
  ghost predicate Shared(db: Db, trader: string, from: string) {
    exists id :: id in db.orders && db.orders[id].tenant == from && db.orders[id].trader != Some(trader)
              && db.orders[id].conversation in ConversationIds(db, trader, from)
  }

  // The exact condition: orders still agree with their conversations afterwards if and only
  // if the trader shares no conversation with another trader's orders.
  lemma OrdersAgreeExactly(db: Db, trader: string, from: string, to: string)
    requires OrdersAgree(db) && from != to
    ensures OrdersAgree(Migrate(db, trader, from, to)) <==> !Shared(db, trader, from)
  {
    var u := Migrate(db, trader, from, to);
    var convs := ConversationIds(db, trader, from);
    if Shared(db, trader, from) {
      var id :| id in db.orders && db.orders[id].tenant == from && db.orders[id].trader != Some(trader)
             && db.orders[id].conversation in convs;
      assert u.orders[id].tenant == from;
      assert u.conversations[u.orders[id].conversation].tenant == to;
    } else {
      forall id | id in u.orders
        ensures u.orders[id].conversation in u.conversations
             && u.orders[id].tenant == u.conversations[u.orders[id].conversation].tenant
      {
        var c := db.orders[id].conversation;
        if id in OrderIds(db, trader, from) { assert c in convs; }
      }
    }
  }

  lemma OrdersCommute(rows: map<string, Order>, a: set<string>, b: set<string>, toA: string, toB: string)
    requires a !! b
    ensures MoveOrders(MoveOrders(rows, a, toA), b, toB) == MoveOrders(MoveOrders(rows, b, toB), a, toA)
  {
  }

  lemma ConversationsCommute(
    rows: map<string, Conversation>, a: set<string>, b: set<string>, from: string, toA: string, toB: string)
    requires a !! b
    ensures MoveConversations(MoveConversations(rows, a, from, toA), b, from, toB) ==
            MoveConversations(MoveConversations(rows, b, from, toB), a, from, toA)
  {
  }

  lemma MessagesCommute(
    rows: map<string, Message>, a: set<string>, b: set<string>, from: string, toA: string, toB: string)
    requires a !! b
    ensures MoveMessages(MoveMessages(rows, a, from, toA), b, from, toB) ==
            MoveMessages(MoveMessages(rows, b, from, toB), a, from, toA)
  {
  }

  lemma DisjointCommute(db: Db, a: string, b: string, from: string, toA: string, toB: string)
    requires a != b && from != toA && from != toB
    requires ConversationIds(db, a, from) !! ConversationIds(db, b, from)
    ensures Migrate(Migrate(db, a, from, toA), b, from, toB) == Migrate(Migrate(db, b, from, toB), a, from, toA)
  {
    var ca, cb := ConversationIds(db, a, from), ConversationIds(db, b, from);
    OthersIds(db, a, from, toA, b);
    OthersIds(db, b, from, toB, a);
    OrdersCommute(db.orders, OrderIds(db, a, from), OrderIds(db, b, from), toA, toB);
    ConversationsCommute(db.conversations, ca, cb, from, toA, toB);
    MessagesCommute(db.messages, ca, cb, from, toA, toB);
    MessagesCommute(db.scheduled, ca, cb, from, toA, toB);
  }

  // A conversation two traders share goes to the one who migrates first.
  lemma FirstComeFirstServed(db: Db, a: string, b: string, from: string, toA: string, toB: string, c: string)
    requires OrdersAgree(db) && from != toA && c in ConversationIds(db, a, from)
    ensures var u := Migrate(Migrate(db, a, from, toA), b, from, toB);
            c in u.conversations && u.conversations[c].tenant == toA
  {
    SharedIsOld(db, a, from, c);
    var m := Migrate(db, a, from, toA);
    assert m.conversations[c].tenant == toA;
  }

  // Two traders' migrations commute if and only if they share no conversation.
  lemma CommuteExactly(db: Db, a: string, b: string, from: string, toA: string, toB: string)
    requires OrdersAgree(db) && a != b && toA != toB && from != toA && from != toB
    ensures Migrate(Migrate(db, a, from, toA), b, from, toB) == Migrate(Migrate(db, b, from, toB), a, from, toA)
       <==> ConversationIds(db, a, from) !! ConversationIds(db, b, from)
  {
    if ConversationIds(db, a, from) !! ConversationIds(db, b, from) {
      DisjointCommute(db, a, b, from, toA, toB);
    } else {
      var c :| c in ConversationIds(db, a, from) && c in ConversationIds(db, b, from);
      FirstComeFirstServed(db, a, b, from, toA, toB, c);
      FirstComeFirstServed(db, b, a, from, toB, toA, c);
    }
  }

  lemma SharedIsOld(db: Db, trader: string, from: string, c: string)
    requires OrdersAgree(db) && c in ConversationIds(db, trader, from)
    ensures c in db.conversations && db.conversations[c].tenant == from
  {
    var id :| id in OrderIds(db, trader, from) && db.orders[id].conversation == c;
    assert id in db.orders;
  }

  // A migration does not change what another trader's migration would pick up.
  lemma OthersIds(db: Db, a: string, from: string, to: string, b: string)
    requires a != b && from != to
    ensures OrderIds(Migrate(db, a, from, to), b, from) == OrderIds(db, b, from)
    ensures ConversationIds(Migrate(db, a, from, to), b, from) == ConversationIds(db, b, from)
  {
    var u := Migrate(db, a, from, to);
    assert OrderIds(u, b, from) == OrderIds(db, b, from);
    forall c ensures c in ConversationIds(u, b, from) <==> c in ConversationIds(db, b, from) {
      ServedIds(u, b, from, c);
      ServedIds(db, b, from, c);
      if Served(u, b, from, c) {
        var id :| id in u.orders && u.orders[id].tenant == from && u.orders[id].trader == Some(b)
               && u.orders[id].conversation == c;
        assert id in db.orders && db.orders[id] == u.orders[id];
      }
      if Served(db, b, from, c) {
        var id :| id in db.orders && db.orders[id].tenant == from && db.orders[id].trader == Some(b)
               && db.orders[id].conversation == c;
        assert id in u.orders && u.orders[id] == db.orders[id];
      }
    }
  }

  // ---------------------------------------------------------------- runs

  datatype Login = Login(trader: string, tenant: string)   // first login, and its new tenant

  function Exec(db: Db, from: string, logins: seq<Login>): Db
    decreases |logins|
  {
    if logins == [] then db
    else Exec(Migrate(db, logins[0].trader, from, logins[0].tenant), from, logins[1..])
  }

  // Where an order of the shared tenant ends up: with the first login of its trader.
  function OrderHome(logins: seq<Login>, from: string, trader: Option<string>): string {
    if logins == [] then from
    else if trader == Some(logins[0].trader) then logins[0].tenant
    else OrderHome(logins[1..], from, trader)
  }

  // Where a conversation of the shared tenant ends up: with the first login of a trader who
  // has an order of that tenant in it.
  function Home(db: Db, from: string, logins: seq<Login>, conversation: string): string {
    if logins == [] then from
    else if conversation in ConversationIds(db, logins[0].trader, from) then logins[0].tenant
    else Home(db, from, logins[1..], conversation)
  }

  function SettledOrder(o: Order, from: string, logins: seq<Login>): Order {
    if o.tenant == from then o.(tenant := OrderHome(logins, from, o.trader)) else o
  }

  function SettledConversation(db: Db, c: Conversation, id: string, from: string, logins: seq<Login>): Conversation {
    if c.tenant == from then c.(tenant := Home(db, from, logins, id)) else c
  }

  function SettledMessage(db: Db, m: Message, from: string, logins: seq<Login>): Message {
    if m.tenant == from then m.(tenant := Home(db, from, logins, m.conversation)) else m
  }

  // Every row of the shared tenant is where it belongs, and nothing else has changed.
  ghost predicate Settled(db: Db, u: Db, from: string, logins: seq<Login>) {
    && u.orders.Keys == db.orders.Keys && u.conversations.Keys == db.conversations.Keys
    && (forall id :: id in db.orders ==> u.orders[id] == SettledOrder(db.orders[id], from, logins))
    && (forall id :: id in db.conversations ==>
          u.conversations[id] == SettledConversation(db, db.conversations[id], id, from, logins))
    && SettledMessages(db, db.messages, u.messages, from, logins)
    && SettledMessages(db, db.scheduled, u.scheduled, from, logins)
  }

  ghost predicate SettledMessages(
    db: Db, rows: map<string, Message>, after: map<string, Message>, from: string, logins: seq<Login>)
  {
    && after.Keys == rows.Keys
    && forall id :: id in rows ==> after[id] == SettledMessage(db, rows[id], from, logins)
  }

  // A migration changes the home of no conversation that it does not take along.
  lemma {:induction false} HomeAfter(db: Db, from: string, l: Login, logins: seq<Login>, c: string)
    requires l.tenant != from && c !in ConversationIds(db, l.trader, from)
    ensures Home(Migrate(db, l.trader, from, l.tenant), from, logins, c) == Home(db, from, logins, c)
  {
    if logins == [] {
    } else {
      var m := Migrate(db, l.trader, from, l.tenant);
      if logins[0].trader == l.trader {
        assert OrderIds(m, l.trader, from) == {};
        assert ConversationIds(m, l.trader, from) == {};
      } else {
        OthersIds(db, l.trader, from, l.tenant, logins[0].trader);
      }
      HomeAfter(db, from, l, logins[1..], c);
    }
  }

  lemma SettledMessageAfter(db: Db, x: Message, from: string, logins: seq<Login>)
    requires logins != [] && logins[0].tenant != from
    ensures var l := logins[0];
            var m := Migrate(db, l.trader, from, l.tenant);
            var x' := if x.conversation in ConversationIds(db, l.trader, from) && x.tenant == from
                      then x.(tenant := l.tenant) else x;
            SettledMessage(m, x', from, logins[1..]) == SettledMessage(db, x, from, logins)
  {
    if x.conversation !in ConversationIds(db, logins[0].trader, from) {
      HomeAfter(db, from, logins[0], logins[1..], x.conversation);
    }
  }

  lemma SettledConversationAfter(db: Db, x: Conversation, id: string, from: string, logins: seq<Login>)
    requires logins != [] && logins[0].tenant != from
    ensures var l := logins[0];
            var m := Migrate(db, l.trader, from, l.tenant);
            var x' := if id in ConversationIds(db, l.trader, from) && x.tenant == from
                      then x.(tenant := l.tenant) else x;
            SettledConversation(m, x', id, from, logins[1..]) == SettledConversation(db, x, id, from, logins)
  {
    if id !in ConversationIds(db, logins[0].trader, from) {
      HomeAfter(db, from, logins[0], logins[1..], id);
    }
  }

  lemma MessagesStep(db: Db, rows: map<string, Message>, after: map<string, Message>, from: string, logins: seq<Login>)
    requires logins != [] && logins[0].tenant != from
    requires var l := logins[0];
             SettledMessages(Migrate(db, l.trader, from, l.tenant),
                             MoveMessages(rows, ConversationIds(db, l.trader, from), from, l.tenant),
                             after, from, logins[1..])
    ensures SettledMessages(db, rows, after, from, logins)
  {
    var moved := MoveMessages(rows, ConversationIds(db, logins[0].trader, from), from, logins[0].tenant);
    forall id | id in rows ensures after[id] == SettledMessage(db, rows[id], from, logins) {
      assert id in moved;
      SettledMessageAfter(db, rows[id], from, logins);
    }
  }

  lemma SettledStep(db: Db, u: Db, from: string, logins: seq<Login>)
    requires logins != [] && logins[0].tenant != from
    requires Settled(Migrate(db, logins[0].trader, from, logins[0].tenant), u, from, logins[1..])
    ensures Settled(db, u, from, logins)
  {
    var m := Migrate(db, logins[0].trader, from, logins[0].tenant);
    forall id | id in db.orders ensures u.orders[id] == SettledOrder(db.orders[id], from, logins) {
      assert id in m.orders && u.orders[id] == SettledOrder(m.orders[id], from, logins[1..]);
    }
    forall id | id in db.conversations
      ensures u.conversations[id] == SettledConversation(db, db.conversations[id], id, from, logins)
    {
      assert id in m.conversations;
      SettledConversationAfter(db, db.conversations[id], id, from, logins);
    }
    MessagesStep(db, db.messages, u.messages, from, logins);
    MessagesStep(db, db.scheduled, u.scheduled, from, logins);
  }

  // MAIN: where every row of the four tables is after any sequence of first logins.
  lemma {:induction false} RunSettles(db: Db, from: string, logins: seq<Login>)
    requires forall i :: 0 <= i < |logins| ==> logins[i].tenant != from
    ensures Settled(db, Exec(db, from, logins), from, logins)
    decreases |logins|
  {
    if logins == [] {
    } else {
      var m := Migrate(db, logins[0].trader, from, logins[0].tenant);
      RunSettles(m, from, logins[1..]);
      SettledStep(db, Exec(db, from, logins), from, logins);
    }
  }

  // Nobody of the run takes the conversation along.
  ghost predicate Unserved(db: Db, from: string, logins: seq<Login>, c: string) {
    forall i :: 0 <= i < |logins| ==> c !in ConversationIds(db, logins[i].trader, from)
  }

  ghost predicate Unconcerned(db: Db, tenant: string, conversation: string, from: string, logins: seq<Login>) {
    tenant != from || Unserved(db, from, logins, conversation)
  }

  ghost predicate Absent(logins: seq<Login>, trader: Option<string>) {
    forall i :: 0 <= i < |logins| ==> trader != Some(logins[i].trader)
  }

  lemma {:induction false} UnservedStays(db: Db, from: string, logins: seq<Login>, c: string)
    requires Unserved(db, from, logins, c)
    ensures Home(db, from, logins, c) == from
  {
    if logins == [] {
    } else {
      UnservedStays(db, from, logins[1..], c);
    }
  }

  lemma {:induction false} AbsentStays(logins: seq<Login>, from: string, trader: Option<string>)
    requires Absent(logins, trader)
    ensures OrderHome(logins, from, trader) == from
  {
    if logins == [] {
    } else {
      AbsentStays(logins[1..], from, trader);
    }
  }

  // Rows that have left the shared tenant, and rows that concern nobody of the run, are as before.
  ghost predicate Untouched(db: Db, u: Db, from: string, logins: seq<Login>) {
    && u.orders.Keys == db.orders.Keys && u.conversations.Keys == db.conversations.Keys
    && u.messages.Keys == db.messages.Keys && u.scheduled.Keys == db.scheduled.Keys
    && (forall id :: id in db.orders && (db.orders[id].tenant != from || Absent(logins, db.orders[id].trader)) ==>
          u.orders[id] == db.orders[id])
    && (forall id :: id in db.conversations && Unconcerned(db, db.conversations[id].tenant, id, from, logins) ==>
          u.conversations[id] == db.conversations[id])
    && MessagesUntouched(db, db.messages, u.messages, from, logins)
    && MessagesUntouched(db, db.scheduled, u.scheduled, from, logins)
  }

  ghost predicate MessagesUntouched(
    db: Db, rows: map<string, Message>, after: map<string, Message>, from: string, logins: seq<Login>)
    requires after.Keys == rows.Keys
  {
    forall id :: id in rows && Unconcerned(db, rows[id].tenant, rows[id].conversation, from, logins) ==>
      after[id] == rows[id]
  }

  lemma SettledUntouched(db: Db, u: Db, from: string, logins: seq<Login>)
    requires Settled(db, u, from, logins)
    ensures Untouched(db, u, from, logins)
  {
    forall id | id in db.orders && Absent(logins, db.orders[id].trader) ensures u.orders[id] == db.orders[id] {
      AbsentStays(logins, from, db.orders[id].trader);
    }
    forall c | Unserved(db, from, logins, c) ensures Home(db, from, logins, c) == from {
      UnservedStays(db, from, logins, c);
    }
  }

  // MAIN: over any sequence of migrations out of the shared tenant, messages and scheduled
  // messages agree with their conversations, no row of any table is made or lost, what has
  // left the shared tenant or concerns nobody of the run is unchanged, and no order of a
  // trader who has logged in is left behind.
  lemma {:induction false} RunSound(db: Db, from: string, logins: seq<Login>)
    requires Coherent(db) && forall i :: 0 <= i < |logins| ==> logins[i].tenant != from
    ensures var u := Exec(db, from, logins);
            && Coherent(u) && Untouched(db, u, from, logins)
            && (forall i :: 0 <= i < |logins| ==> OrderIds(u, logins[i].trader, from) == {})
    decreases |logins|
  {
    RunSettles(db, from, logins);
    SettledUntouched(db, Exec(db, from, logins), from, logins);
    if logins != [] {
      var l := logins[0];
      var m := Migrate(db, l.trader, from, l.tenant);
      MigrateSound(db, l.trader, from, l.tenant);
      RunSound(m, from, logins[1..]);
      StaysEmpty(m, from, logins[1..], l.trader);
      var u := Exec(db, from, logins);
      forall i | 0 <= i < |logins| ensures OrderIds(u, logins[i].trader, from) == {} {
        if i > 0 { assert logins[i] == logins[1..][i - 1]; }
      }
    }
  }

  lemma {:induction false} StaysEmpty(db: Db, from: string, logins: seq<Login>, trader: string)
    requires OrderIds(db, trader, from) == {} && forall i :: 0 <= i < |logins| ==> logins[i].tenant != from
    ensures OrderIds(Exec(db, from, logins), trader, from) == {}
    decreases |logins|
  {
    if logins == [] {
    } else {
      var m := Migrate(db, logins[0].trader, from, logins[0].tenant);
      assert OrderIds(m, trader, from) <= OrderIds(db, trader, from);
      StaysEmpty(m, from, logins[1..], trader);
    }
  }

  // Two traders with an order each in one conversation: after the first has migrated, the
  // other's order stays in the shared tenant and its conversation does not.
  lemma SharedConversationParts()
    ensures exists db: Db, a: string, from: string, to: string ::
              Coherent(db) && OrdersAgree(db) && !OrdersAgree(Migrate(db, a, from, to))
  {
    var orders := map["x" := Order("shared", Some("a"), "c", ""), "y" := Order("shared", Some("b"), "c", "")];
    var db := Db(orders, map["c" := Conversation("shared", "")], map[], map[]);
    ServedIds(db, "a", "shared", "c");
    assert db.orders["x"].conversation == "c" && db.orders["y"].trader != Some("a");
    assert Served(db, "a", "shared", "c");
    assert Shared(db, "a", "shared");
    OrdersAgreeExactly(db, "a", "shared", "mine");
  }

  /** The repository: bulk updates in place, one table after the other. */
  class OrderRepository {
    var orders: map<string, Order>
    var conversations: map<string, Conversation>
    var messages: map<string, Message>
    var scheduled: map<string, Message>

    ghost function Contents(): Db
      reads this
    {
      Db(orders, conversations, messages, scheduled)
    }

    constructor (db: Db)
      ensures Contents() == db
    {
      orders, conversations, messages, scheduled := db.orders, db.conversations, db.messages, db.scheduled;
    }

    method MigrateTraderOrders(trader: string, from: string, to: string) returns (migrated: nat)
      modifies this
      ensures Contents() == Migrate(old(Contents()), trader, from, to)
      ensures migrated == |OrderIds(old(Contents()), trader, from)|
    {
      ghost var before := Contents();
      var ids := set id | id in orders && orders[id].tenant == from && orders[id].trader == Some(trader);
      if ids == {} {
        NothingToMove(before, trader, from, to);
        return 0;
      }
      var convs := set id | id in ids :: orders[id].conversation;
      orders := map id | id in orders :: if id in ids then orders[id].(tenant := to) else orders[id];
      conversations := map id | id in conversations ::
        if id in convs && conversations[id].tenant == from then conversations[id].(tenant := to) else conversations[id];
      messages := MoveMessages(messages, convs, from, to);
      scheduled := MoveMessages(scheduled, convs, from, to);
      return |ids|;
    }
  }
}
