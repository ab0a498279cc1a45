/** The messages of one conversation, read page by page while messages arrive. */
module Messages {
  import opened Basics
  import opened Keyset

  datatype Message = Message(conversation: string, createdAt: int)

  type Table = map<string, Message>

  // WHERE conversation_id = ...
  function Of(t: Table, conversation: string): set<Key> {
    set id | id in t && t[id].conversation == conversation :: Key(t[id].createdAt, id)
  }

  function Views(tables: seq<Table>, conversation: string): seq<set<Key>> {
    seq(|tables|, i requires 0 <= i < |tables| => Of(tables[i], conversation))
  }

  ghost function List(tables: seq<Table>, conversation: string, limit: nat): seq<Page> {
    Walk(Ascending, Views(tables, conversation), None, limit)
  }

  // From one fetch to a later one messages stay, and the conversation's new ones are later.
  predicate Arrived(t: Table, u: Table, conversation: string) {
    && (forall id :: id in t ==> id in u && u[id] == t[id])
    && (forall id, x :: id in u && id !in t && x in t && u[id].conversation == t[x].conversation == conversation ==>
          t[x].createdAt < u[id].createdAt)
  }

  ghost predicate Growing(tables: seq<Table>, conversation: string) {
    forall i, j :: 0 <= i < j < |tables| ==> Arrived(tables[i], tables[j], conversation)
  }

  lemma ArrivedIsAppended(t: Table, u: Table, conversation: string)
    requires Arrived(t, u, conversation)
    ensures Appended(Ascending, Of(t, conversation), Of(u, conversation))
  {
    forall k, x | k in Of(u, conversation) && k !in Of(t, conversation) && x in Of(t, conversation)
      ensures Before(Ascending, x, k)
    {
      assert k.id !in t;
    }
  }

  // These are the first messages of the conversation, and no others, in the order of
  // (created_at, id).
  ghost predicate Beginning(t: Table, conversation: string, all: seq<Key>) {
    && InOrder(Ascending, all)
    && (forall k :: k in all ==> k.id in t && t[k.id].conversation == conversation && t[k.id].createdAt == k.at)
    && (forall id, k :: id in t && k in all && Precedes(t, conversation, id, k) ==> Key(t[id].createdAt, id) in all)
  }

  predicate Precedes(t: Table, conversation: string, id: string, k: Key)
    requires id in t
  {
    t[id].conversation == conversation && Before(Ascending, Key(t[id].createdAt, id), k)
  }

  // No message of the conversation is missing.
  ghost predicate HasAll(t: Table, conversation: string, all: seq<Key>) {
    forall id :: id in t && t[id].conversation == conversation ==> Key(t[id].createdAt, id) in all
  }

  lemma PrefixIsBeginning(t: Table, conversation: string, all: seq<Key>)
    requires all <= Sorted(Ascending, Of(t, conversation))
    ensures Beginning(t, conversation, all)
  {
    var list := Sorted(Ascending, Of(t, conversation));
    forall k | k in all ensures k in Of(t, conversation) { assert k in Elems(list); }
    forall id, k | id in t && k in all && Precedes(t, conversation, id, k)
      ensures Key(t[id].createdAt, id) in all
    {
      assert Key(t[id].createdAt, id) in Elems(list);
      BeginningIsClosed(Ascending, list, all, k, Key(t[id].createdAt, id));
    }
  }

  // MAIN: reading a conversation while messages arrive returns, page after page, its first
  // messages as they stand at the last fetch, and when the walk has ended all of them.
  lemma ConversationRead(tables: seq<Table>, conversation: string, limit: nat)
    requires limit >= 1 && tables != [] && Growing(tables, conversation)
    ensures var w := List(tables, conversation, limit);
            && w != []
            && Beginning(tables[|w| - 1], conversation, Items(w))
            && (Complete(w) ==> HasAll(tables[|w| - 1], conversation, Items(w)))
  {
    var views, w := Views(tables, conversation), List(tables, conversation, limit);
    forall i, j | 0 <= i < j < |views| ensures Appended(Ascending, views[i], views[j]) {
      assert Arrived(tables[i], tables[j], conversation);
      ArrivedIsAppended(tables[i], tables[j], conversation);
    }
    MessagesWalk(views, limit);
    var t := tables[|w| - 1];
    PrefixIsBeginning(t, conversation, Items(w));
    if Complete(w) {
      forall id | id in t && t[id].conversation == conversation ensures Key(t[id].createdAt, id) in Items(w) {
        assert Key(t[id].createdAt, id) in Elems(Items(w));
      }
    }
  }
}
