/** Small shared notions: optional values, lists without repetition. */
module Basics {

  datatype Option<+T> = None | Some(value: T)

  predicate Distinct<T(==)>(s: seq<T>) {
    forall i, j :: 0 <= i < j < |s| ==> s[i] != s[j]
  }

  function Elems<T>(s: seq<T>): set<T> { set x | x in s }

  lemma {:induction false} SubsetSize<T>(a: set<T>, b: set<T>)
    requires a <= b
    ensures |a| <= |b|
    decreases |b|
  {
    if b == {} {
    } else {
      var x :| x in b;
      SubsetSize(a - {x}, b - {x});
      if x !in a { assert a - {x} == a; }
    }
  }
}

/**
 * One whole call of send_message as its caller sees it, once its transaction is
 * over: the event ids with a committed row, and the messages WhatsApp took.
 * SendOnce shows that an uninterrupted call has exactly this effect.
 */
module Delivery {

  datatype Outbox<E(==)> = Outbox(rows: set<E>, delivered: seq<E>)

  predicate Raises<E>(o: Outbox<E>, e: E, ok: bool) { e !in o.rows && !ok }

  function Send<E>(o: Outbox<E>, e: E, ok: bool): Outbox<E> {
    if e in o.rows || !ok then o else Outbox(o.rows + {e}, o.delivered + [e])
  }
}
