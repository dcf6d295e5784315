/** The publishing state of the outbox rows: which wait, and how publishing and failing change them. */
module OutboxTable {
  import opened Schema

  predicate Waiting(rows: map<Id, OutboxRow>, e: Id) {
    e in rows && !rows[e].published
  }

  /** Exactly the listed rows become published. */
  function MarkAll(rows: map<Id, OutboxRow>, batch: seq<Id>): map<Id, OutboxRow> {
    map e | e in rows :: if e in batch then rows[e].(published := true) else rows[e]
  }

  function CountAttempt(rows: map<Id, OutboxRow>, e: Id): map<Id, OutboxRow> {
    if e in rows then rows[e := rows[e].(attempts := rows[e].attempts + 1)] else rows
  }

  /** The same messages under the same topics and keys, whatever their publishing state. */
  predicate SameMessages(rows: map<Id, OutboxRow>, rows': map<Id, OutboxRow>) {
    && rows'.Keys == rows.Keys
    && forall e | e in rows ::
      rows'[e].message == rows[e].message && rows'[e].topic == rows[e].topic && rows'[e].key == rows[e].key
  }

  lemma MarksSayTheSame(rows: map<Id, OutboxRow>, batch: seq<Id>)
    ensures SameMessages(rows, MarkAll(rows, batch))
  {
  }

  lemma CountSaysTheSame(rows: map<Id, OutboxRow>, e: Id)
    ensures SameMessages(rows, CountAttempt(rows, e))
  {
  }

  lemma SameMessagesTransitive(a: map<Id, OutboxRow>, b: map<Id, OutboxRow>, c: map<Id, OutboxRow>)
    requires SameMessages(a, b) && SameMessages(b, c)
    ensures SameMessages(a, c)
  {
  }

  // ---------------------------------------------------------------- the order of the rows

  predicate Distinct(s: seq<Id>) {
    forall i, j | 0 <= i < j < |s| :: s[i] != s[j]
  }

  function Min(a: nat, b: nat): nat {
    if a < b then a else b
  }

  /** `order` has every row's id once. */
  ghost predicate Lists(order: seq<Id>, rows: map<Id, OutboxRow>) {
    Distinct(order) && forall e :: e in order <==> e in rows
  }

  /** The ids of `s` that are in `some`, in the order of `s`. */
  function Among(s: seq<Id>, some: seq<Id>): seq<Id> {
    if s == [] then [] else (if s[0] in some then [s[0]] else []) + Among(s[1..], some)
  }

  /** New ids may have gone in anywhere; the old ones have kept their order. */
  predicate Extends(longer: seq<Id>, order: seq<Id>) {
    Among(longer, order) == order
  }

  /** The unpublished rows in (occurred_at, event_id) order. */
  function PendingIn(rows: map<Id, OutboxRow>, order: seq<Id>): seq<Id> {
    if order == [] then []
    else (if Waiting(rows, order[0]) then [order[0]] else []) + PendingIn(rows, order[1..])
  }

  lemma {:induction false} PendingMembers(rows: map<Id, OutboxRow>, order: seq<Id>)
    ensures forall e :: e in PendingIn(rows, order) <==> e in order && Waiting(rows, e)
  {
    if order != [] {
      PendingMembers(rows, order[1..]);
      assert order == [order[0]] + order[1..];
    }
  }

  lemma {:induction false} PendingDistinct(rows: map<Id, OutboxRow>, order: seq<Id>)
    requires Distinct(order)
    ensures Distinct(PendingIn(rows, order))
  {
    if order != [] {
      PendingDistinct(rows, order[1..]);
      PendingMembers(rows, order[1..]);
      var rest := PendingIn(rows, order[1..]);
      assert order[0] !in order[1..];
      assert forall i | 0 <= i < |rest| :: rest[i] in rest;
    }
  }

  // ---------------------------------------------------------------- new rows in the order

  lemma AmongNext(s: seq<Id>, e: Id, some: seq<Id>)
    ensures Among(s + [e], some) == Among(s, some) + if e in some then [e] else []
  {
    if s != [] {
      AmongNext(s[1..], e, some);
      assert (s + [e])[1..] == s[1..] + [e];
    }
  }

  lemma {:induction false} AmongMembers(s: seq<Id>, some: seq<Id>)
    ensures forall e :: e in Among(s, some) <==> e in s && e in some
  {
    if s != [] {
      AmongMembers(s[1..], some);
      assert s == [s[0]] + s[1..];
    }
  }

  lemma {:induction false} AmongAll(s: seq<Id>, some: seq<Id>)
    requires forall e | e in s :: e in some
    ensures Among(s, some) == s
  {
    if s != [] {
      AmongAll(s[1..], some);
      assert s == [s[0]] + s[1..];
    }
  }

  /** New rows can always be put somewhere, at the end if nowhere else. */
  lemma {:induction false} Appended(order: seq<Id>, ids: set<Id>) returns (longer: seq<Id>)
    requires Distinct(order) && forall e | e in ids :: e !in order
    ensures Distinct(longer) && Extends(longer, order)
    ensures forall e :: e in longer <==> e in order || e in ids
  {
    if ids == {} {
      longer := order;
      AmongAll(order, order);
    } else {
      var e :| e in ids;
      var shorter := Appended(order, ids - {e});
      longer := shorter + [e];
      AmongNext(shorter, e, order);
    }
  }
}
