/** The transactional outbox publisher, one call at a time: select a batch under row locks, write each
    message to the broker, mark it, commit. */
module Outbox {
  import opened Schema
  import opened OutboxTable

  /** What happened to the i-th write of a call: acknowledged, answered with an error, or the process
      or the database connection died. Without an acknowledgement the broker may have taken the message
      or not. */
  datatype Fate = Acknowledged | Errored(taken: bool) | Died(taken: bool)

  datatype Result = Ok | InvalidInput | WriteFailed(event: Id) | Lost

  // ---------------------------------------------------------------- specification

  /** SELECT ... WHERE published_at IS NULL ORDER BY ... LIMIT. */
  function Batch(rows: map<Id, OutboxRow>, order: seq<Id>, limit: nat): (batch: seq<Id>)
    ensures Enqueued(rows, batch)
  {
    var pending := PendingIn(rows, order);
    PendingMembers(rows, order);
    assert forall i | 0 <= i < |pending| :: pending[i] in pending;
    pending[..Min(limit, |pending|)]
  }

  predicate Enqueued(rows: map<Id, OutboxRow>, batch: seq<Id>) {
    forall i | 0 <= i < |batch| :: batch[i] in rows
  }

  function Messages(rows: map<Id, OutboxRow>, batch: seq<Id>): seq<Envelope>
    requires Enqueued(rows, batch)
  {
    seq(|batch|, i requires 0 <= i < |batch| => rows[batch[i]].message)
  }

  /** How many writes from position `i` on are acknowledged before the first that is not. */
  function Acknowledgements(fate: nat -> Fate, i: nat, n: nat): (k: nat)
    requires i <= n
    ensures i + k <= n
    ensures forall j | i <= j < i + k :: fate(j) == Acknowledged
    ensures i + k < n ==> fate(i + k) != Acknowledged
    decreases n - i
  {
    if i == n || fate(i) != Acknowledged then 0 else 1 + Acknowledgements(fate, i + 1, n)
  }

  // ---------------------------------------------------------------- facts about the selection

  function Without(s: seq<Id>, gone: seq<Id>): seq<Id> {
    if s == [] then [] else (if s[0] in gone then [] else [s[0]]) + Without(s[1..], gone)
  }

  lemma {:induction false} PendingOfMarked(rows: map<Id, OutboxRow>, order: seq<Id>, marked: seq<Id>)
    ensures PendingIn(MarkAll(rows, marked), order) == Without(PendingIn(rows, order), marked)
  {
    if order != [] {
      PendingOfMarked(rows, order[1..], marked);
      if Waiting(rows, order[0]) {
        assert PendingIn(rows, order)[1..] == PendingIn(rows, order[1..]);
      } else {
        assert PendingIn(rows, order) == PendingIn(rows, order[1..]);
      }
    }
  }

  lemma {:induction false} WithoutPrefix(a: seq<Id>, b: seq<Id>, gone: seq<Id>)
    requires (forall x | x in a :: x in gone) && (forall x | x in b :: x !in gone)
    ensures Without(a + b, gone) == b
  {
    if a != [] {
      assert (a + b)[1..] == a[1..] + b;
      WithoutPrefix(a[1..], b, gone);
    } else if b != [] {
      assert [] + b[1..] == b[1..];
      assert a + b == b;
      WithoutPrefix([], b[1..], gone);
    }
  }

  /** Marking a prefix of the pending rows leaves exactly the others pending, in the same order. */
  lemma PendingAfterMarks(rows: map<Id, OutboxRow>, order: seq<Id>, n: nat)
    requires Distinct(order) && n <= |PendingIn(rows, order)|
    ensures PendingIn(MarkAll(rows, PendingIn(rows, order)[..n]), order) == PendingIn(rows, order)[n..]
  {
    var pending := PendingIn(rows, order);
    PendingDistinct(rows, order);
    PendingOfMarked(rows, order, pending[..n]);
    assert pending == pending[..n] + pending[n..];
    WithoutPrefix(pending[..n], pending[n..], pending[..n]);
  }

  // ---------------------------------------------------------------- the outcome of one call

  datatype Outcome = Outcome(rows: map<Id, OutboxRow>, log: seq<Envelope>, published: nat, result: Result)

  /** Acknowledged writes are in the log and, if the commit succeeds, marked: all of the batch, or the
      part before an error, whose row gets one more attempt. A call that died marks nothing. The log
      may have got one message more than was acknowledged. */
  function Attempted(rows: map<Id, OutboxRow>, log: seq<Envelope>, batch: seq<Id>, fate: nat -> Fate,
      commits: bool): Outcome
    requires Enqueued(rows, batch)
  {
    var k := Acknowledgements(fate, 0, |batch|);
    if k == |batch| then
      Outcome(if commits then MarkAll(rows, batch) else rows, log + Messages(rows, batch), k, if commits
          then Ok else Lost)
    else
      var log' := log + Messages(rows, batch[..if fate(k).taken then k + 1 else k]);
      if fate(k).Errored? && commits
      then Outcome(CountAttempt(MarkAll(rows, batch[..k]), batch[k]), log', k, WriteFailed(batch[k]))
      else Outcome(rows, log', k, Lost)
  }

  /** Every published row's message is in the log, and the log holds nothing but enqueued messages. */
  ghost predicate InStep(rows: map<Id, OutboxRow>, log: seq<Envelope>) {
    && (forall e | e in rows && rows[e].published :: rows[e].message in log)
    && (forall m | m in log :: exists e | e in rows :: rows[e].message == m)
  }

  lemma AttemptKeepsInStep(rows: map<Id, OutboxRow>, log: seq<Envelope>, batch: seq<Id>, fate: nat -> Fate,
      commits: bool)
    requires InStep(rows, log) && Enqueued(rows, batch)
    ensures var o := Attempted(rows, log, batch, fate, commits); InStep(o.rows, o.log) && o.rows.Keys == rows.Keys
  {
    var k := Acknowledgements(fate, 0, |batch|);
    var taken := if k < |batch| && fate(k).taken then batch[..k + 1] else batch[..k];
    var log' := log + Messages(rows, taken);
    assert k == |batch| ==> batch[..k] == batch;
    LogGrows(rows, log, taken);
    forall i | 0 <= i < k ensures rows[batch[..k][i]].message in log' {
      assert Messages(rows, taken)[i] == rows[batch[i]].message;
    }
    MarksStayInStep(rows, log', batch[..k]);
    if k < |batch| {
      AttemptStaysInStep(MarkAll(rows, batch[..k]), log', batch[k]);
    }
  }

  /** The rows newly marked by a call are a prefix of its batch, a proper one when a write failed, and
      only the failing row's attempt count moves. */
  lemma MarksArePrefix(rows: map<Id, OutboxRow>, log: seq<Envelope>, batch: seq<Id>, fate: nat -> Fate, commits: bool)
    requires Enqueued(rows, batch) && Distinct(batch) && forall e | e in batch :: Waiting(rows, e)
    ensures var o := Attempted(rows, log, batch, fate, commits);
      && o.rows.Keys == rows.Keys
      && (forall i | 0 <= i < |batch| :: o.rows[batch[i]].published <==> o.result != Lost && i < o.published)
      && (o.result.WriteFailed? ==> o.published < |batch|)
      && (forall e | e in rows && e !in batch :: o.rows[e] == rows[e])
      && (forall e | e in rows ::
        && o.rows[e].message == rows[e].message
        && o.rows[e].attempts == rows[e].attempts + (if o.result == WriteFailed(e) then 1 else 0))
  {
    var o := Attempted(rows, log, batch, fate, commits);
    var k := if o.result == Lost then 0 else o.published;
    assert batch[..|batch|] == batch;
    forall i | 0 <= i < |batch| ensures o.rows[batch[i]].published <==> i < k {
      assert batch[i] in batch && Waiting(rows, batch[i]);
      assert i < k ==> batch[i] == batch[..k][i];
    }
  }

  /** The answer of a call and what the broker got, write by write: the messages of the batch in order, up to
      the first one not acknowledged, and that one too if the broker took it. */
  lemma AttemptAnswers(rows: map<Id, OutboxRow>, log: seq<Envelope>, batch: seq<Id>, fate: nat -> Fate,
      commits: bool)
    requires Enqueued(rows, batch)
    ensures var o := Attempted(rows, log, batch, fate, commits); var n := o.published;
      && n <= |batch|
      && (forall i | 0 <= i < n :: fate(i) == Acknowledged)
      && (n < |batch| ==> fate(n) != Acknowledged)
      && (o.result == Ok <==> n == |batch| && commits)
      && (n < |batch| ==> (o.result == WriteFailed(batch[n]) <==> fate(n).Errored? && commits))
      && (o.result == Lost <==> !commits || (n < |batch| && fate(n).Died?))
      && (o.result == Lost ==> o.rows == rows)
      && |o.log| == |log| + n + (if n < |batch| && fate(n).taken then 1 else 0)
      && o.log[..|log|] == log
      && forall i | 0 <= i < |o.log| - |log| :: o.log[|log| + i] == rows[batch[i]].message
  {
  }

  // ---------------------------------------------------------------- the publisher

  class Publisher {
    var rows: map<Id, OutboxRow>   // outbox_events
    var order: seq<Id>             // its ids by (occurred_at, event_id)
    var log: seq<Envelope>         // what the broker has taken

    ghost predicate Valid()
      reads this
    {
      && Distinct(order)
      && (forall e :: e in order <==> e in rows)
      && InStep(rows, log)
    }

    /** `fate` says what becomes of each write, `commits` whether the final commit succeeds. */
    method PublishPending(limit: int, fate: nat -> Fate, commits: bool) returns (published: nat, result: Result)
      requires Valid()
      modifies this`rows, this`log
      ensures Valid()
      ensures limit < 1 ==> Outcome(rows, log, published, result) == Outcome(old(rows), old(log), 0, InvalidInput)
      ensures limit >= 1 ==>
        && Enqueued(old(rows), Batch(old(rows), order, limit))
        && Outcome(rows, log, published, result) ==
          Attempted(old(rows), old(log), Batch(old(rows), order, limit), fate, commits)
    {
      if limit < 1 {
        return 0, InvalidInput;
      }
      var events := Batch(rows, order, limit);
      BatchMembers(rows, order, limit);
      AttemptKeepsInStep(rows, log, events, fate, commits);
      published, result := Attempt(events, fate, commits);
    }

    /** The body of the transaction once the batch is selected. */
    method Attempt(events: seq<Id>, fate: nat -> Fate, commits: bool) returns (published: nat, result: Result)
      requires Enqueued(rows, events)
      modifies this`rows, this`log
      ensures Outcome(rows, log, published, result) == Attempted(old(rows), old(log), events, fate, commits)
    {
      ghost var o := Attempted(rows, log, events, fate, commits);
      var view;
      view, published := WriteInOrder(events, fate);
      if published == |events| {
        assert events[..published] == events;
        rows, result := if commits then view else rows, if commits then Ok else Lost;
        assert Outcome(rows, log, published, result) == o;
      } else {
        MarkNext(rows, events, published);
        if fate(published).taken {
          log := log + [rows[events[published]].message];
        }
        if fate(published).Errored? && commits {
          rows, result := CountAttempt(view, events[published]), WriteFailed(events[published]);
        } else {
          result := Lost;
        }
        assert Outcome(rows, log, published, result) == o;
      }
    }

    /** Writes the batch up to the first write that is not acknowledged; `view` is what the open
        transaction has marked so far. */
    method WriteInOrder(events: seq<Id>, fate: nat -> Fate) returns (view: map<Id, OutboxRow>, published: nat)
      requires Enqueued(rows, events)
      modifies this`log
      ensures published == Acknowledgements(fate, 0, |events|)
      ensures view == MarkAll(rows, events[..published]) && log == old(log) + Messages(rows, events[..published])
    {
      view := rows;
      published := 0;
      while published < |events| && fate(published) == Acknowledged
        invariant published <= |events|
        invariant Acknowledgements(fate, 0, |events|) == published + Acknowledgements(fate, published, |events|)
        invariant Shown(rows, events, old(log), published, view, log)
      {
        var e := events[published];
        ShownNext(rows, events, old(log), published, view, log);
        log := log + [rows[e].message];
        view := view[e := view[e].(published := true)];
        published := published + 1;
      }
    }
  }

  /** Where the writing stands: the first `n` rows marked in the view, their messages in the log. */
  predicate Shown(rows: map<Id, OutboxRow>, batch: seq<Id>, log0: seq<Envelope>, n: nat, view: map<Id, OutboxRow>,
      log: seq<Envelope>)
  {
    n <= |batch| && Enqueued(rows, batch) && view == MarkAll(rows, batch[..n])
        && log == log0 + Messages(rows, batch[..n])
  }

  lemma ShownNext(rows: map<Id, OutboxRow>, batch: seq<Id>, log0: seq<Envelope>, n: nat, view: map<Id, OutboxRow>,
      log: seq<Envelope>)
    requires Shown(rows, batch, log0, n, view, log) && n < |batch|
    ensures batch[n] in view
    ensures Shown(rows, batch, log0, n + 1, view[batch[n] := view[batch[n]].(published := true)], log
        + [rows[batch[n]].message])
  {
    MarkNext(rows, batch, n);
  }

  lemma MarkNext(rows: map<Id, OutboxRow>, batch: seq<Id>, i: nat)
    requires i < |batch| && Enqueued(rows, batch)
    ensures MarkAll(rows, batch[..i + 1]) ==
        MarkAll(rows, batch[..i])[batch[i] := MarkAll(rows, batch[..i])[batch[i]].(published := true)]
    ensures Messages(rows, batch[..i + 1]) == Messages(rows, batch[..i]) + [rows[batch[i]].message]
  {
    assert batch[..i + 1] == batch[..i] + [batch[i]];
  }

  lemma AttemptStaysInStep(rows: map<Id, OutboxRow>, log: seq<Envelope>, e: Id)
    requires InStep(rows, log) && e in rows
    ensures InStep(CountAttempt(rows, e), log)
  {
    var rows' := CountAttempt(rows, e);
    forall m | m in log ensures exists x | x in rows' :: rows'[x].message == m {
      var x :| x in rows && rows[x].message == m;
      assert rows'[x].message == m;
    }
  }

  lemma BatchMembers(rows: map<Id, OutboxRow>, order: seq<Id>, limit: nat)
    requires Distinct(order)
    ensures Distinct(Batch(rows, order, limit)) && Enqueued(rows, Batch(rows, order, limit))
    ensures forall e | e in Batch(rows, order, limit) :: Waiting(rows, e)
  {
    assert forall i | 0 <= i < |Batch(rows, order, limit)| :: Batch(rows, order, limit)[i] in PendingIn(rows, order);
    PendingMembers(rows, order);
    PendingDistinct(rows, order);
  }

  lemma LogGrows(rows: map<Id, OutboxRow>, log: seq<Envelope>, batch: seq<Id>)
    requires InStep(rows, log) && Enqueued(rows, batch)
    ensures InStep(rows, log + Messages(rows, batch))
  {
    var taken := Messages(rows, batch);
    forall m | m in log + taken ensures exists e | e in rows :: rows[e].message == m {
      if m !in log {
        var i :| 0 <= i < |taken| && taken[i] == m;
        assert rows[batch[i]].message == m;
      }
    }
  }

  lemma MarksStayInStep(rows: map<Id, OutboxRow>, log: seq<Envelope>, batch: seq<Id>)
    requires InStep(rows, log) && Enqueued(rows, batch) && forall i | 0 <= i < |batch| :: rows[batch[i]].message in log
    ensures InStep(MarkAll(rows, batch), log)
  {
    var rows' := MarkAll(rows, batch);
    forall e | e in rows' && rows'[e].published ensures rows'[e].message in log {
      if e in batch {
        var i :| 0 <= i < |batch| && batch[i] == e;
        assert rows[batch[i]].message in log;
      }
    }
    forall m | m in log ensures exists e | e in rows' :: rows'[e].message == m {
      var e :| e in rows && rows[e].message == m;
      assert rows'[e].message == m;
    }
  }

  // ---------------------------------------------------------------- progress

  function Always(i: nat): Fate {
    Acknowledged
  }

  /** One call whose writes and commit all succeed. */
  function Round(rows: map<Id, OutboxRow>, log: seq<Envelope>, order: seq<Id>, limit: nat): Outcome {
    Attempted(rows, log, Batch(rows, order, limit), Always, true)
  }

  /** The table and the log after that many such calls. */
  function Rounds(rows: map<Id, OutboxRow>, log: seq<Envelope>, order: seq<Id>, limit: nat, calls: nat): Outcome {
    if calls == 0 then Outcome(rows, log, 0, Ok)
    else
      var before := Rounds(rows, log, order, limit, calls - 1);
      Round(before.rows, before.log, order, limit)
  }

  lemma {:induction false} AllAcknowledged(i: nat, n: nat)
    requires i <= n
    ensures Acknowledgements(Always, i, n) == n - i
    decreases n - i
  {
    if i < n {
      AllAcknowledged(i + 1, n);
    }
  }

  /** A round marks the front of the pending rows and gets their messages into the log. */
  lemma RoundTakes(rows: map<Id, OutboxRow>, log: seq<Envelope>, order: seq<Id>, limit: nat)
    requires Distinct(order)
    ensures var o := Round(rows, log, order, limit); var pending := PendingIn(rows, order);
    && PendingIn(o.rows, order) == pending[Min(limit, |pending|)..]
    && SameMessages(rows, o.rows) && o.log == log + Messages(rows, Batch(rows, order, limit))
  {
    var batch := Batch(rows, order, limit);
    AllAcknowledged(0, |batch|);
    PendingAfterMarks(rows, order, Min(limit, |PendingIn(rows, order)|));
    MarksSayTheSame(rows, batch);
  }

  /** What is left of the pending rows and what the log got, after `taken` of them. */
  predicate Drained(rows: map<Id, OutboxRow>, pending: seq<Id>, log: seq<Envelope>, taken: nat, left: seq<Id>,
      log': seq<Envelope>)
  {
    && taken <= |pending| && left == pending[taken..]
    && Enqueued(rows, pending[..taken]) && log' == log + Messages(rows, pending[..taken])
  }

  lemma MessagesJoin(rows: map<Id, OutboxRow>, rows': map<Id, OutboxRow>, a: seq<Id>, b: seq<Id>)
    requires SameMessages(rows, rows') && Enqueued(rows, a) && Enqueued(rows', b)
    ensures Enqueued(rows, a + b) && Messages(rows, a) + Messages(rows', b) == Messages(rows, a + b)
  {
    forall i | 0 <= i < |b| ensures b[i] in rows && rows[b[i]].message == rows'[b[i]].message {
      assert b[i] in rows'.Keys;
    }
  }

  lemma DrainsMore(rows: map<Id, OutboxRow>, rows': map<Id, OutboxRow>, pending: seq<Id>, log: seq<Envelope>,
      taken: nat, left: seq<Id>, log': seq<Envelope>, more: nat, taken': nat, left': seq<Id>, log'': seq<Envelope>)
    requires Drained(rows, pending, log, taken, left, log') && SameMessages(rows, rows')
    requires more <= |left| && Enqueued(rows', left[..more])
    requires taken' == taken + more && left' == left[more..] && log'' == log' + Messages(rows', left[..more])
    ensures Drained(rows, pending, log, taken', left', log'')
  {
    assert pending[taken..][more..] == pending[taken'..];
    assert pending[..taken] + left[..more] == pending[..taken'];
    MessagesJoin(rows, rows', pending[..taken], left[..more]);
  }

  lemma NextMultiple(k: nat, limit: nat, n: nat)
    ensures Min((k + 1) * limit, n) == Min(k * limit, n) + Min(limit, n - Min(k * limit, n))
  {
    assert (k + 1) * limit == k * limit + limit;
  }

  lemma RoundDrains(rows: map<Id, OutboxRow>, log: seq<Envelope>, order: seq<Id>, limit: nat, before: Outcome,
      taken: nat, taken': nat)
    requires Distinct(order) && SameMessages(rows, before.rows)
    requires Drained(rows, PendingIn(rows, order), log, taken, PendingIn(before.rows, order), before.log)
    requires taken' == taken + Min(limit, |PendingIn(rows, order)| - taken)
    ensures var o := Round(before.rows, before.log, order, limit);
    SameMessages(rows, o.rows) && Drained(rows, PendingIn(rows, order), log, taken', PendingIn(o.rows, order), o.log)
  {
    var left := PendingIn(before.rows, order);
    var o := Round(before.rows, before.log, order, limit);
    RoundTakes(before.rows, before.log, order, limit);
    SameMessagesTransitive(rows, before.rows, o.rows);
    DrainsMore(rows, before.rows, PendingIn(rows, order), log, taken, left, before.log, Min(limit, |left|),
      taken', PendingIn(o.rows, order), o.log);
  }

  /** Progress: every round takes min(limit, pending) rows off, oldest first, and after any number of
      rounds the log has got exactly their messages, in that order. */
  lemma {:induction false} RoundsDrain(rows: map<Id, OutboxRow>, log: seq<Envelope>, order: seq<Id>, limit: nat,
      calls: nat)
    requires Distinct(order)
    ensures var pending := PendingIn(rows, order); var o := Rounds(rows, log, order, limit, calls);
      && SameMessages(rows, o.rows)
      && Drained(rows, pending, log, Min(calls * limit, |pending|), PendingIn(o.rows, order), o.log)
  {
    var n := |PendingIn(rows, order)|;
    if calls > 0 {
      var k := calls - 1;
      RoundsDrain(rows, log, order, limit, k);
      NextMultiple(k, limit, n);
      RoundDrains(rows, log, order, limit, Rounds(rows, log, order, limit, k), Min(k * limit, n),
          Min(calls * limit, n));
    } else {
      assert PendingIn(rows, order)[0..] == PendingIn(rows, order);
    }
  }

  lemma EnoughRoundsDrain(rows: map<Id, OutboxRow>, log: seq<Envelope>, order: seq<Id>, limit: nat, calls: nat)
    requires Distinct(order) && calls * limit >= |PendingIn(rows, order)|
    ensures PendingIn(Rounds(rows, log, order, limit, calls).rows, order) == []
  {
    RoundsDrain(rows, log, order, limit, calls);
  }
}
