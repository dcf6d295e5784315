/** When one publisher alone keeps the order of the rows: its calls with all their failures, and rows
    arriving in between. */
module Ordering {
  import opened Schema
  import opened OutboxTable
  import opened Outbox
  import Processing

  datatype Session = Session(rows: map<Id, OutboxRow>, order: seq<Id>, log: seq<Envelope>)

  const Fresh := Session(map[], [], [])

  /** A service commits a row, which sorts at position `at`; or the publisher makes a call. */
  datatype Step = Arrive(row: OutboxRow, at: nat) | Call(limit: nat, fate: nat -> Fate, commits: bool)

  predicate CanTake(s: Session, step: Step) {
    step.Arrive? ==> step.at <= |s.order| && step.row.message.event !in s.rows && !step.row.published
  }

  function Take(s: Session, step: Step): Session
    requires CanTake(s, step)
  {
    match step
    case Arrive(row, at) =>
      var e := row.message.event;
      Session(s.rows[e := row], s.order[..at] + [e] + s.order[at..], s.log)
    case Call(limit, fate, commits) =>
      var o := Attempted(s.rows, s.log, Batch(s.rows, s.order, limit), fate, commits);
      Session(o.rows, s.order, o.log)
  }

  predicate Runs(s: Session, steps: seq<Step>)
    decreases |steps|
  {
    steps == [] || (CanTake(s, steps[0]) && Runs(Take(s, steps[0]), steps[1..]))
  }

  function After(s: Session, steps: seq<Step>): Session
    requires Runs(s, steps)
    decreases |steps|
  {
    if steps == [] then s else After(Take(s, steps[0]), steps[1..])
  }

  function Events(log: seq<Envelope>): (r: seq<Id>)
    ensures |r| == |log| && forall i | 0 <= i < |log| :: r[i] == log[i].event
  {
    seq(|log|, i requires 0 <= i < |log| => log[i].event)
  }

  /** Repeats apart, the log has the rows in their order, without a gap. */
  predicate InOrder(s: Session) {
    Processing.Firsts(Events(s.log)) <= s.order
  }

  /** No row that sorts after the arriving one is in the log already. */
  predicate InTime(s: Session, at: nat) {
    forall i | at <= i < |s.order| :: s.order[i] !in Events(s.log)
  }

  // ---------------------------------------------------------------- what always holds

  ghost predicate Basic(s: Session) {
    && Lists(s.order, s.rows)
    && (forall e | e in s.rows :: s.rows[e].message.event == e)
    && (forall e | e in Events(s.log) :: e in s.rows)
    && (forall e | e in s.rows && s.rows[e].published :: e in Events(s.log))
  }

  /** What a call gets into the log: the first `c` rows of its batch. */
  function Written(s: Session, call: Step): (c: nat)
    requires call.Call?
    ensures c <= |Batch(s.rows, s.order, call.limit)|
  {
    var n := |Batch(s.rows, s.order, call.limit)|;
    var k := Acknowledgements(call.fate, 0, n);
    if k < n && call.fate(k).taken then k + 1 else k
  }

  lemma EventsGrow(rows: map<Id, OutboxRow>, log: seq<Envelope>, batch: seq<Id>)
    requires Enqueued(rows, batch) && forall e | e in rows :: rows[e].message.event == e
    ensures Events(log + Messages(rows, batch)) == Events(log) + batch
  {
    assert forall i | 0 <= i < |batch| :: batch[i] in rows;
  }

  lemma CallLogs(s: Session, call: Step)
    requires Basic(s) && call.Call?
    ensures Events(Take(s, call).log) == Events(s.log) + Batch(s.rows, s.order, call.limit)[..Written(s, call)]
  {
    var batch, c := Batch(s.rows, s.order, call.limit), Written(s, call);
    assert c == |batch| ==> batch[..c] == batch;
    EventsGrow(s.rows, s.log, batch[..c]);
  }

  /** The rows a call newly marks are the front of its batch, all of them in the log. */
  lemma CallMarks(s: Session, call: Step) returns (marked: nat)
    requires Lists(s.order, s.rows) && call.Call?
    ensures marked <= Written(s, call)
    ensures SameMessages(s.rows, Take(s, call).rows)
    ensures var batch := Batch(s.rows, s.order, call.limit);
    forall e | e in s.rows ::
      Take(s, call).rows[e].published <==> s.rows[e].published || e in batch[..marked]
  {
    var batch := Batch(s.rows, s.order, call.limit);
    var k := Acknowledgements(call.fate, 0, |batch|);
    assert batch[..|batch|] == batch;
    marked := if (k == |batch| || call.fate(k).Errored?) && call.commits then k else 0;
    MarksSayTheSame(s.rows, batch[..k]);
  }

  lemma CallKeepsBasic(s: Session, call: Step)
    requires Basic(s) && call.Call?
    ensures Basic(Take(s, call))
  {
    var marked := CallMarks(s, call);
    CallLogs(s, call);
    var batch := Batch(s.rows, s.order, call.limit);
    forall e | e in batch[..Written(s, call)] ensures e in s.rows {
      assert e in batch;
    }
    forall e | e in batch[..marked] ensures e in batch[..Written(s, call)] {
    }
  }

  lemma ArrivalKeepsBasic(s: Session, step: Step)
    requires Basic(s) && CanTake(s, step) && step.Arrive?
    ensures Basic(Take(s, step))
  {
    var e, at := step.row.message.event, step.at;
    var order' := s.order[..at] + [e] + s.order[at..];
    assert s.order == s.order[..at] + s.order[at..];
    assert e !in s.order;
    assert Lists(order', Take(s, step).rows);
  }

  // ---------------------------------------------------------------- in order as long as rows arrive in time

  /** Exactly the first `m` rows are published. */
  predicate PublishedTo(s: Session, m: nat) {
    m <= |s.order| && forall i | 0 <= i < |s.order| :: s.order[i] in s.rows && (s.rows[s.order[i]].published <==> i < m)
  }

  lemma {:induction false} PendingFrom(rows: map<Id, OutboxRow>, order: seq<Id>, m: nat)
    requires m <= |order|
    requires forall i | 0 <= i < |order| :: order[i] in rows && (rows[order[i]].published <==> i < m)
    ensures PendingIn(rows, order) == order[m..]
  {
    if order != [] {
      var rest := if m == 0 then 0 else m - 1;
      PendingFrom(rows, order[1..], rest);
      if m == 0 {
        assert order[1..][0..] == order[1..] && order[0..] == [order[0]] + order[1..];
      } else {
        assert order[1..][m - 1..] == order[m..];
      }
    }
  }

  lemma FirstsNext(events: seq<Id>, e: Id)
    ensures Processing.Firsts(events + [e]) ==
      if e in events then Processing.Firsts(events) else Processing.Firsts(events) + [e]
  {
    assert (events + [e])[..|events|] == events;
  }

  /** Writing rows `m` to `c` once more, or for the first time, adds those the log has not seen. */
  lemma {:induction false} FirstsExtend(events: seq<Id>, order: seq<Id>, k: nat, m: nat, c: nat)
    requires Distinct(order) && m <= k <= |order| && m <= c <= |order| && Processing.Firsts(events) == order[..k]
    ensures Processing.Firsts(events + order[m..c]) == order[..if c <= k then k else c]
  {
    Processing.FirstsMembers(events);
    if m == c {
      assert events + order[m..c] == events;
    } else {
      FirstsExtend(events, order, k, m, c - 1);
      var so := events + order[m..c - 1];
      assert events + order[m..c] == so + [order[c - 1]];
      FirstsNext(so, order[c - 1]);
      Processing.FirstsMembers(so);
      if c <= k {
        assert order[..k][c - 1] == order[c - 1];
      } else {
        assert order[..c] == order[..c - 1] + [order[c - 1]];
      }
    }
  }

  lemma BeyondPrefix(order: seq<Id>, front: seq<Id>, i: nat)
    requires Distinct(order) && front <= order && |front| <= i < |order|
    ensures order[i] !in front
  {
  }

  lemma PublishedIsLogged(s: Session, m: nat)
    requires Basic(s) && PublishedTo(s, m) && InOrder(s)
    ensures m <= |Processing.Firsts(Events(s.log))|
  {
    var firsts := Processing.Firsts(Events(s.log));
    Processing.FirstsMembers(Events(s.log));
    if |firsts| < m {
      BeyondPrefix(s.order, firsts, |firsts|);
      assert false;
    }
  }

  lemma FirstIsLogged(s: Session, i: nat)
    requires InOrder(s) && i < |Processing.Firsts(Events(s.log))|
    ensures i < |s.order| && s.order[i] in Events(s.log)
  {
    Processing.FirstsMembers(Events(s.log));
    assert s.order[i] == Processing.Firsts(Events(s.log))[i];
  }

  lemma WritingKeepsOrder(events: seq<Id>, order: seq<Id>, m: nat, c: nat, events': seq<Id>)
    requires Distinct(order) && m + c <= |order| && m <= |Processing.Firsts(events)|
    requires Processing.Firsts(events) <= order && events' == events + order[m..m + c]
    ensures Processing.Firsts(events') <= order
  {
    FirstsExtend(events, order, |Processing.Firsts(events)|, m, m + c);
  }

  lemma MarkingExtends(s: Session, s': Session, m: nat, m': nat, front: seq<Id>)
    requires Lists(s.order, s.rows) && PublishedTo(s, m) && s'.order == s.order && s'.rows.Keys == s.rows.Keys
    requires m <= m' <= |s.order| && front == s.order[m..m']
    requires forall e | e in s.rows :: s'.rows[e].published <==> s.rows[e].published || e in front
    ensures PublishedTo(s', m')
  {
    forall i | 0 <= i < |s.order| ensures s.order[i] in s'.rows && (s'.rows[s.order[i]].published <==> i < m') {
      assert m <= i < m' ==> front[i - m] == s.order[i];
    }
  }

  /** With exactly the first `m` rows published, a call's batch starts at row `m`. */
  lemma BatchFrom(s: Session, m: nat, limit: nat)
    requires PublishedTo(s, m)
    ensures var batch := Batch(s.rows, s.order, limit);
    m + |batch| <= |s.order| && batch == s.order[m..m + |batch|]
  {
    PendingFrom(s.rows, s.order, m);
  }

  lemma OutcomeKeepsOrder(s: Session, s': Session, m: nat, batch: seq<Id>, c: nat, marked: nat)
    requires Basic(s) && PublishedTo(s, m) && InOrder(s) && s'.order == s.order && SameMessages(s.rows, s'.rows)
    requires marked <= c <= |batch| && m + |batch| <= |s.order| && batch == s.order[m..m + |batch|]
    requires Events(s'.log) == Events(s.log) + batch[..c]
    requires forall e | e in s.rows :: s'.rows[e].published <==> s.rows[e].published || e in batch[..marked]
    ensures PublishedTo(s', m + marked) && InOrder(s')
  {
    PublishedIsLogged(s, m);
    assert batch[..c] == s.order[m..m + c] && batch[..marked] == s.order[m..m + marked];
    WritingKeepsOrder(Events(s.log), s.order, m, c, Events(s'.log));
    MarkingExtends(s, s', m, m + marked, batch[..marked]);
  }

  lemma CallKeepsOrder(s: Session, call: Step, m: nat) returns (m': nat)
    requires Basic(s) && PublishedTo(s, m) && InOrder(s) && call.Call?
    ensures PublishedTo(Take(s, call), m') && InOrder(Take(s, call))
  {
    var batch := Batch(s.rows, s.order, call.limit);
    BatchFrom(s, m, call.limit);
    CallLogs(s, call);
    var marked := CallMarks(s, call);
    OutcomeKeepsOrder(s, Take(s, call), m, batch, Written(s, call), marked);
    m' := m + marked;
  }

  lemma ArrivalKeepsOrder(s: Session, step: Step, m: nat)
    requires Basic(s) && PublishedTo(s, m) && InOrder(s)
    requires CanTake(s, step) && step.Arrive? && InTime(s, step.at)
    ensures PublishedTo(Take(s, step), m) && InOrder(Take(s, step))
  {
    var firsts := Processing.Firsts(Events(s.log));
    PublishedIsLogged(s, m);
    Processing.FirstsMembers(Events(s.log));
    if step.at < |firsts| {
      FirstIsLogged(s, step.at);
      assert false;
    }
    assert firsts == s.order[..|firsts|] == Take(s, step).order[..|firsts|];
  }

  // ---------------------------------------------------------------- out of order for good once one is late

  predicate Precedes(order: seq<Id>, x: Id, y: Id) {
    exists p, q :: 0 <= p < q < |order| && order[p] == x && order[q] == y
  }

  /** `y` occurs with no `x` before it. */
  predicate SeenFirst(events: seq<Id>, y: Id, x: Id) {
    exists j | 0 <= j < |events| :: events[j] == y && x !in events[..j]
  }

  /** What comes earlier among the first occurrences came before any occurrence of the other. */
  lemma {:induction false} FirstsOrdered(events: seq<Id>, p: nat, q: nat, j: nat)
    requires p < q < |Processing.Firsts(events)| && j < |events| && events[j] == Processing.Firsts(events)[q]
    ensures Processing.Firsts(events)[p] in events[..j]
  {
    var n := |events| - 1;
    var shorter := Processing.Firsts(events[..n]);
    Processing.FirstsMembers(events[..n]);
    if q < |shorter| && j < n {
      FirstsOrdered(events[..n], p, q, j);
      assert events[..n][..j] == events[..j];
    } else if j < n {
      assert false;
    } else {
      assert shorter[p] in shorter;
    }
  }

  lemma LateIsOutOfOrder(s: Session, x: Id, y: Id)
    requires Distinct(s.order) && Precedes(s.order, x, y) && SeenFirst(Events(s.log), y, x)
    ensures !InOrder(s)
  {
    var events := Events(s.log);
    var firsts := Processing.Firsts(events);
    var p, q :| 0 <= p < q < |s.order| && s.order[p] == x && s.order[q] == y;
    var j :| 0 <= j < |events| && events[j] == y && x !in events[..j];
    Processing.FirstsMembers(events);
    if InOrder(s) {
      assert y in firsts;
      var r :| 0 <= r < |firsts| && firsts[r] == y;
      assert s.order[r] == firsts[r];
      FirstsOrdered(events, p, q, j);
    }
  }

  lemma SeenStays(events: seq<Id>, more: seq<Id>, y: Id, x: Id)
    requires SeenFirst(events, y, x)
    ensures SeenFirst(events + more, y, x)
  {
    var j :| 0 <= j < |events| && events[j] == y && x !in events[..j];
    assert (events + more)[..j] == events[..j] && (events + more)[j] == y;
  }

  lemma PrecedesStays(order: seq<Id>, at: nat, e: Id, x: Id, y: Id)
    requires at <= |order| && Precedes(order, x, y)
    ensures Precedes(order[..at] + [e] + order[at..], x, y)
  {
    var p, q :| 0 <= p < q < |order| && order[p] == x && order[q] == y;
    var longer := order[..at] + [e] + order[at..];
    assert longer[if p < at then p else p + 1] == x && longer[if q < at then q else q + 1] == y;
  }

  /** Neither calls nor arrivals undo it: logs only grow and rows keep their order. */
  lemma LateStaysLate(s: Session, step: Step, x: Id, y: Id)
    requires Basic(s) && CanTake(s, step) && Precedes(s.order, x, y) && SeenFirst(Events(s.log), y, x)
    ensures Precedes(Take(s, step).order, x, y) && SeenFirst(Events(Take(s, step).log), y, x)
  {
    if step.Call? {
      CallLogs(s, step);
      SeenStays(Events(s.log), Batch(s.rows, s.order, step.limit)[..Written(s, step)], y, x);
    } else {
      PrecedesStays(s.order, step.at, step.row.message.event, x, y);
    }
  }

  lemma LateArrival(s: Session, step: Step) returns (x: Id, y: Id)
    requires Basic(s) && CanTake(s, step) && step.Arrive? && !InTime(s, step.at)
    ensures Precedes(Take(s, step).order, x, y) && SeenFirst(Events(Take(s, step).log), y, x)
  {
    var i :| step.at <= i < |s.order| && s.order[i] in Events(s.log);
    x, y := step.row.message.event, s.order[i];
    var j :| 0 <= j < |s.log| && Events(s.log)[j] == y;
    var order' := Take(s, step).order;
    assert order'[step.at] == x && order'[i + 1] == y;
    forall l | 0 <= l < j ensures Events(s.log)[l] != x {
      assert Events(s.log)[l] in Events(s.log);
    }
  }

  lemma StepKeepsBasic(s: Session, step: Step)
    requires Basic(s) && CanTake(s, step)
    ensures Basic(Take(s, step))
  {
    if step.Call? {
      CallKeepsBasic(s, step);
    } else {
      ArrivalKeepsBasic(s, step);
    }
  }

  lemma {:induction false} LateForGood(s: Session, steps: seq<Step>, x: Id, y: Id)
    requires Basic(s) && Runs(s, steps) && Precedes(s.order, x, y) && SeenFirst(Events(s.log), y, x)
    ensures !InOrder(After(s, steps))
    decreases |steps|
  {
    if steps == [] {
      LateIsOutOfOrder(s, x, y);
    } else {
      StepKeepsBasic(s, steps[0]);
      LateStaysLate(s, steps[0], x, y);
      LateForGood(Take(s, steps[0]), steps[1..], x, y);
    }
  }

  // ---------------------------------------------------------------- exactly when

  predicate AllInTime(s: Session, steps: seq<Step>)
    requires Runs(s, steps)
    decreases |steps|
  {
    steps == [] || ((steps[0].Arrive? ==> InTime(s, steps[0].at)) && AllInTime(Take(s, steps[0]), steps[1..]))
  }

  lemma {:induction false} InOrderIffInTime(s: Session, steps: seq<Step>, m: nat)
    requires Basic(s) && PublishedTo(s, m) && InOrder(s) && Runs(s, steps)
    ensures InOrder(After(s, steps)) <==> AllInTime(s, steps)
    decreases |steps|
  {
    if steps != [] {
      var step := steps[0];
      StepKeepsBasic(s, step);
      if step.Call? {
        var m' := CallKeepsOrder(s, step, m);
        InOrderIffInTime(Take(s, step), steps[1..], m');
      } else if InTime(s, step.at) {
        ArrivalKeepsOrder(s, step, m);
        InOrderIffInTime(Take(s, step), steps[1..], m);
      } else {
        var x, y := LateArrival(s, step);
        LateForGood(Take(s, step), steps[1..], x, y);
      }
    }
  }

  /** One publisher, whatever its calls meet: repeats apart, the log has the rows in their order if and
      only if no row arrives behind one that is in the log already. */
  lemma OneKeepsOrder(steps: seq<Step>)
    requires Runs(Fresh, steps)
    ensures InOrder(After(Fresh, steps)) <==> AllInTime(Fresh, steps)
  {
    InOrderIffInTime(Fresh, steps, 0);
  }

  // ---------------------------------------------------------------- partitions

  lemma FirstsAmongNext(before: seq<Id>, e: Id, some: seq<Id>)
    requires Processing.Firsts(Among(before, some)) == Among(Processing.Firsts(before), some)
    ensures Processing.Firsts(Among(before + [e], some)) == Among(Processing.Firsts(before + [e]), some)
  {
    AmongNext(before, e, some);
    FirstsNext(before, e);
    if e in some {
      AmongMembers(before, some);
      FirstsNext(Among(before, some), e);
      AmongNext(Processing.Firsts(before), e, some);
    } else {
      AmongNext(Processing.Firsts(before), e, some);
      assert Among(before, some) + [] == Among(before, some);
    }
  }

  lemma {:induction false} FirstsAmong(events: seq<Id>, some: seq<Id>)
    ensures Processing.Firsts(Among(events, some)) == Among(Processing.Firsts(events), some)
  {
    if events != [] {
      var n := |events| - 1;
      FirstsAmong(events[..n], some);
      FirstsAmongNext(events[..n], events[n], some);
      assert events == events[..n] + [events[n]];
    }
  }

  lemma {:induction false} AmongPrefix(a: seq<Id>, b: seq<Id>, some: seq<Id>)
    requires a <= b
    ensures Among(a, some) <= Among(b, some)
  {
    if a != [] {
      AmongPrefix(a[1..], b[1..], some);
    }
  }

  /** A partition that takes the same rows at every write has its rows in their order too. */
  lemma PartitionInOrder(s: Session, part: seq<Id>)
    requires InOrder(s)
    ensures Processing.Firsts(Among(Events(s.log), part)) <= Among(s.order, part)
  {
    FirstsAmong(Events(s.log), part);
    AmongPrefix(Processing.Firsts(Events(s.log)), s.order, part);
  }
}
