/** The pipeline can always come to rest: from every reachable state, without any further service call,
    publishing and consuming alone lead to a state where the projection is the outbox. */
module Settling {
  import Schema
  import opened Pipeline
  import System
  import opened OutboxTable

  /** Ordinary progress: batches are selected, written and committed, messages consumed and
      acknowledged. Nothing crashes, gives up or starts over, and no service is called. */
  predicate Smooth(m: Move) {
    m.Select? || m.Write? || m.Finish? || m.Consume? || m.Acknowledge?
  }

  predicate Quietly(moves: seq<Move>) {
    forall i | 0 <= i < |moves| :: Smooth(moves[i])
  }

  /** One move in front of a run. */
  lemma RunsAfter(w: World, m: Move, rest: seq<Move>)
    requires Enabled(w, m) && Runs(Next(w, m), rest)
    ensures Runs(w, [m] + rest) && Exec(w, [m] + rest) == Exec(Next(w, m), rest)
  {
    assert ([m] + rest)[1..] == rest;
  }

  lemma FirstApart(a: seq<Move>, b: seq<Move>)
    requires a != []
    ensures a + b == [a[0]] + (a[1..] + b)
  {
  }

  lemma {:induction false} RunsOn(w: World, a: seq<Move>, b: seq<Move>)
    requires Runs(w, a) && Runs(Exec(w, a), b)
    ensures Runs(w, a + b) && Exec(w, a + b) == Exec(Exec(w, a), b)
    decreases |a|
  {
    if a == [] {
      assert a + b == b;
    } else {
      RunsOn(Next(w, a[0]), a[1..], b);
      RunsAfter(w, a[0], a[1..] + b);
      FirstApart(a, b);
    }
  }

  // ---------------------------------------------------------------- publishers finish their batches

  predicate IdleFrom(w: World, n: nat) {
    forall i | n <= i < |w.publishers| :: w.publishers[i] == Idle
  }

  /** A batch under way consists of outbox rows. */
  predicate Writable(outbox: map<Schema.Id, Schema.OutboxRow>, pub: Publisher) {
    pub.Working? ==> pub.written <= |pub.batch| && forall i | 0 <= i < |pub.batch| :: pub.batch[i] in outbox
  }

  predicate AllWritable(w: World) {
    forall i | 0 <= i < |w.publishers| :: Writable(w.tables.outbox, w.publishers[i])
  }

  /** All but one publisher are as they were, and so are the rows, up to being published. */
  predicate OthersSame(w: World, x: World, i: nat) {
    && |x.publishers| == |w.publishers| && x.tables.outbox.Keys == w.tables.outbox.Keys
    && (forall j | 0 <= j < |w.publishers| && j != i :: x.publishers[j] == w.publishers[j])
  }

  /** One publisher writes its next row. */
  lemma WriteNext(w: World, i: nat) returns (m: Move, x: World)
    requires i < |w.publishers| && w.publishers[i].Working? && Writable(w.tables.outbox, w.publishers[i])
    requires w.publishers[i].written < |w.publishers[i].batch|
    ensures Enabled(w, m) && Smooth(m) && x == Next(w, m) && OthersSame(w, x, i) && x.tables == w.tables
    ensures x.publishers[i] == Working(w.publishers[i].batch, w.publishers[i].written + 1)
    ensures Writable(x.tables.outbox, x.publishers[i])
  {
    var pub := w.publishers[i];
    m := Write(i, Partition(w.tables.outbox[pub.batch[pub.written]].topic, 0));
    x := Next(w, m);
  }

  lemma QuietlyAfter(m: Move, rest: seq<Move>)
    requires Smooth(m) && Quietly(rest)
    ensures Quietly([m] + rest)
  {
  }

  lemma OthersSameTransitive(w: World, x: World, y: World, i: nat)
    requires OthersSame(w, x, i) && OthersSame(x, y, i)
    ensures OthersSame(w, y, i)
  {
  }

  /** One publisher writes the rest of its batch and commits. */
  lemma {:induction false} FinishBatch(w: World, i: nat) returns (moves: seq<Move>)
    requires i < |w.publishers| && w.publishers[i].Working? && Writable(w.tables.outbox, w.publishers[i])
    ensures Runs(w, moves) && Quietly(moves)
    ensures var x := Exec(w, moves); OthersSame(w, x, i) && x.publishers[i] == Idle
    ensures Exec(w, moves).tables.outbox == MarkAll(w.tables.outbox, w.publishers[i].batch)
    decreases |w.publishers[i].batch| - w.publishers[i].written
  {
    var pub := w.publishers[i];
    if pub.written == |pub.batch| {
      RunsAfter(w, Finish(i), []);
      moves := [Finish(i)] + [];
    } else {
      var m, x := WriteNext(w, i);
      var rest := FinishBatch(x, i);
      RunsAfter(w, m, rest);
      QuietlyAfter(m, rest);
      OthersSameTransitive(w, x, Exec(x, rest), i);
      moves := [m] + rest;
    }
  }

  lemma OthersStayWritable(w: World, x: World, i: nat)
    requires AllWritable(w) && OthersSame(w, x, i) && i < |x.publishers| && x.publishers[i] == Idle
    ensures AllWritable(x)
  {
    forall j | 0 <= j < |x.publishers| ensures Writable(x.tables.outbox, x.publishers[j]) {
      assert j != i ==> Writable(w.tables.outbox, w.publishers[j]);
    }
  }

  lemma {:induction false} FinishBatches(w: World, n: nat) returns (moves: seq<Move>)
    requires IdleFrom(w, n) && n <= |w.publishers| && AllWritable(w)
    ensures Runs(w, moves) && Quietly(moves)
    ensures var x := Exec(w, moves); IdleFrom(x, 0) && |x.publishers| == |w.publishers|
    decreases n
  {
    if n == 0 {
      moves := [];
    } else if w.publishers[n - 1] == Idle {
      moves := FinishBatches(w, n - 1);
    } else {
      assert Writable(w.tables.outbox, w.publishers[n - 1]);
      var first := FinishBatch(w, n - 1);
      var x := Exec(w, first);
      OthersStayWritable(w, x, n - 1);
      var rest := FinishBatches(x, n - 1);
      RunsOn(w, first, rest);
      moves := first + rest;
    }
  }

  // ---------------------------------------------------------------- every row gets published

  function Unpublished(outbox: map<Schema.Id, Schema.OutboxRow>): set<Schema.Id> {
    set e | e in outbox && Waiting(outbox, e)
  }

  /** With nobody holding locks, a publisher gets rows as long as any wait. */
  lemma SomeOldest(w: World)
    requires IdleFrom(w, 0) && Lists(w.order, w.tables.outbox) && w.limit >= 1 && Unpublished(w.tables.outbox) != {}
    ensures Oldest(w) != [] && Oldest(w)[0] in Unpublished(w.tables.outbox)
  {
    var e :| e in Unpublished(w.tables.outbox);
    assert forall p | p in w.publishers :: p == Idle;
    PendingMembers(w.tables.outbox, w.order);
    UnlockedMembers(PendingIn(w.tables.outbox, w.order), Locked(w.publishers));
    assert e in Free(w);
    OldestMembers(w);
  }

  lemma SelectedIsWritable(w: World, x: World)
    requires |w.publishers| > 0 && w.publishers[0] == Idle && x == Next(w, Select(0))
    ensures x.tables == w.tables && x.publishers == w.publishers[0 := Working(Oldest(w), 0)]
    ensures Writable(x.tables.outbox, x.publishers[0])
  {
    OldestMembers(w);
  }

  lemma MarkedAreFewer(outbox: map<Schema.Id, Schema.OutboxRow>, batch: seq<Schema.Id>)
    requires batch != [] && batch[0] in Unpublished(outbox)
    ensures |Unpublished(MarkAll(outbox, batch))| < |Unpublished(outbox)|
  {
    var before, after := Unpublished(outbox), Unpublished(MarkAll(outbox, batch));
    assert after <= before - {batch[0]};
    FewerMembers(after, before - {batch[0]});
  }

  lemma {:induction false} FewerMembers(a: set<Schema.Id>, b: set<Schema.Id>)
    requires a <= b
    ensures |a| <= |b|
  {
    if a != {} {
      var e :| e in a;
      FewerMembers(a - {e}, b - {e});
    }
  }

  lemma IdleAgain(w: World, x: World, y: World)
    requires IdleFrom(w, 0) && |w.publishers| > 0 && |x.publishers| == |w.publishers|
    requires x.publishers == w.publishers[0 := x.publishers[0]]
    requires OthersSame(x, y, 0) && y.publishers[0] == Idle
    ensures IdleFrom(y, 0) && |y.publishers| == |w.publishers|
  {
  }

  /** One publisher selects the oldest rows up to the limit, writes them and commits. */
  lemma PublishBatch(w: World) returns (moves: seq<Move>)
    requires IdleFrom(w, 0) && |w.publishers| > 0 && Lists(w.order, w.tables.outbox) && w.limit >= 1
    requires Unpublished(w.tables.outbox) != {}
    ensures Runs(w, moves) && Quietly(moves)
    ensures var y := Exec(w, moves);
    && IdleFrom(y, 0) && |y.publishers| == |w.publishers|
    && |Unpublished(y.tables.outbox)| < |Unpublished(w.tables.outbox)|
  {
    SomeOldest(w);
    var x := Next(w, Select(0));
    SelectedIsWritable(w, x);
    var rest := FinishBatch(x, 0);
    IdleAgain(w, x, Exec(x, rest));
    MarkedAreFewer(w.tables.outbox, Oldest(w));
    RunsAfter(w, Select(0), rest);
    QuietlyAfter(Select(0), rest);
    moves := [Select(0)] + rest;
  }

  lemma {:induction false} PublishAll(w: World) returns (moves: seq<Move>)
    requires IdleFrom(w, 0) && |w.publishers| > 0 && Lists(w.order, w.tables.outbox) && w.limit >= 1
    ensures Runs(w, moves) && Quietly(moves) && Unpublished(Exec(w, moves).tables.outbox) == {}
    decreases |Unpublished(w.tables.outbox)|
  {
    if Unpublished(w.tables.outbox) == {} {
      moves := [];
    } else {
      var first := PublishBatch(w);
      RunKeepsOrder(w, first);
      var rest := PublishAll(Exec(w, first));
      RunsOn(w, first, rest);
      moves := first + rest;
    }
  }

  // ---------------------------------------------------------------- every consumer catches up

  predicate InRange(w: World, p: Partition) {
    At(w, p).committed <= At(w, p).position <= |Log(w, p)|
  }

  /** What consuming one partition leaves alone. */
  ghost predicate ElsewhereSame(w: World, x: World, p: Partition) {
    x.tables == w.tables && x.logs == w.logs && forall q | q != p :: At(x, q) == At(w, q)
  }

  lemma {:induction false} CatchUp(w: World, p: Partition) returns (moves: seq<Move>)
    requires InRange(w, p)
    ensures Runs(w, moves) && Quietly(moves)
    ensures var x := Exec(w, moves); ElsewhereSame(w, x, p) && InRange(x, p) && At(x, p).committed == |Log(w, p)|
    decreases |Log(w, p)| - At(w, p).position
  {
    var m := if At(w, p).position < |Log(w, p)| then Consume(p) else Acknowledge(p);
    var w1 := Next(w, m);
    assert ElsewhereSame(w, w1, p);
    if m.Consume? {
      var rest := CatchUp(w1, p);
      RunsAfter(w, m, rest);
      moves := [m] + rest;
    } else {
      RunsAfter(w, m, []);
      moves := [m] + [];
    }
  }

  /** The partitions whose consumer has not committed to the end. */
  function Lagging(w: World): set<Partition> {
    set p | p in w.logs && At(w, p).committed != |w.logs[p]|
  }

  lemma OneCaughtUp(w: World, x: World, p: Partition)
    requires ElsewhereSame(w, x, p) && InRange(x, p) && p in Lagging(w) && At(x, p).committed == |Log(w, p)|
    requires forall q :: InRange(w, q)
    ensures Lagging(x) == Lagging(w) - {p} && forall q :: InRange(x, q)
  {
    forall q ensures InRange(x, q) {
      assert q != p ==> InRange(w, q);
    }
  }

  lemma {:induction false} CatchUpAll(w: World) returns (moves: seq<Move>)
    requires forall p :: InRange(w, p)
    ensures Runs(w, moves) && Quietly(moves)
    ensures var x := Exec(w, moves); x.tables == w.tables && Lagging(x) == {}
    decreases |Lagging(w)|
  {
    if Lagging(w) == {} {
      moves := [];
    } else {
      var p :| p in Lagging(w);
      var first := CatchUp(w, p);
      OneCaughtUp(w, Exec(w, first), p);
      var rest := CatchUpAll(Exec(w, first));
      RunsOn(w, first, rest);
      moves := first + rest;
    }
  }

  /** First every row gets published. */
  lemma SettleRows(w: World) returns (moves: seq<Move>)
    requires Flow(w) && |w.publishers| > 0 && Lists(w.order, w.tables.outbox) && w.limit >= 1
    ensures Runs(w, moves) && Quietly(moves) && Unpublished(Exec(w, moves).tables.outbox) == {}
  {
    BatchesAreRows(w);
    var finished := FinishBatches(w, |w.publishers|);
    RunKeepsOrder(w, finished);
    var published := PublishAll(Exec(w, finished));
    RunsOn(w, finished, published);
    moves := finished + published;
  }

  /** Then every message gets consumed. */
  lemma SettleOffsets(w: World) returns (moves: seq<Move>)
    requires Flow(w) && Unpublished(w.tables.outbox) == {}
    ensures Runs(w, moves) && Quietly(moves) && Quiet(Exec(w, moves))
  {
    forall p ensures InRange(w, p) {
      assert CaughtUp(Log(w, p), At(w, p), w.projection);
    }
    moves := CatchUpAll(w);
    Rested(Exec(w, moves));
  }

  lemma ReachedFlow(start: World, history: seq<Move>)
    requires Initial(start) && Runs(start, history)
    ensures Flow(Exec(start, history))
  {
    System.OpeningIsSound(start.tables);
    InitialFlow(start);
    RunKeeps(start.tables.inventory, start, history);
  }

  /** From every state a run can reach, with at least one publisher, publishers and consumers that just
      go on with their work bring everything to rest. */
  lemma CanSettle(start: World, history: seq<Move>) returns (moves: seq<Move>)
    requires Initial(start) && Runs(start, history) && |Exec(start, history).publishers| > 0
    ensures Quietly(moves) && Runs(start, history + moves) && Quiet(Exec(start, history + moves))
    ensures Mirrors(Exec(start, history + moves))
  {
    ReachedFlow(start, history);
    RunKeepsOrder(start, history);
    var rows := SettleRows(Exec(start, history));
    RunsOn(start, history, rows);
    ReachedFlow(start, history + rows);
    var offsets := SettleOffsets(Exec(start, history + rows));
    RunsOn(start, history + rows, offsets);
    moves := rows + offsets;
    Regroup(history, rows, offsets);
    QuietEndMirrors(start, history + moves);
  }

  lemma Regroup(a: seq<Move>, b: seq<Move>, c: seq<Move>)
    ensures a + b + c == a + (b + c)
  {
  }

  lemma QuietEndMirrors(start: World, history: seq<Move>)
    requires Initial(start) && Runs(start, history) && Quiet(Exec(start, history))
    ensures Mirrors(Exec(start, history))
  {
    EndToEnd(start, history);
  }

  lemma BatchesAreRows(w: World)
    requires Flow(w)
    ensures AllWritable(w)
  {
    forall i | 0 <= i < |w.publishers| ensures Writable(w.tables.outbox, w.publishers[i]) {
      assert WrittenLogged(w.tables.outbox, w.logs, w.publishers[i]);
    }
  }

  lemma Rested(w: World)
    requires Unpublished(w.tables.outbox) == {} && Lagging(w) == {}
    ensures Quiet(w)
  {
    forall e | e in w.tables.outbox ensures w.tables.outbox[e].published {
      assert e !in Unpublished(w.tables.outbox);
    }
    forall p | p in w.logs ensures At(w, p).committed == |w.logs[p]| {
      assert p !in Lagging(w);
    }
  }
}
