/** Two publishers do not keep the order of the rows, even without any failure: the second skips the
    rows the first has locked, and may write before it. */
module Overtaking {
  import opened Schema
  import opened OutboxTable
  import opened Pipeline
  import Journeys
  import Settling
  import System

  function Message(w: World, e: Id): Envelope
    requires e in w.tables.outbox
  {
    w.tables.outbox[e].message
  }

  // ---------------------------------------------------------------- the second writes first

  lemma SecondWritesFirst(w: World, a: Id, b: Id, p: Partition)
    requires |w.publishers| >= 2 && w.publishers[0] == Working([a], 0) && w.publishers[1] == Working([b], 0)
    requires a in w.tables.outbox && b in w.tables.outbox
    requires w.tables.outbox[a].topic == w.tables.outbox[b].topic == p.topic
    ensures Runs(w, [Write(1, p), Write(0, p)])
    ensures var x := Exec(w, [Write(1, p), Write(0, p)]);
    Log(x, p) == Log(w, p) + [Message(w, b), Message(w, a)] && x.order == w.order
  {
    var y := Next(w, Write(1, p));
    Settling.RunsAfter(y, Write(0, p), []);
    Settling.RunsAfter(w, Write(1, p), [Write(0, p)] + []);
    assert [Write(1, p)] + ([Write(0, p)] + []) == [Write(1, p), Write(0, p)];
    assert Log(y, p) == Log(w, p) + [Message(w, b)];
    assert Log(w, p) + [Message(w, b)] + [Message(w, a)] == Log(w, p) + [Message(w, b), Message(w, a)];
  }

  // ---------------------------------------------------------------- what the two publishers select

  lemma OnlyRow(w: World, a: Id)
    requires w.limit >= 1 && w.order == [a] && Waiting(w.tables.outbox, a) && a !in Locked(w.publishers)
    ensures Oldest(w) == [a]
  {
    assert [a][1..] == [];
    assert PendingIn(w.tables.outbox, [a]) == [a] && Unlocked([a], Locked(w.publishers)) == [a];
    assert Free(w) == [a];
  }

  lemma SecondRow(w: World, a: Id, b: Id)
    requires w.limit >= 1 && w.order == [a, b] && Waiting(w.tables.outbox, a) && Waiting(w.tables.outbox, b)
    requires a in Locked(w.publishers) && b !in Locked(w.publishers)
    ensures Oldest(w) == [b]
  {
    var both := [a, b];
    assert both[1..] == [b] && [b][1..] == [];
    assert PendingIn(w.tables.outbox, [b]) == [b];
    assert PendingIn(w.tables.outbox, both) == both;
    assert Unlocked([b], Locked(w.publishers)) == [b];
    assert Free(w) == [b];
  }

  // ---------------------------------------------------------------- from any state

  /** Nothing crashes, gives up or starts over, and no write goes unacknowledged. */
  predicate Faultless(moves: seq<Move>) {
    forall i | 0 <= i < |moves| :: moves[i].Serve? || Settling.Smooth(moves[i])
  }

  lemma FaultlessOn(a: seq<Move>, b: seq<Move>)
    requires Faultless(a) && Faultless(b)
    ensures Faultless(a + b)
  {
  }

  lemma OvertakingIsFaultless(op: System.Op, order: seq<Id>, p: Partition)
    ensures Faultless([Serve(op, order)])
    ensures Faultless([Select(0), Serve(op, order), Select(1)] + [Write(1, p), Write(0, p)])
  {
  }

  /** The state in which the first publisher holds `a`, the second `b`, and nothing is written yet. */
  lemma BothSelected(w: World, op: System.Op, order: seq<Id>, a: Id, b: Id) returns (x: World)
    requires |w.publishers| >= 2 && w.publishers[0] == Idle && w.publishers[1] == Idle && Oldest(w) == [a]
    requires Enabled(Next(w, Select(0)), Serve(op, order))
    requires Oldest(Next(Next(w, Select(0)), Serve(op, order))) == [b]
    ensures Runs(w, [Select(0), Serve(op, order), Select(1)])
    ensures x == Exec(w, [Select(0), Serve(op, order), Select(1)])
    ensures x == w.(tables := System.Apply(w.tables, op), order := order,
      publishers := w.publishers[0 := Working([a], 0)][1 := Working([b], 0)])
  {
    var w1 := Next(w, Select(0));
    var w2 := Next(w1, Serve(op, order));
    x := Next(w2, Select(1));
    Settling.RunsAfter(w2, Select(1), []);
    Settling.RunsAfter(w1, Serve(op, order), [Select(1)] + []);
    Settling.RunsAfter(w, Select(0), [Serve(op, order)] + ([Select(1)] + []));
    assert [Select(0)] + ([Serve(op, order)] + ([Select(1)] + [])) == [Select(0), Serve(op, order), Select(1)];
  }

  /** Whenever one publisher has selected `a` and a service then enqueues `b`, the other can select `b`
      and write it first. */
  lemma OrderIsNotKept(w: World, op: System.Op, order: seq<Id>, a: Id, b: Id, p: Partition)
    returns (moves: seq<Move>)
    requires |w.publishers| >= 2 && w.publishers[0] == Idle && w.publishers[1] == Idle && Oldest(w) == [a]
    requires Enabled(Next(w, Select(0)), Serve(op, order))
    requires Oldest(Next(Next(w, Select(0)), Serve(op, order))) == [b]
    requires var rows := System.Apply(w.tables, op).outbox;
    a in rows && b in rows && rows[a].topic == rows[b].topic == p.topic
    ensures Runs(w, moves) && Faultless(moves) && Exec(w, moves).order == order
    ensures var rows := System.Apply(w.tables, op).outbox;
    Log(Exec(w, moves), p) == Log(w, p) + [rows[b].message, rows[a].message]
  {
    var x := BothSelected(w, op, order, a, b);
    SecondWritesFirst(x, a, b, p);
    Settling.RunsOn(w, [Select(0), Serve(op, order), Select(1)], [Write(1, p), Write(0, p)]);
    OvertakingIsFaultless(op, order, p);
    moves := [Select(0), Serve(op, order), Select(1)] + [Write(1, p), Write(0, p)];
  }

  // ---------------------------------------------------------------- a whole run

  /** A user's entry: what is asked, what is minted for it, and when. */
  datatype Visit = Visit(request: Journeys.EnterRequest, journey: Uuid, event: Uuid, at: int)

  function Entry(v: Visit): System.Op {
    System.Op.Enter(v.request, v.journey, v.event, v.at)
  }

  function RowOf(v: Visit): OutboxRow {
    Journeys.EnteredRow(v.request, v.journey, v.event, v.at)
  }

  lemma EntryEnqueues(t: Tables, v: Visit)
    requires Journeys.Acceptable(t, v.request) && v.journey !in t.journeys && v.event !in t.outbox
    ensures var t' := System.Apply(t, Entry(v));
    && t'.outbox == t.outbox[v.event := RowOf(v)]
    && t'.stations == t.stations && t'.journeys.Keys == t.journeys.Keys + {v.journey}
  {
    Journeys.EnterAdds(t, v.request, v.journey, v.event, v.at);
  }

  lemma NobodyLocks(w: World)
    requires Initial(w)
    ensures Settling.IdleFrom(w, 0) && Locked(w.publishers) == {}
  {
    assert forall i | 0 <= i < |w.publishers| :: w.publishers[i] in w.publishers;
  }

  lemma OnlyFirstLocks(w: World, a: Id)
    requires w.publishers != [] && w.publishers[0] == Working([a], 0) && Settling.IdleFrom(w, 1)
    ensures Locked(w.publishers) == {a}
  {
    assert w.publishers[0] in w.publishers && a in [a];
  }

  lemma OneBehind(a: Id, b: Id)
    requires a != b
    ensures Extends([a, b], [a])
  {
    assert [a, b][1..] == [b] && [b][1..] == [];
    assert Among([b], [a]) == [];
  }

  lemma ListsOne(a: Id, row: OutboxRow)
    ensures Lists([a], map[a := row]) && Extends([a], [])
  {
    assert [a][1..] == [];
  }

  /** The first entry waits, and a publisher selects it. */
  lemma FirstEntry(start: World, v: Visit) returns (w: World)
    requires Initial(start) && Journeys.Acceptable(start.tables, v.request)
    ensures Enabled(start, Serve(Entry(v), [v.event])) && w == Next(start, Serve(Entry(v), [v.event]))
    ensures Settling.IdleFrom(w, 0) && |w.publishers| == |start.publishers| && w.limit >= 1 && w.logs == map[]
    ensures w.order == [v.event]
    ensures w.tables.outbox == map[v.event := RowOf(v)] && w.tables.stations == start.tables.stations
    ensures w.tables.journeys.Keys == {v.journey} && Oldest(w) == [v.event]
  {
    EntryEnqueues(start.tables, v);
    NobodyLocks(start);
    ListsOne(v.event, RowOf(v));
    w := Next(start, Serve(Entry(v), [v.event]));
    OnlyRow(w, v.event);
  }

  lemma ListsBoth(rows: map<Id, OutboxRow>, a: Id, b: Id, row: OutboxRow)
    requires rows.Keys == {a} && a != b
    ensures Lists([a, b], rows[b := row])
  {
  }

  /** The second entry comes while the first is locked, and is all that is left to select. */
  lemma SecondEntry(w1: World, first: Id, v: Visit)
    requires |w1.publishers| >= 2 && w1.publishers[0] == Working([first], 0) && Settling.IdleFrom(w1, 1)
    requires w1.limit >= 1 && w1.order == [first] && w1.tables.outbox.Keys == {first}
    requires Waiting(w1.tables.outbox, first) && v.event != first
    requires Journeys.Acceptable(w1.tables, v.request) && v.journey !in w1.tables.journeys
    ensures System.Apply(w1.tables, Entry(v)).outbox == w1.tables.outbox[v.event := RowOf(v)]
    ensures Enabled(w1, Serve(Entry(v), [first, v.event]))
    ensures Oldest(Next(w1, Serve(Entry(v), [first, v.event]))) == [v.event]
  {
    EntryEnqueues(w1.tables, v);
    OneBehind(first, v.event);
    ListsBoth(w1.tables.outbox, first, v.event, RowOf(v));
    OnlyFirstLocks(w1, first);
    SecondRow(Next(w1, Serve(Entry(v), [first, v.event])), first, v.event);
  }

  lemma SecondOvertakes(w: World, first: Id, v: Visit, p: Partition) returns (moves: seq<Move>)
    requires |w.publishers| >= 2 && Settling.IdleFrom(w, 0) && w.limit >= 1
    requires w.order == [first] && w.tables.outbox.Keys == {first} && Waiting(w.tables.outbox, first)
    requires Oldest(w) == [first] && v.event != first
    requires Journeys.Acceptable(w.tables, v.request) && v.journey !in w.tables.journeys
    requires w.tables.outbox[first].topic == p.topic == JourneyEntered
    ensures Runs(w, moves) && Faultless(moves) && Exec(w, moves).order == [first, v.event]
    ensures Log(Exec(w, moves), p) == Log(w, p) + [RowOf(v).message, w.tables.outbox[first].message]
  {
    SecondEntry(Next(w, Select(0)), first, v);
    moves := OrderIsNotKept(w, Entry(v), [first, v.event], first, v.event, p);
  }

  /** Two entries of one user, from the empty system: the second overtakes the first. */
  lemma EntriesOvertake(start: World, first: Visit, second: Visit, p: Partition) returns (moves: seq<Move>)
    requires Initial(start) && |start.publishers| >= 2 && p.topic == JourneyEntered
    requires Journeys.Acceptable(start.tables, first.request) && Journeys.Acceptable(start.tables, second.request)
    requires first.request.user == second.request.user
    requires first.journey != second.journey && first.event != second.event
    ensures Runs(start, moves) && Faultless(moves) && Exec(start, moves).order == [first.event, second.event]
    ensures Log(Exec(start, moves), p) == [RowOf(second).message, RowOf(first).message]
  {
    var w := FirstEntry(start, first);
    var rest := SecondOvertakes(w, first.event, second, p);
    Settling.RunsAfter(start, Serve(Entry(first), [first.event]), rest);
    OvertakingIsFaultless(Entry(first), [first.event], p);
    FaultlessOn([Serve(Entry(first), [first.event])], rest);
    moves := [Serve(Entry(first), [first.event])] + rest;
  }
}
