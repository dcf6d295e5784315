/** The interleaved statement-level system as a run of atomic operations, so that everything proved of
    runs holds of every interleaving. */
module Concurrency {
  import opened Schema
  import opened Interleaving
  import opened Linearizability
  import Runs = System

  function OpOf(c: Call): Runs.Op {
    match c
    case Create(r, m, now) => Runs.Op.Create(r, m, now)
    case Verify(r, event, at) => Runs.Op.Verify(r, event, at)
  }

  /** The operations of a log, in the order they took effect. */
  function Ops(log: seq<Done>): (ops: seq<Runs.Op>)
    ensures |ops| == |log|
  {
    if log == [] then [] else Ops(log[..|log| - 1]) + [OpOf(log[|log| - 1].call)]
  }

  lemma AtomicIsApply(t: Tables, c: Call)
    ensures Atomic(t, c).0 == Runs.Apply(t, OpOf(c))
  {
  }

  lemma RunOneMore(t: Tables, ops: seq<Runs.Op>, op: Runs.Op)
    ensures Runs.Run(t, ops + [op]) == Runs.Apply(Runs.Run(t, ops), op)
  {
    assert (ops + [op])[..|ops|] == ops;
  }

  lemma {:induction false} SerialIsRun(t0: Tables, log: seq<Done>, t: Tables)
    requires Serial(t0, log, t)
    ensures t == Runs.Run(t0, Ops(log))
  {
    if log != [] {
      var n := |log| - 1;
      var mid :| Serial(t0, log[..n], mid) && Atomic(mid, log[n].call) == (t, log[n].reply);
      SerialIsRun(t0, log[..n], mid);
      AtomicIsApply(mid, log[n].call);
      RunOneMore(t0, Ops(log[..n]), OpOf(log[n].call));
    }
  }

  /** Any interleaving of `Create` and `Verify` statements over any number of clients ends in the
      tables of an atomic run, and keeps every invariant those runs keep. */
  lemma InterleavingsAreRuns(opening: map<Id, Stock>, s: Sys, moves: seq<Move>)
    requires Initial(s) && Run(s, moves) && Runs.Sound(opening, s.tables)
    ensures var e := Exec(s, moves);
      e.tables == Runs.Run(s.tables, Ops(e.log)) && Runs.Sound(opening, e.tables)
  {
    var e := Exec(s, moves);
    Linearizable(s, moves);
    SerialIsRun(s.tables, e.log, e.tables);
    Runs.RunsAreSound(opening, s.tables, Ops(e.log));
  }
}
