/** The analytics consumer loop: insert first, commit the offset after. Stopping anywhere and starting
    over from the committed offset changes nothing that has been projected. */
module AnalyticsConsumer {
  import opened Schema
  import opened Analytics

  type Message = Option<Envelope>

  type Projection = map<Id, ProductEvent>

  function Inserted(rows: Projection, m: Message): Projection {
    match DecodeEvent(m)
    case None => rows
    case Some(e) => rows[e.event := e]
  }

  /** The rows after the messages, undecodable ones skipped; a repeated event id replaces its row. */
  function Project(rows: Projection, messages: seq<Message>): Projection {
    if messages == [] then rows
    else Inserted(Project(rows, messages[..|messages| - 1]), messages[|messages| - 1])
  }

  /** How one turn of the loop goes. */
  datatype Turn = Completes | FetchFails | InsertFails | CommitFails

  /** One partition as this consumer group sees it. */
  class Reader {
    const log: seq<Message>
    var committed: nat
    var rows: Projection

    constructor (log: seq<Message>)
      ensures this.log == log && committed == 0 && rows == map[]
    {
      this.log := log;
      committed, rows := 0, map[];
    }

    /** The loop, until it fails, the turns are over or the log is. It projects everything it commits,
        commits nothing it has not projected, and is at most one message ahead of its commits. */
    method Consume(turns: seq<Turn>) returns (reached: nat)
      requires committed <= |log|
      modifies this`committed, this`rows
      ensures old(committed) <= committed <= reached <= |log| && reached <= committed + 1
      ensures rows == Project(old(rows), log[old(committed)..reached])
      ensures (forall turn | turn in turns :: turn == Completes) ==>
        reached == committed == if |log| - old(committed) <= |turns| then |log| else old(committed) + |turns|
    {
      ghost var start := committed;
      reached := committed;
      for i := 0 to |turns|
        invariant start <= reached == committed <= |log|
        invariant rows == Project(old(rows), log[start..reached])
        invariant reached == if |log| - start <= i then |log| else start + i
      {
        if reached == |log| {
          continue;
        }
        if turns[i] == FetchFails {
          assert turns[i] in turns;
          return;
        }
        var message := log[reached];
        ProjectOneMore(old(rows), log, start, reached);
        var event := DecodeEvent(message);
        if event.Some? {
          if turns[i] == InsertFails {
            assert turns[i] in turns;
            return;
          }
          rows := rows[event.value.event := event.value];
        }
        reached := reached + 1;
        if turns[i] == CommitFails {
          assert turns[i] in turns;
          return;
        }
        committed := reached;
      }
    }
  }

  lemma ProjectOneMore(rows: Projection, log: seq<Message>, start: nat, n: nat)
    requires start <= n < |log|
    ensures Project(rows, log[start..n + 1]) == Inserted(Project(rows, log[start..n]), log[n])
  {
    assert log[start..n + 1][..n - start] == log[start..n];
  }

  lemma {:induction false} ProjectSplit(rows: Projection, a: seq<Message>, b: seq<Message>)
    ensures Project(rows, a + b) == Project(Project(rows, a), b)
    decreases |b|
  {
    if b == [] {
      assert a + b == a;
    } else {
      assert (a + b)[..|a| + |b| - 1] == a + b[..|b| - 1];
      ProjectSplit(rows, a, b[..|b| - 1]);
    }
  }

  /** An event id always carries the same event, as in a log of outbox messages. */
  predicate OneEventPerId(messages: seq<Message>) {
    forall m, n | m in messages && n in messages && DecodeEvent(m).Some? && DecodeEvent(n).Some?
      && DecodeEvent(m).value.event == DecodeEvent(n).value.event :: DecodeEvent(m) == DecodeEvent(n)
  }

  lemma {:induction false} ProjectedRows(rows: Projection, messages: seq<Message>, m: Message)
    requires OneEventPerId(messages) && m in messages && DecodeEvent(m).Some?
    ensures var e := DecodeEvent(m).value; e.event in Project(rows, messages) && Project(rows, messages)[e.event] == e
  {
    var n := |messages| - 1;
    if m in messages[..n] {
      assert forall x | x in messages[..n] :: x in messages;
      ProjectedRows(rows, messages[..n], m);
    }
    assert messages[n] in messages;
  }

  /** Redelivery: replaying any of the projected messages, in any order and number, changes nothing. */
  lemma {:induction false} RedeliveryIsVoid(rows: Projection, seen: seq<Message>, again: seq<Message>)
    requires OneEventPerId(seen) && forall m | m in again :: m in seen
    ensures Project(Project(rows, seen), again) == Project(rows, seen)
  {
    if again != [] {
      var n := |again| - 1;
      RedeliveryIsVoid(rows, seen, again[..n]);
      if DecodeEvent(again[n]).Some? {
        ProjectedRows(rows, seen, again[n]);
        var e := DecodeEvent(again[n]).value;
        assert Project(rows, seen)[e.event := e] == Project(rows, seen);
      }
    }
  }

  /** A session that starts over from an earlier offset ends where one uninterrupted session would. */
  lemma RestartsAreVoid(log: seq<Message>, committed: nat, reached: nat, further: nat)
    requires OneEventPerId(log) && committed <= reached <= |log| && committed <= further <= |log|
    ensures Project(Project(map[], log[..reached]), log[committed..further])
      == Project(map[], log[..if further <= reached then reached else further])
  {
    assert forall m | m in log[..reached] :: m in log;
    if further <= reached {
      assert forall i | committed <= i < further :: log[i] in log[..reached] by {
        assert forall i | committed <= i < further :: log[..reached][i] == log[i];
      }
      RedeliveryIsVoid(map[], log[..reached], log[committed..further]);
    } else {
      assert forall i | committed <= i < reached :: log[..reached][i] == log[i];
      RedeliveryIsVoid(map[], log[..reached], log[committed..reached]);
      assert log[committed..further] == log[committed..reached] + log[reached..further];
      ProjectSplit(Project(map[], log[..reached]), log[committed..reached], log[reached..further]);
      assert log[..further] == log[..reached] + log[reached..further];
      ProjectSplit(map[], log[..reached], log[reached..further]);
    }
  }
}
