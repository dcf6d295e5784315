/** `outbox.Process`: claim an event, run its handler and commit both, or neither. Under any delivery
    sequence, with any repeats and any failures, the effect is exactly-once. */
module Processing {
  import opened Schema

  datatype Store<S> = Store(claims: set<Claim>, state: S)

  /** One attempt to deliver an event. `handler` is what the handler does to the state this time: None
      when it, the claim or the commit fails. */
  datatype Attempt<!S> = Attempt(event: Id, handler: S -> Option<S>)

  datatype Result = InvalidInput | Processed | AlreadyProcessed | HandlerFailed

  function Step<S>(s: Store<S>, consumer: Consumer, a: Attempt<S>): (Store<S>, Result) {
    var claim := Claim(consumer, a.event);
    if a.event == "" then (s, InvalidInput)
    else if claim in s.claims then (s, AlreadyProcessed)
    else
      match a.handler(s.state)
      case None => (s, HandlerFailed)
      case Some(next) => (Store(s.claims + {claim}, next), Processed)
  }

  /** The answers, and that only a processed event leaves anything: its own claim and its handler's effect. */
  lemma StepAnswers<S>(s: Store<S>, consumer: Consumer, a: Attempt<S>)
    ensures var (s', result) := Step(s, consumer, a); var claimed := Claim(consumer, a.event) in s.claims;
      && (result == InvalidInput <==> a.event == "")
      && (result == AlreadyProcessed <==> a.event != "" && claimed)
      && (result == HandlerFailed <==> a.event != "" && !claimed && a.handler(s.state) == None)
      && (result != Processed ==> s' == s)
      && (result == Processed ==>
        Some(s'.state) == a.handler(s.state) && s'.claims - s.claims == {Claim(consumer, a.event)}
        && s.claims <= s'.claims)
  {
  }

  class Processor<S> {
    var claims: set<Claim>
    var state: S

    constructor (state: S)
      ensures claims == {} && this.state == state
    {
      claims, this.state := {}, state;
    }

    method Process(consumer: Consumer, a: Attempt<S>) returns (result: Result)
      modifies this
      ensures (Store(claims, state), result) == Step(Store(old(claims), old(state)), consumer, a)
    {
      if a.event == "" {
        return InvalidInput;
      }
      var claimed := claims + {Claim(consumer, a.event)};
      if Claim(consumer, a.event) in claims {
        return AlreadyProcessed;
      }
      var next := a.handler(state);
      if next.None? {
        return HandlerFailed;
      }
      claims, state := claimed, next.value;
      result := Processed;
    }
  }

  /** What a whole delivery sequence leaves behind. */
  function Deliver<S>(s: Store<S>, consumer: Consumer, attempts: seq<Attempt<S>>): Store<S> {
    if attempts == [] then s
    else Step(Deliver(s, consumer, attempts[..|attempts| - 1]), consumer, attempts[|attempts| - 1]).0
  }

  /** The handlers of a list of attempts run one after another, with no claims in sight. */
  function RunEach<S>(state: S, attempts: seq<Attempt<S>>): Option<S> {
    if attempts == [] then Some(state)
    else
      match RunEach(state, attempts[..|attempts| - 1])
      case None => None
      case Some(mid) => attempts[|attempts| - 1].handler(mid)
  }

  predicate DistinctEvents<S>(attempts: seq<Attempt<S>>) {
    forall i, j | 0 <= i < j < |attempts| :: attempts[i].event != attempts[j].event
  }

  function ClaimsOf<S>(consumer: Consumer, attempts: seq<Attempt<S>>): set<Claim> {
    set i | 0 <= i < |attempts| :: Claim(consumer, attempts[i].event)
  }

  lemma ClaimsOfAppend<S>(consumer: Consumer, attempts: seq<Attempt<S>>, a: Attempt<S>)
    ensures ClaimsOf(consumer, attempts + [a]) == ClaimsOf(consumer, attempts) + {Claim(consumer, a.event)}
  {
    var longer := attempts + [a];
    assert longer[|attempts|] == a;
    assert forall i | 0 <= i < |attempts| :: longer[i] == attempts[i];
  }

  /** The store the `i`-th delivery meets. */
  function Met<S>(state: S, consumer: Consumer, attempts: seq<Attempt<S>>, i: nat): Store<S>
    requires i <= |attempts|
  {
    Deliver(Store({}, state), consumer, attempts[..i])
  }

  /** Delivery `i` is one of event `e`, and its handler succeeds on the state it meets. */
  predicate Succeeds<S>(state: S, consumer: Consumer, attempts: seq<Attempt<S>>, i: nat, e: Id)
    requires i < |attempts|
  {
    attempts[i].event == e && attempts[i].handler(Met(state, consumer, attempts, i).state).Some?
  }

  /** Delivery `i` is the first successful one of its event. */
  predicate FirstSuccess<S>(state: S, consumer: Consumer, attempts: seq<Attempt<S>>, i: nat)
    requires i < |attempts|
  {
    && attempts[i].event != ""
    && Succeeds(state, consumer, attempts, i, attempts[i].event)
    && forall j | 0 <= j < i :: !Succeeds(state, consumer, attempts, j, attempts[i].event)
  }

  /** The first successes among the first `n` deliveries, in order. */
  function FirstSuccesses<S>(state: S, consumer: Consumer, attempts: seq<Attempt<S>>, n: nat): seq<Attempt<S>>
    requires n <= |attempts|
  {
    if n == 0 then []
    else
      var earlier := FirstSuccesses(state, consumer, attempts, n - 1);
      if FirstSuccess(state, consumer, attempts, n - 1) then earlier + [attempts[n - 1]] else earlier
  }

  lemma ClaimsOfSame<S>(consumer: Consumer, some: seq<Attempt<S>>, other: seq<Attempt<S>>)
    requires |some| == |other| && forall i | 0 <= i < |some| :: some[i].event == other[i].event
    ensures ClaimsOf(consumer, some) == ClaimsOf(consumer, other)
  {
    forall c ensures c in ClaimsOf(consumer, some) <==> c in ClaimsOf(consumer, other) {
      if c in ClaimsOf(consumer, some) {
        var i :| 0 <= i < |some| && c == Claim(consumer, some[i].event);
        assert other[i].event == some[i].event;
      }
    }
  }

  /** An event is left unclaimed only if its handler failed at every delivery, on the state it met. */
  ghost predicate UnclaimedFailed<S>(s0: Store<S>, consumer: Consumer, attempts: seq<Attempt<S>>) {
    forall i | 0 <= i < |attempts| && attempts[i].event != ""
        && Claim(consumer, attempts[i].event) !in Deliver(s0, consumer, attempts).claims ::
      attempts[i].handler(Deliver(s0, consumer, attempts[..i]).state) == None
  }

  lemma OneMore<S>(state: S, consumer: Consumer, attempts: seq<Attempt<S>>, n: nat)
    requires n < |attempts|
    ensures Met(state, consumer, attempts, n + 1) == Step(Met(state, consumer, attempts, n), consumer, attempts[n]).0
  {
    assert attempts[..n + 1][..n] == attempts[..n];
  }

  /** An event is claimed exactly once one of its deliveries has succeeded on the state it met. */
  lemma {:induction false} ClaimedIffSucceeded<S>(state: S, consumer: Consumer, attempts: seq<Attempt<S>>, n: nat,
      e: Id)
    requires n <= |attempts| && e != ""
    ensures Claim(consumer, e) in Met(state, consumer, attempts, n).claims
        <==> exists j | 0 <= j < n :: Succeeds(state, consumer, attempts, j, e)
  {
    if n != 0 {
      ClaimedIffSucceeded(state, consumer, attempts, n - 1, e);
      OneMore(state, consumer, attempts, n - 1);
      if attempts[n - 1].event == e && Claim(consumer, e) !in Met(state, consumer, attempts, n - 1).claims {
        assert Claim(consumer, e) in Met(state, consumer, attempts, n).claims
            <==> Succeeds(state, consumer, attempts, n - 1, e);
      }
    }
  }

  /** A delivery takes effect exactly if it is the first successful one of its event. */
  lemma ProcessedIffFirstSuccess<S>(state: S, consumer: Consumer, attempts: seq<Attempt<S>>, i: nat)
    requires i < |attempts|
    ensures Step(Met(state, consumer, attempts, i), consumer, attempts[i]).1 == Processed
        <==> FirstSuccess(state, consumer, attempts, i)
  {
    if attempts[i].event != "" {
      ClaimedIffSucceeded(state, consumer, attempts, i, attempts[i].event);
    }
  }

  /** `s` is what the handlers of `ran`, of distinct events, leave behind when run once each. */
  ghost predicate Outcome<S>(state: S, consumer: Consumer, ran: seq<Attempt<S>>, s: Store<S>) {
    && DistinctEvents(ran)
    && RunEach(state, ran) == Some(s.state)
    && s.claims == ClaimsOf(consumer, ran)
  }

  lemma RunOneMore<S>(state: S, consumer: Consumer, ran: seq<Attempt<S>>, s: Store<S>, a: Attempt<S>)
    requires Outcome(state, consumer, ran, s) && Step(s, consumer, a).1 == Processed
    ensures Outcome(state, consumer, ran + [a], Step(s, consumer, a).0)
  {
    assert (ran + [a])[..|ran|] == ran;
    ClaimsOfAppend(consumer, ran, a);
    forall i | 0 <= i < |ran| ensures ran[i].event != a.event {
      assert Claim(consumer, ran[i].event) in ClaimsOf(consumer, ran);
    }
  }

  /** Exactly-once effects: whatever is delivered, however often, and whichever attempts fail, what any
      number of deliveries leaves is the first success of each event, run once each in order, and the
      claims are exactly their events. */
  lemma {:induction false} ExactlyOnce<S>(state: S, consumer: Consumer, attempts: seq<Attempt<S>>, n: nat)
    requires n <= |attempts|
    ensures Outcome(state, consumer, FirstSuccesses(state, consumer, attempts, n), Met(state, consumer, attempts, n))
    ensures n == |attempts| ==> Met(state, consumer, attempts, n) == Deliver(Store({}, state), consumer, attempts)
  {
    assert attempts[..|attempts|] == attempts;
    if n != 0 {
      ExactlyOnce(state, consumer, attempts, n - 1);
      OneMore(state, consumer, attempts, n - 1);
      ProcessedIffFirstSuccess(state, consumer, attempts, n - 1);
      var ran, s := FirstSuccesses(state, consumer, attempts, n - 1), Met(state, consumer, attempts, n - 1);
      if FirstSuccess(state, consumer, attempts, n - 1) {
        RunOneMore(state, consumer, ran, s, attempts[n - 1]);
      }
    }
  }

  /** A delivered event stays unclaimed only by failing at every one of its deliveries. */
  lemma {:induction false} UnclaimedAlwaysFailed<S>(s0: Store<S>, consumer: Consumer, attempts: seq<Attempt<S>>)
    ensures UnclaimedFailed(s0, consumer, attempts)
  {
    if attempts != [] {
      var n := |attempts| - 1;
      UnclaimedAlwaysFailed(s0, consumer, attempts[..n]);
      assert forall i | 0 <= i <= n :: attempts[..i] == attempts[..n][..i];
    }
  }

  // ---------------------------------------------------------------- handlers that do not fail

  /** First occurrences, in order. */
  function Firsts(events: seq<Id>): seq<Id> {
    if events == [] then []
    else
      var shorter, last := events[..|events| - 1], events[|events| - 1];
      if last in shorter then Firsts(shorter) else Firsts(shorter) + [last]
  }

  function Fold<S>(state: S, events: seq<Id>, effect: (Id, S) -> S): S {
    if events == [] then state else effect(events[|events| - 1], Fold(state, events[..|events| - 1], effect))
  }

  function Always<S>(events: seq<Id>, effect: (Id, S) -> S): seq<Attempt<S>> {
    seq(|events|, i requires 0 <= i < |events| => Attempt(events[i], s => Some(effect(events[i], s))))
  }

  lemma {:induction false} FirstsMembers(events: seq<Id>)
    ensures forall e :: e in Firsts(events) <==> e in events
  {
    if events != [] {
      var n := |events| - 1;
      FirstsMembers(events[..n]);
      assert events == events[..n] + [events[n]];
    }
  }

  lemma ClaimedOnce<S>(consumer: Consumer, events: seq<Id>, effect: (Id, S) -> S, e: Id)
    ensures Claim(consumer, e) in ClaimsOf(consumer, Always(Firsts(events), effect)) <==> e in events
  {
    FirstsMembers(events);
    var attempts := Always(Firsts(events), effect);
    if e in events {
      var i :| 0 <= i < |Firsts(events)| && Firsts(events)[i] == e;
      assert attempts[i].event == e;
    }
  }

  /** With a handler that succeeds, deliveries with repeats amount to one run per distinct event. */
  lemma {:induction false} RepeatsDoNotCount<S>(state: S, consumer: Consumer, events: seq<Id>, effect: (Id, S) -> S)
    requires "" !in events
    ensures var s := Deliver(Store({}, state), consumer, Always(events, effect));
      && s.state == Fold(state, Firsts(events), effect)
      && s.claims == ClaimsOf(consumer, Always(Firsts(events), effect))
  {
    if events != [] {
      var n := |events| - 1;
      var shorter, last := events[..n], events[n];
      RepeatsDoNotCount(state, consumer, shorter, effect);
      var attempt := Always(events, effect)[n];
      assert Always(events, effect)[..n] == Always(shorter, effect);
      ClaimedOnce(consumer, shorter, effect, last);
      if last !in shorter {
        var firsts := Firsts(shorter);
        assert (firsts + [last])[..|firsts|] == firsts;
        ClaimsOfAppend(consumer, Always(firsts, effect), attempt);
        assert Always(firsts + [last], effect)[|firsts|].event == last;
        ClaimsOfSame(consumer, Always(firsts, effect) + [attempt], Always(firsts + [last], effect));
      }
    }
  }
}
