/** Any number of `Resolve` calls interleaving step by step on any number of instances that share one
    Redis. The lock covers a single cache access only, never lookup and fill together; Redis entries
    may expire and Redis calls fail at any time; a provider that answers, answers by the key. */
module Resolving {
  import opened Schema
  import opened Resolver

  /** `warm` records whether the instance had the key cached when the call arrived. */
  datatype Call = Call(node: nat, o: Observation, warm: bool)

  datatype Origin = Cached | Provided | FellBack(failed: bool) | Refused

  datatype Phase =
    | Idle
    | Arrived(call: Call)
    | Missed(call: Call)                            // not in the local cache
    | Carrying(call: Call, value: Context)          // read from Redis, not yet stored locally
    | Asking(call: Call)                            // not in Redis either
    | Resolved(call: Call, value: Context)          // normalized, not yet stored locally
    | Remembered(call: Call, value: Context)        // stored locally, not yet sent to Redis
    | FallingBack(call: Call, failed: bool)         // `failed`: the provider gave no response
    | Done(call: Call, origin: Origin, reply: Reply)

  /** The configuration every instance runs with, and the provider's answers by key. */
  datatype Setting = Setting(cfg: Config, provider: map<string, Response>)

  datatype World = World(caches: seq<map<string, Context>>, redis: map<string, Context>, calls: seq<Phase>)

  datatype Move =
    | Begin(i: nat, node: nat, o: Observation)
    | Step(i: nat, ok: bool)          // the call's next step; `ok` says whether Redis or the provider plays along
    | Expire(key: string)

  function KeyOf(s: Setting, c: Call): string {
    Key(s.cfg.casing, c.o)
  }

  function Answer(s: Setting, key: string): Option<Response> {
    if key in s.provider then Some(s.provider[key]) else None
  }

  predicate Running(p: Phase) {
    !p.Idle? && !p.Done?
  }

  predicate Enabled(w: World, m: Move) {
    match m
    case Begin(i, node, _) => i < |w.calls| && !Running(w.calls[i]) && node < |w.caches|
    case Step(i, _) => i < |w.calls| && Running(w.calls[i]) && w.calls[i].call.node < |w.caches|
    case Expire(_) => true
  }

  function Ask(s: Setting, c: Call, ok: bool): Phase {
    var answer := Answer(s, KeyOf(s, c));
    if !ok || answer.None? then FallingBack(c, true)
    else if Normalize(s.cfg, answer.value).None? then FallingBack(c, false)
    else Resolved(c, Normalize(s.cfg, answer.value).value)
  }

  /** The call's new phase, what it stores locally, and what it stores in Redis. */
  function StepOf(s: Setting, w: World, p: Phase, ok: bool): (Phase, Option<Context>, Option<Context>)
    requires Running(p) && p.call.node < |w.caches|
  {
    var c, key := p.call, KeyOf(s, p.call);
    match p
    case Arrived(_) =>
      if !Resolver.Valid(s.cfg.casing, c.o) then (Done(c, Refused, InvalidObservation), None, None)
      else if key in w.caches[c.node] then (Done(c, Cached, FromCache(w.caches[c.node][key])), None, None)
      else (Missed(c), None, None)
    case Missed(_) =>
      if ok && key in w.redis && w.redis[key].station != ""
          then (Carrying(c, w.redis[key]), None, None) else (Asking(c), None, None)
    case Carrying(_, value) => (Done(c, Cached, FromCache(value)), Some(value), None)
    case Asking(_) => (Ask(s, c, ok), None, None)
    case Resolved(_, value) => (Remembered(c, value), Some(value), None)
    case Remembered(_, value) => (Done(c, Provided, Found(value)), None, if ok then Some(value) else None)
    case FallingBack(_, failed) => (Done(c, FellBack(failed), Fallback(s.cfg, key)), None, None)
  }

  function Next(s: Setting, w: World, m: Move): World
    requires Enabled(w, m)
  {
    match m
    case Begin(i, node, o) =>
      w.(calls := w.calls[i := Arrived(Call(node, o, Key(s.cfg.casing, o) in w.caches[node]))])
    case Step(i, ok) =>
      var c, key := w.calls[i].call, KeyOf(s, w.calls[i].call);
      var (p, here, shared) := StepOf(s, w, w.calls[i], ok);
      World(if here.Some? then w.caches[c.node := w.caches[c.node][key := here.value]] else w.caches,
        if shared.Some? then w.redis[key := shared.value] else w.redis,
        w.calls[i := p])
    case Expire(key) => w.(redis := w.redis - {key})
  }

  // ---------------------------------------------------------------- the invariant

  /** The value is the provider's answer for the key, normalized. */
  predicate Genuine(s: Setting, key: string, v: Context) {
    Answer(s, key).Some? && Normalize(s.cfg, Answer(s, key).value) == Some(v)
  }

  ghost predicate AllGenuine(s: Setting, cache: map<string, Context>) {
    forall key | key in cache :: Genuine(s, key, cache[key])
  }

  /** An answer without its source. */
  function Bare(r: Reply): Reply {
    if r.Found? then Found(r.context.(source := "")) else r
  }

  /** Whether a finished call answered as an uncached call whose own provider attempt went the same way. */
  predicate AnswersUncached(s: Setting, c: Call, origin: Origin, reply: Reply) {
    if !Resolver.Valid(s.cfg.casing, c.o) then origin == Refused && reply == InvalidObservation
    else
      var response := if origin == FellBack(true) then None else Answer(s, KeyOf(s, c));
      origin != Refused && Bare(reply) == Bare(Uncached(s.cfg, KeyOf(s, c), response))
  }

  predicate PhaseOk(s: Setting, caches: seq<map<string, Context>>, p: Phase) {
    match p
    case Idle => true
    case Arrived(c) => c.node < |caches| && (c.warm ==> KeyOf(s, c) in caches[c.node])
    case Done(c, origin, reply) => AnswersUncached(s, c, origin, reply)
        && (c.warm ==> origin == Cached || origin == Refused)
    case _ =>
      var c := p.call;
      && c.node < |caches| && !c.warm && Resolver.Valid(s.cfg.casing, c.o)
      && (p.Carrying? || p.Resolved? || p.Remembered? ==> Genuine(s, KeyOf(s, c), p.value))
      && (p.FallingBack? && !p.failed ==>
        Answer(s, KeyOf(s, c)).Some? && Normalize(s.cfg, Answer(s, KeyOf(s, c)).value) == None)
  }

  ghost predicate Inv(s: Setting, w: World) {
    && AllGenuine(s, w.redis)
    && (forall n | 0 <= n < |w.caches| :: AllGenuine(s, w.caches[n]))
    && (forall i | 0 <= i < |w.calls| :: PhaseOk(s, w.caches, w.calls[i]))
  }

  /** Nothing cached is ever dropped or replaced by something else. */
  ghost predicate CachesGrow(a: seq<map<string, Context>>, b: seq<map<string, Context>>) {
    |a| == |b| && forall n | 0 <= n < |a| :: forall key | key in a[n] :: key in b[n] && b[n][key] == a[n][key]
  }

  lemma StepKeepsPhase(s: Setting, w: World, p: Phase, ok: bool)
    requires Inv(s, w) && Running(p) && PhaseOk(s, w.caches, p)
    ensures var (q, here, shared) := StepOf(s, w, p, ok);
      && PhaseOk(s, w.caches, q)
      && (here.Some? ==> Genuine(s, KeyOf(s, p.call), here.value))
      && (shared.Some? ==> Genuine(s, KeyOf(s, p.call), shared.value))
  {
    var key := KeyOf(s, p.call);
    if p.Arrived? && Resolver.Valid(s.cfg.casing, p.call.o) && key in w.caches[p.call.node] {
      assert Genuine(s, key, w.caches[p.call.node][key]);
    }
    if p.Missed? && key in w.redis {
      assert Genuine(s, key, w.redis[key]);
    }
  }

  lemma GrowingKeepsPhases(s: Setting, a: seq<map<string, Context>>, b: seq<map<string, Context>>, p: Phase)
    requires CachesGrow(a, b) && PhaseOk(s, a, p)
    ensures PhaseOk(s, b, p)
  {
  }

  /** Storing the provider's answer changes no cached value: a key has only one. */
  lemma StoringGrows(s: Setting, caches: seq<map<string, Context>>, n: nat, key: string, v: Context)
    requires n < |caches| && (forall k | 0 <= k < |caches| :: AllGenuine(s, caches[k])) && Genuine(s, key, v)
    ensures var caches' := caches[n := caches[n][key := v]];
      CachesGrow(caches, caches') && forall k | 0 <= k < |caches'| :: AllGenuine(s, caches'[k])
  {
    if key in caches[n] {
      assert Genuine(s, key, caches[n][key]);
    }
  }

  lemma MoveKeepsInv(s: Setting, w: World, m: Move)
    requires Inv(s, w) && Enabled(w, m)
    ensures Inv(s, Next(s, w, m)) && CachesGrow(w.caches, Next(s, w, m).caches)
  {
    var w' := Next(s, w, m);
    if m.Step? {
      var p := w.calls[m.i];
      StepKeepsPhase(s, w, p, m.ok);
      var (q, here, shared) := StepOf(s, w, p, m.ok);
      if here.Some? {
        StoringGrows(s, w.caches, p.call.node, KeyOf(s, p.call), here.value);
      }
      forall i | 0 <= i < |w'.calls| ensures PhaseOk(s, w'.caches, w'.calls[i]) {
        GrowingKeepsPhases(s, w.caches, w'.caches, if i == m.i then q else w.calls[i]);
      }
    }
  }

  // ---------------------------------------------------------------- every interleaving

  predicate Initial(w: World) {
    w.redis == map[] && (forall c | c in w.caches :: c == map[]) && (forall p | p in w.calls :: p == Idle)
  }

  predicate Run(s: Setting, w: World, moves: seq<Move>)
    decreases |moves|
  {
    moves == [] || (Enabled(w, moves[0]) && Run(s, Next(s, w, moves[0]), moves[1..]))
  }

  function Exec(s: Setting, w: World, moves: seq<Move>): World
    requires Run(s, w, moves)
    decreases |moves|
  {
    if moves == [] then w else Exec(s, Next(s, w, moves[0]), moves[1..])
  }

  lemma {:induction false} RunKeepsInv(s: Setting, w: World, moves: seq<Move>)
    requires Inv(s, w) && Run(s, w, moves)
    ensures Inv(s, Exec(s, w, moves)) && CachesGrow(w.caches, Exec(s, w, moves).caches)
    decreases |moves|
  {
    if moves != [] {
      MoveKeepsInv(s, w, moves[0]);
      RunKeepsInv(s, Next(s, w, moves[0]), moves[1..]);
    }
  }

  lemma InitialIsInv(s: Setting, w: World)
    requires Initial(w)
    ensures Inv(s, w)
  {
    assert forall n | 0 <= n < |w.caches| :: w.caches[n] in w.caches;
    assert forall i | 0 <= i < |w.calls| :: w.calls[i] in w.calls;
  }

  /** Every finished call of every interleaving has answered, apart from the source, as it would have
      without any cache; and everything cached anywhere is a normalized provider answer. */
  lemma CachesAgree(s: Setting, w: World, moves: seq<Move>)
    requires Initial(w) && Run(s, w, moves)
    ensures var w' := Exec(s, w, moves);
      && (forall p | p in w'.calls && p.Done? :: AnswersUncached(s, p.call, p.origin, p.reply))
      && (forall cache | cache in w'.caches :: AllGenuine(s, cache)) && AllGenuine(s, w'.redis)
  {
    InitialIsInv(s, w);
    RunKeepsInv(s, w, moves);
    var w' := Exec(s, w, moves);
    forall p | p in w'.calls && p.Done? ensures AnswersUncached(s, p.call, p.origin, p.reply) {
      var i :| 0 <= i < |w'.calls| && w'.calls[i] == p;
    }
  }

  /** A call that found its key cached, followed through a run. */
  predicate Warm(s: Setting, w: World, i: nat, c: Call, v: Context) {
    && i < |w.calls| && c.node < |w.caches| && KeyOf(s, c) in w.caches[c.node] && w.caches[c.node][KeyOf(s, c)] == v
    && (|| w.calls[i] == Arrived(c)
        || (!Resolver.Valid(s.cfg.casing, c.o) && w.calls[i] == Done(c, Refused, InvalidObservation))
        || (Resolver.Valid(s.cfg.casing, c.o) && w.calls[i] == Done(c, Cached, FromCache(v))))
  }

  lemma {:induction false} WarmCall(s: Setting, w: World, i: nat, c: Call, v: Context, moves: seq<Move>)
    requires Inv(s, w) && Run(s, w, moves)
    requires Warm(s, w, i, c, v) && forall m | m in moves :: !(m.Begin? && m.i == i)
    ensures Warm(s, Exec(s, w, moves), i, c, v)
    decreases |moves|
  {
    if moves != [] {
      assert moves[0] in moves;
      MoveKeepsInv(s, w, moves[0]);
      WarmCall(s, Next(s, w, moves[0]), i, c, v, moves[1..]);
    }
  }

  /** Once an instance has stored a key, a call for it that arrives there never asks the provider or
      falls back, whatever the other calls do meanwhile: it answers with the stored value. */
  lemma NoFallbackAfterStore(s: Setting, w: World, i: nat, node: nat, o: Observation, moves: seq<Move>)
    requires Inv(s, w) && Enabled(w, Begin(i, node, o)) && Key(s.cfg.casing, o) in w.caches[node]
    requires Run(s, Next(s, w, Begin(i, node, o)), moves) && forall m | m in moves :: !(m.Begin? && m.i == i)
    ensures Warm(s, Exec(s, Next(s, w, Begin(i, node, o)), moves), i, Call(node, o, true),
        w.caches[node][Key(s.cfg.casing, o)])
  {
    MoveKeepsInv(s, w, Begin(i, node, o));
    WarmCall(s, Next(s, w, Begin(i, node, o)), i, Call(node, o, true), w.caches[node][Key(s.cfg.casing, o)], moves);
  }

  // ---------------------------------------------------------------- a call by itself

  /** The call has finished with this reply, and its key holds these values locally and in Redis. */
  predicate Ends(w: World, x: World, i: nat, node: nat, key: string, reply: Reply, here: Option<Context>,
      shared: Option<Context>)
  {
    && |x.calls| == |w.calls| && i < |x.calls| && x.calls[i].Done? && x.calls[i].reply == reply
    && node < |w.caches|
    && x.caches == (if here.Some? then w.caches[node := w.caches[node][key := here.value]] else w.caches)
    && x.redis == (if shared.Some? then w.redis[key := shared.value] else w.redis)
  }

  /** What a call that has not found its key locally ends with when nothing fails: the value of Redis,
      stored locally; else the provider's, stored in both; else the fallback. */
  predicate EndsAfterMiss(s: Setting, w: World, x: World, i: nat, node: nat, key: string) {
    if key in w.redis && w.redis[key].station != ""
    then Ends(w, x, i, node, key, FromCache(w.redis[key]), Some(w.redis[key]), None)
    else EndsAsked(s, w, x, i, node, key)
  }

  predicate EndsAsked(s: Setting, w: World, x: World, i: nat, node: nat, key: string) {
    var usable := if key in s.provider then Normalize(s.cfg, s.provider[key]) else None;
    if usable.Some? then Ends(w, x, i, node, key, Found(usable.value), usable, usable)
    else Ends(w, x, i, node, key, Fallback(s.cfg, key), None, None)
  }

  lemma Prepend(s: Setting, w: World, m: Move, rest: seq<Move>)
    requires Enabled(w, m) && Run(s, Next(s, w, m), rest)
    ensures Run(s, w, [m] + rest) && Exec(s, w, [m] + rest) == Exec(s, Next(s, w, m), rest)
  {
    assert ([m] + rest)[1..] == rest;
  }

  /** From the question to the provider on. */
  lemma AskedAlone(s: Setting, w: World, i: nat, c: Call) returns (moves: seq<Move>)
    requires i < |w.calls| && w.calls[i] == Asking(c) && c.node < |w.caches|
    ensures Run(s, w, moves) && EndsAsked(s, w, Exec(s, w, moves), i, c.node, KeyOf(s, c))
  {
    var m := Step(i, true);
    var w1 := Next(s, w, m);
    var w2 := Next(s, w1, m);
    if w1.calls[i].Resolved? {
      Prepend(s, w2, m, []);
      Prepend(s, w1, m, [m] + []);
      Prepend(s, w, m, [m] + ([m] + []));
      moves := [m] + ([m] + ([m] + []));
    } else {
      Prepend(s, w1, m, []);
      Prepend(s, w, m, [m] + []);
      moves := [m] + ([m] + []);
    }
  }

  lemma MissedAlone(s: Setting, w: World, i: nat, c: Call) returns (moves: seq<Move>)
    requires i < |w.calls| && w.calls[i] == Missed(c) && c.node < |w.caches|
    ensures Run(s, w, moves) && EndsAfterMiss(s, w, Exec(s, w, moves), i, c.node, KeyOf(s, c))
  {
    var m := Step(i, true);
    var w1 := Next(s, w, m);
    var rest;
    if w1.calls[i].Carrying? {
      Prepend(s, w1, m, []);
      rest := [m] + [];
    } else {
      rest := AskedAlone(s, w1, i, c);
    }
    Prepend(s, w, m, rest);
    moves := [m] + rest;
  }

  /** A call that is alone and meets no failure does what `Instance.Resolve` does: it takes the local
      value, else that of Redis, else the provider's, else the fallback, and stores what belongs to each. */
  lemma CallAlone(s: Setting, w: World, i: nat, node: nat, o: Observation) returns (moves: seq<Move>)
    requires Enabled(w, Begin(i, node, o)) && Resolver.Valid(s.cfg.casing, o)
    ensures Run(s, w, moves)
    ensures var key, x := Key(s.cfg.casing, o), Exec(s, w, moves);
      if key in w.caches[node] then Ends(w, x, i, node, key, FromCache(w.caches[node][key]), None, None)
      else EndsAfterMiss(s, w, x, i, node, key)
  {
    var w1 := Next(s, w, Begin(i, node, o));
    var w2 := Next(s, w1, Step(i, true));
    var rest := [];
    if w2.calls[i].Missed? {
      rest := MissedAlone(s, w2, i, w2.calls[i].call);
    }
    Prepend(s, w1, Step(i, true), rest);
    Prepend(s, w, Begin(i, node, o), [Step(i, true)] + rest);
    moves := [Begin(i, node, o)] + ([Step(i, true)] + rest);
  }
}
