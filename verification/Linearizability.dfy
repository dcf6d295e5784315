/** The interleaved system refines the atomic transactions: what a client read is never stale when
    it commits, and every call takes effect in one step. */
module Linearizability {
  import opened Schema
  import opened Feedback
  import opened Redemptions
  import opened Interleaving

  // ---------------------------------------------------------------- one client's own step

  /** A statement either leaves the tables alone, or it is the one step at which the call takes
      effect, and then it does and answers exactly what the atomic call would. */
  ghost predicate Refines(t: Tables, p: Phase)
    requires WellTyped(p) && Undecided(p)
  {
    var (t', q) := Act(t, p);
    && WellTyped(q) && Current(t', q)
    && (if Undecided(q) then t' == t && q.call == p.call else (t', q.reply) == Atomic(t, p.call))
  }

  lemma CheckStep(t: Tables, p: Phase)
    requires WellTyped(p) && p.Checking? && Current(t, p)
    ensures Refines(t, p)
  {
    var r := p.call.request;
    if p.passed == 0 {
      assert Act(t, p) == (t, Check(t, p));
    } else if p.passed == 1 {
    } else if p.passed == 2 {
    } else if !Open(t, r.offer, p.call.now) {
      assert Decide(t, r, p.call.now) == Refuse(OfferUnavailable);
    } else if t.inventory[r.offer].available == 0 {
      assert Decide(t, r, p.call.now) == Refuse(OfferUnavailable);
    } else if p.balance < t.offers[r.offer].cost {
      assert Decide(t, r, p.call.now) == Refuse(InsufficientPoints);
    }
  }

  lemma WriteStep(t: Tables, p: Phase)
    requires WellTyped(p) && p.Writing? && !Complete(p.staged) && Current(t, p)
    ensures Refines(t, p)
  {
    var r := p.call.request;
    assert Decide(t, r, p.call.now) == Grant;
    assert p.staged.event == None;
    if p.staged.stock.Some? && p.staged.entry == None && p.cost == 0 {
      assert !Insertable(t, r, p.call.minted);
    }
  }

  /** Complete images are what the atomic call installs. */
  lemma InstallsGranted(t: Tables, p: Phase)
    requires WellTyped(p) && p.Writing? && Complete(p.staged) && Current(t, p)
    ensures Install(t, p.call, p.staged) == Granted(t, p.call.request, p.call.minted, p.call.now)
    ensures p.staged.row.value == NewRow(p.call.request, p.call.minted, t.offers[p.call.request.offer].cost)
  {
  }

  lemma CommitStep(t: Tables, p: Phase)
    requires WellTyped(p) && p.Writing? && Complete(p.staged) && Current(t, p) && FreshIn(t, p.call)
    ensures Refines(t, p)
    ensures Grants(t, p.call.request, p.call.minted, p.call.now)
    ensures Act(t, p).0 == Granted(t, p.call.request, p.call.minted, p.call.now)
  {
    InstallsGranted(t, p);
    assert Decide(t, p.call.request, p.call.now) == Grant;
    assert Insertable(t, p.call.request, p.call.minted);
  }

  lemma VerifyStep(t: Tables, p: Phase)
    requires WellTyped(p) && Undecided(p) && p.call.Verify? && Current(t, p) && FreshIn(t, p.call)
    ensures Refines(t, p)
    ensures Act(t, p).0 == t || (Confirms(t, p.call.check, p.call.event)
        && Act(t, p).0 == Confirmed(t, p.call.check, p.call.event, p.call.at))
  {
  }

  lemma StepLocks(t: Tables, p: Phase)
    requires WellTyped(p) && Unfinished(p)
    requires WellTyped(Act(t, p).1)
    ensures var w, h, h' := Wanted(t, p), Held(p), Held(Act(t, p).1);
      && (h'.user == None || h'.user == h.user || h'.user == w.user)
      && (h'.stock == None || h'.stock == h.stock || h'.stock == w.stock)
      && (h'.row == None || h'.row == h.row || h'.row == w.row)
  {
  }

  // ---------------------------------------------------------------- another client's commit

  lemma ForeignRowKeepsChecks(rows: map<Id, Redemption>, id: Id, row: Redemption, u: Hash, key: string, offer: Id)
    requires id !in rows && row.user != u
    ensures RowUnder(rows, u, key) == None ==> RowUnder(rows[id := row], u, key) == None
    ensures !Holds(rows, u, offer) ==> !Holds(rows[id := row], u, offer)
  {
    var rows' := rows[id := row];
    assert !Matches(rows'[id], u, key) && !Redeems(rows'[id], u, offer);
    assert forall k | k in rows' && k != id :: k in rows && rows'[k] == rows[k];
  }

  /** A granted `Create` adds rows only for its own user and its minted identifiers. */
  lemma CreateKeepsChecks(t: Tables, c: Call, u: Hash, key: string, offer: Id)
    requires c.Create? && Grants(t, c.request, c.minted, c.now)
    requires u != c.request.user
    ensures var t' := Granted(t, c.request, c.minted, c.now);
      && (RowUnder(t.redemptions, u, key) == None ==> RowUnder(t'.redemptions, u, key) == None)
      && (!Holds(t.redemptions, u, offer) ==> !Holds(t'.redemptions, u, offer))
      && forall category :: Row(t'.weights, u, category) == Row(t.weights, u, category)
  {
    ForeignRowKeepsChecks(t.redemptions, c.minted.redemption,
        NewRow(c.request, c.minted, t.offers[c.request.offer].cost), u, key, offer);
  }

  lemma CreateKeepsFresh(t: Tables, c: Call, o: Call)
    requires c.Create? && Grants(t, c.request, c.minted, c.now)
    requires FreshIn(t, o) && Ids(o) !! Ids(c)
    ensures FreshIn(Granted(t, c.request, c.minted, c.now), o)
  {
    var t' := Granted(t, c.request, c.minted, c.now);
    assert t'.redemptions[c.minted.redemption].code == c.minted.code;
    assert forall id | id in t'.redemptions && id != c.minted.redemption ::
        id in t.redemptions && t'.redemptions[id] == t.redemptions[id];
  }

  /** Another user's checks look at nothing a granted `Create` changes. */
  lemma CreateKeepsChecking(t: Tables, c: Call, o: Call, balance: int, passed: nat)
    requires c.Create? && Grants(t, c.request, c.minted, c.now) && o.Create? && o.request.user != c.request.user
    requires CurrentChecks(t, o, balance, passed)
    ensures CurrentChecks(Granted(t, c.request, c.minted, c.now), o, balance, passed)
  {
    CreateKeepsChecks(t, c, o.request.user, o.request.key, o.request.offer);
  }

  /** A client that is writing needs its checks, its offer and stock row, and its weight row. */
  lemma WritingStaysCurrent(t: Tables, t': Tables, o: Phase)
    requires o.Writing? && WellTyped(o) && Current(t, o)
    requires CurrentChecks(t', o.call, o.balance, 3) && t'.offers == t.offers
    requires var q := o.call.request;
      && q.offer in t'.inventory && t'.inventory[q.offer] == t.inventory[q.offer]
      && Row(t'.weights, q.user, t.offers[q.offer].category) == Row(t.weights, q.user, t.offers[q.offer].category)
    ensures Current(t', o)
  {
  }

  lemma CreateKeepsWriting(t: Tables, c: Call, o: Phase)
    requires c.Create? && Grants(t, c.request, c.minted, c.now)
    requires o.Writing? && WellTyped(o) && Current(t, o)
    requires o.call.request.user != c.request.user && o.call.request.offer != c.request.offer
    ensures Current(Granted(t, c.request, c.minted, c.now), o)
  {
    var q := o.call.request;
    CreateKeepsChecking(t, c, o.call, o.balance, 3);
    CreateKeepsChecks(t, c, q.user, q.key, q.offer);
    WritingStaysCurrent(t, Granted(t, c.request, c.minted, c.now), o);
  }

  lemma CreateKeepsOthers(t: Tables, c: Call, o: Phase)
    requires c.Create? && Grants(t, c.request, c.minted, c.now)
    requires WellTyped(o) && Current(t, o)
    requires !Conflict(Locks(Some(c.request.user), Some(c.request.offer), None), Held(o))
    ensures Current(Granted(t, c.request, c.minted, c.now), o)
  {
    if o.Checking? {
      CreateKeepsChecking(t, c, o.call, o.balance, o.passed);
    } else if o.Writing? {
      CreateKeepsWriting(t, c, o);
    }
  }

  /** Only the status of one row changes, and stays live. */
  lemma VerifyKeepsRows(t: Tables, c: Call, u: Hash, key: string, offer: Id)
    requires c.Verify? && Confirms(t, c.check, c.event)
    ensures var t' := Confirmed(t, c.check, c.event, c.at);
      && (RowUnder(t.redemptions, u, key) == None ==> RowUnder(t'.redemptions, u, key) == None)
      && (!Holds(t.redemptions, u, offer) ==> !Holds(t'.redemptions, u, offer))
  {
    var t' := Confirmed(t, c.check, c.event, c.at);
    var v := c.check.redemption;
    assert t'.redemptions == t.redemptions[v := t.redemptions[v].(status := Verified)];
    if RowUnder(t'.redemptions, u, key).Some? {
      assert Matches(t.redemptions[RowUnder(t'.redemptions, u, key).value], u, key);
    }
    if Holds(t'.redemptions, u, offer) {
      var id :| id in t'.redemptions && Redeems(t'.redemptions[id], u, offer);
      assert Redeems(t.redemptions[id], u, offer);
    }
  }

  lemma VerifyKeepsFresh(t: Tables, c: Call, o: Call)
    requires c.Verify? && Confirms(t, c.check, c.event) && FreshIn(t, o) && Ids(o) !! Ids(c)
    ensures FreshIn(Confirmed(t, c.check, c.event, c.at), o)
  {
    assert c.event in Ids(c);
    var t' := Confirmed(t, c.check, c.event, c.at);
    assert t'.outbox.Keys == t.outbox.Keys + {c.event};
  }

  lemma VerifyKeepsOthers(t: Tables, c: Call, o: Phase)
    requires c.Verify? && Confirms(t, c.check, c.event)
    requires WellTyped(o) && Current(t, o)
    requires !Conflict(Locks(None, None, Some(c.check.redemption)), Held(o))
    requires Undecided(o) ==> FreshIn(t, o.call) && Ids(o.call) !! Ids(c)
    ensures var t' := Confirmed(t, c.check, c.event, c.at);
      Current(t', o) && (Undecided(o) ==> FreshIn(t', o.call))
  {
    if Undecided(o) {
      VerifyKeepsFresh(t, c, o.call);
    }
    if o.Checking? || o.Writing? {
      var q := o.call.request;
      VerifyKeepsRows(t, c, q.user, q.key, q.offer);
    }
  }

  lemma StepRefines(t: Tables, p: Phase)
    requires WellTyped(p) && Undecided(p) && Current(t, p) && FreshIn(t, p.call)
    ensures Refines(t, p)
  {
    if p.call.Verify? {
      VerifyStep(t, p);
    } else if p.Checking? {
      CheckStep(t, p);
    } else if p.Writing? && Complete(p.staged) {
      CommitStep(t, p);
    } else if p.Writing? {
      WriteStep(t, p);
    }
  }

  lemma StepKeepsOthers(t: Tables, p: Phase, o: Phase)
    requires WellTyped(p) && Undecided(p) && Current(t, p) && FreshIn(t, p.call)
    requires WellTyped(o) && Current(t, o) && !Conflict(Held(p), Held(o))
    requires Undecided(o) ==> FreshIn(t, o.call) && Ids(o.call) !! Ids(p.call)
    ensures Current(Act(t, p).0, o) && (Undecided(o) ==> FreshIn(Act(t, p).0, o.call))
  {
    StepRefines(t, p);
    if p.call.Verify? {
      VerifyStep(t, p);
      if Act(t, p).0 != t {
        assert p.Confirming?;
        VerifyKeepsOthers(t, p.call, o);
      }
    } else if p.Writing? && Complete(p.staged) {
      CommitStep(t, p);
      CreateKeepsOthers(t, p.call, o);
      if Undecided(o) {
        CreateKeepsFresh(t, p.call, o.call);
      }
    } else {
      assert Act(t, p).0 == t;
    }
  }

  /** What a step of client `i` means for client `j`. */
  lemma StepKeepsClient(s: Sys, i: nat, j: nat)
    requires Inv(s) && Enabled(s, Step(i)) && j < |s.clients| && j != i
    ensures var s' := Next(s, Step(i));
      Current(s'.tables, s.clients[j]) && (Undecided(s.clients[j]) ==> FreshIn(s'.tables, s.clients[j].call))
  {
    if Undecided(s.clients[i]) {
      StepKeepsOthers(s.tables, s.clients[i], s.clients[j]);
    }
  }

  lemma ActKeepsLocks(t: Tables, p: Phase, o: Phase)
    requires WellTyped(p) && Unfinished(p) && WellTyped(Act(t, p).1) && WellTyped(o)
    requires !Conflict(Held(p), Held(o)) && !Conflict(Wanted(t, p), Held(o))
    ensures !Conflict(Held(Act(t, p).1), Held(o))
  {
    StepLocks(t, p);
  }

  lemma StepKeepsLock(s: Sys, i: nat, j: nat)
    requires Inv(s) && Enabled(s, Step(i)) && j < |s.clients| && j != i && WellTyped(Next(s, Step(i)).clients[i])
    ensures !Conflict(Held(Next(s, Step(i)).clients[i]), Held(s.clients[j]))
  {
    ActKeepsLocks(s.tables, s.clients[i], s.clients[j]);
  }

  /** After a step every client, the stepping one included, still has a current view. */
  lemma StepKeepsViews(s: Sys, i: nat)
    requires Inv(s) && Enabled(s, Step(i))
    ensures var s' := Next(s, Step(i));
      && (forall p | p in s'.clients :: WellTyped(p) && Current(s'.tables, p))
      && (forall p | p in s'.clients && Undecided(p) :: FreshIn(s'.tables, p.call))
  {
    var s' := Next(s, Step(i));
    StepOwn(s, i);
    forall j | 0 <= j < |s.clients| && j != i
      ensures Current(s'.tables, s'.clients[j]) && (Undecided(s'.clients[j]) ==> FreshIn(s'.tables, s'.clients[j].call))
    {
      StepKeepsClient(s, i, j);
    }
  }

  lemma StepOwn(s: Sys, i: nat)
    requires Inv(s) && Enabled(s, Step(i))
    ensures var s' := Next(s, Step(i)); var p, q := s.clients[i], s'.clients[i];
      && WellTyped(q) && Current(s'.tables, q)
      && (Undecided(q) ==> Undecided(p) && q.call == p.call && s'.tables == s.tables)
  {
    if Undecided(s.clients[i]) {
      StepRefines(s.tables, s.clients[i]);
    }
  }

  lemma StepKeepsLocks(s: Sys, i: nat)
    requires Inv(s) && Enabled(s, Step(i))
    requires forall p | p in Next(s, Step(i)).clients :: WellTyped(p)
    ensures var s' := Next(s, Step(i));
      forall x, y | 0 <= x < y < |s'.clients| :: !Conflict(Held(s'.clients[x]), Held(s'.clients[y]))
  {
    forall j | 0 <= j < |s.clients| && j != i ensures !Conflict(Held(Next(s, Step(i)).clients[i]), Held(s.clients[j])) {
      StepKeepsLock(s, i, j);
    }
  }

  lemma StepKeepsInv(s: Sys, i: nat)
    requires Inv(s) && Enabled(s, Step(i))
    ensures Inv(Next(s, Step(i)))
  {
    StepKeepsViews(s, i);
    StepKeepsLocks(s, i);
    StepOwn(s, i);
  }

  lemma BeginOrAbortKeepsInv(s: Sys, m: Move)
    requires Inv(s) && Enabled(s, m) && !m.Step?
    ensures Inv(Next(s, m))
  {
    var s' := Next(s, m);
    assert forall j | 0 <= j < |s.clients| && j != m.client :: s'.clients[j] == s.clients[j];
    assert Held(s'.clients[m.client]) == Unlocked;
  }

  /** The invariant is kept, and a move is either invisible in the tables or one atomic call. */
  lemma MoveRefines(s: Sys, m: Move)
    requires Inv(s) && Enabled(s, m)
    ensures Inv(Next(s, m))
    ensures var s' := Next(s, m);
      || (s'.tables == s.tables && s'.log == s.log)
      || (|s'.log| == |s.log| + 1 && s'.log[..|s.log|] == s.log
          && Atomic(s.tables, s'.log[|s.log|].call) == (s'.tables, s'.log[|s.log|].reply))
  {
    if m.Step? {
      StepKeepsInv(s, m.client);
      if Undecided(s.clients[m.client]) {
        StepRefines(s.tables, s.clients[m.client]);
      }
    } else {
      BeginOrAbortKeepsInv(s, m);
    }
  }

  // ---------------------------------------------------------------- what clients are told

  /** A step moves a client on with its own call, and hands over exactly the reply it was going to give. */
  lemma StepAnswers(t: Tables, p: Phase)
    requires WellTyped(p) && Unfinished(p) && (Undecided(p) ==> Current(t, p) && FreshIn(t, p.call))
    ensures var q := Act(t, p).1;
      && (p.Releasing? ==> q == Finished(p.reply))
      && (Undecided(p) && Undecided(q) ==> q.call == p.call)
      && (Undecided(p) && !Undecided(q) ==> q.Releasing? || q.Finished?)
  {
    if Undecided(p) {
      StepRefines(t, p);
    }
  }

  /** The log never loses or changes an entry. */
  lemma LogGrows(s: Sys, m: Move)
    requires Inv(s) && Enabled(s, m)
    ensures s.log <= Next(s, m).log
  {
  }

  /** A client that does not move keeps its account while the log grows. */
  lemma RestingKeepsAccount(s: Sys, s': Sys, i: nat)
    requires i < |s.clients| == |s'.clients| && Accounted(s, i) && s'.clients[i] == s.clients[i] && s.log <= s'.log
    requires (i in s'.tickets <==> i in s.tickets) && (i in s.tickets ==> s'.tickets[i] == s.tickets[i])
    ensures Accounted(s', i)
  {
  }

  lemma OwnMoveKeepsAccount(s: Sys, m: Move)
    requires Inv(s) && Enabled(s, m) && Accounted(s, m.client)
    ensures Accounted(Next(s, m), m.client)
  {
    LogGrows(s, m);
    if m.Step? {
      StepAnswers(s.tables, s.clients[m.client]);
    }
  }

  lemma MoveKeepsAccount(s: Sys, m: Move, i: nat)
    requires Inv(s) && Recounted(s) && Enabled(s, m) && i < |s.clients|
    ensures Accounted(Next(s, m), i)
  {
    assert Accounted(s, i);
    if m.client == i {
      OwnMoveKeepsAccount(s, m);
    } else {
      LogGrows(s, m);
      RestingKeepsAccount(s, Next(s, m), i);
    }
  }

  lemma MoveKeepsRecount(s: Sys, m: Move)
    requires Inv(s) && Recounted(s) && Enabled(s, m)
    ensures Recounted(Next(s, m))
  {
    var s' := Next(s, m);
    forall i | 0 <= i < |s'.clients| ensures Accounted(s', i) {
      MoveKeepsAccount(s, m, i);
    }
    forall i | i in s.tickets ensures s.tickets[i].entry.Some? ==> s.tickets[i].entry.value < |s.log| {
      assert Accounted(s, i);
    }
  }

  // ---------------------------------------------------------------- every run

  ghost predicate Run(s: Sys, moves: seq<Move>)
    decreases |moves|
  {
    moves == [] || (Enabled(s, moves[0]) && Run(Next(s, moves[0]), moves[1..]))
  }

  ghost function Exec(s: Sys, moves: seq<Move>): Sys
    requires Run(s, moves)
    decreases |moves|
  {
    if moves == [] then s else Exec(Next(s, moves[0]), moves[1..])
  }

  ghost predicate Initial(s: Sys) {
    s.log == [] && s.tickets == map[] && forall p | p in s.clients :: p == Idle
  }

  /** The calls of a log run atomically one after another, each answering what the log says. */
  ghost predicate Serial(t0: Tables, log: seq<Done>, t: Tables) {
    if log == [] then t == t0
    else
      var n := |log| - 1;
      exists mid :: Serial(t0, log[..n], mid) && Atomic(mid, log[n].call) == (t, log[n].reply)
  }

  lemma {:induction false} RunIsSerial(t0: Tables, s: Sys, moves: seq<Move>)
    requires Inv(s) && Recounted(s) && Run(s, moves) && Serial(t0, s.log, s.tables)
    ensures var e := Exec(s, moves); Inv(e) && Recounted(e) && Serial(t0, e.log, e.tables)
    decreases |moves|
  {
    if moves != [] {
      var s' := Next(s, moves[0]);
      MoveRefines(s, moves[0]);
      MoveKeepsRecount(s, moves[0]);
      if s'.log != s.log {
        var n := |s'.log| - 1;
        assert Serial(t0, s'.log[..n], s.tables) && Atomic(s.tables, s'.log[n].call) == (s'.tables, s'.log[n].reply);
      }
      RunIsSerial(t0, s', moves[1..]);
    }
  }

  /** The reply a client holds is the one its own call got where it took effect, some time after the
      call began. */
  ghost predicate AnsweredFrom(e: Sys, i: nat)
    requires i < |e.clients|
  {
    e.clients[i].Finished? ==>
      && i in e.tickets && e.tickets[i].entry.Some?
      && e.tickets[i].begun <= e.tickets[i].entry.value < |e.log|
      && e.log[e.tickets[i].entry.value] == Done(e.tickets[i].call, e.clients[i].reply)
  }

  /** Any interleaving of any number of clients, with aborts anywhere, leaves the tables as the
      logged calls run atomically in the order they took effect. Every answered client holds the
      reply of an entry of its own, logged after it began; the rest got an error and no answer. */
  lemma Linearizable(s: Sys, moves: seq<Move>)
    requires Initial(s) && Run(s, moves)
    ensures var e := Exec(s, moves);
      && Serial(s.tables, e.log, e.tables)
      && (forall i | 0 <= i < |e.clients| :: AnsweredFrom(e, i))
      && OwnEntries(e.tickets)
  {
    forall i | 0 <= i < |s.clients| ensures s.clients[i] == Idle {
      assert s.clients[i] in s.clients;
    }
    RunIsSerial(s.tables, s, moves);
    var e := Exec(s, moves);
    forall i | 0 <= i < |e.clients| ensures AnsweredFrom(e, i) {
      assert Accounted(e, i);
    }
  }

  // ---------------------------------------------------------------- deadlock freedom and termination

  lemma Blocker(s: Sys, i: nat) returns (j: nat)
    requires (forall p | p in s.clients :: WellTyped(p)) && i < |s.clients| && !LockFree(s, i)
    ensures j < |s.clients| && j != i && Conflict(Wanted(s.tables, s.clients[i]), Held(s.clients[j]))
        && Unfinished(s.clients[j])
  {
    j :| 0 <= j < |s.clients| && j != i && Conflict(Wanted(s.tables, s.clients[i]), Held(s.clients[j]));
  }

  /** If any call is unfinished, some unfinished call has its next lock free: the only lock ever
      waited for while holding another is the inventory row, and its holder never waits. */
  lemma DeadlockFree(s: Sys)
    requires forall p | p in s.clients :: WellTyped(p)
    requires exists p | p in s.clients :: Unfinished(p)
    ensures exists i :: 0 <= i < |s.clients| && Enabled(s, Step(i))
  {
    var p :| p in s.clients && Unfinished(p);
    var i :| 0 <= i < |s.clients| && s.clients[i] == p;
    if LockFree(s, i) {
      assert Enabled(s, Step(i));
    } else {
      var j := Blocker(s, i);
      if LockFree(s, j) {
        assert Enabled(s, Step(j));
      } else {
        var k := Blocker(s, j);
        assert s.clients[j].Checking? && (s.clients[k].Writing? || s.clients[k].Releasing?);
        assert Wanted(s.tables, s.clients[k]) == Unlocked;
        assert Enabled(s, Step(k));
      }
    }
  }

  function Written(s: Staged): nat {
    (if s.row.Some? then 1 else 0) + (if s.left.Some? then 1 else 0) + (if s.stock.Some? then 1 else 0)
    + (if s.entry.Some? then 1 else 0) + (if s.weight.Some? then 1 else 0) + (if s.event.Some? then 1 else 0)
  }

  /** An upper bound on the statements a client still has to run, and on the answer it can still lose. */
  function Remaining(p: Phase): nat {
    match p
    case Starting(_) => 14
    case Checking(_, _, passed) => if passed <= 3 then 13 - passed else 10
    case Writing(_, _, _, staged) => 9 - Written(staged)
    case Inspecting(_, _) => 6
    case Confirming(_, _, image, event) => 5 - (if image.Some? then 1 else 0) - (if event.Some? then 1 else 0)
    case Releasing(_, _) => 2
    case Finished(_) => 1
    case _ => 0
  }

  function Total(clients: seq<Phase>): nat {
    if clients == [] then 0 else Remaining(clients[0]) + Total(clients[1..])
  }

  lemma {:induction false} TotalUpdate(clients: seq<Phase>, i: nat, q: Phase)
    requires i < |clients|
    ensures Total(clients[i := q]) == Total(clients) - Remaining(clients[i]) + Remaining(q)
  {
    if i > 0 {
      assert clients[i := q][1..] == clients[1..][i - 1 := q];
      TotalUpdate(clients[1..], i - 1, q);
    } else {
      assert clients[0 := q][1..] == clients[1..];
    }
  }

  lemma CreateWorkDrops(t: Tables, p: Phase)
    requires WellTyped(p) && (p.Starting? || p.Checking?) && p.call.Create? && Current(t, p)
    ensures Remaining(Act(t, p).1) < Remaining(p)
  {
  }

  lemma WriteWorkDrops(t: Tables, p: Phase)
    requires WellTyped(p) && p.Writing? && Current(t, p)
    ensures Remaining(Act(t, p).1) < Remaining(p)
  {
    if !Complete(p.staged) {
      assert p.staged.event == None;
      assert Act(t, p).1 == Write(t, p);
    }
  }

  lemma VerifyWorkDrops(t: Tables, p: Phase)
    requires WellTyped(p) && Undecided(p) && p.call.Verify? && Current(t, p)
    ensures Remaining(Act(t, p).1) < Remaining(p)
  {
  }

  /** Every statement and every abort uses up remaining work, so calls cannot run for ever. */
  lemma Progress(s: Sys, m: Move)
    requires Inv(s) && Enabled(s, m) && !m.Begin?
    ensures Total(Next(s, m).clients) < Total(s.clients)
  {
    var p := s.clients[m.client];
    TotalUpdate(s.clients, m.client, Next(s, m).clients[m.client]);
    if m.Step? && Undecided(p) {
      if p.call.Verify? {
        VerifyWorkDrops(s.tables, p);
      } else if p.Writing? {
        WriteWorkDrops(s.tables, p);
      } else {
        CreateWorkDrops(s.tables, p);
      }
    }
  }

  /** No run without new calls is longer than the work outstanding at its start. */
  lemma {:induction false} BoundedRuns(s: Sys, moves: seq<Move>)
    requires Inv(s) && Run(s, moves) && forall m | m in moves :: !m.Begin?
    ensures |moves| <= Total(s.clients)
    decreases |moves|
  {
    if moves != [] {
      MoveRefines(s, moves[0]);
      Progress(s, moves[0]);
      BoundedRuns(Next(s, moves[0]), moves[1..]);
    }
  }

  /** From every reachable state the outstanding calls can all be driven to a reply by steps alone. */
  lemma {:induction false} AllFinish(s: Sys) returns (moves: seq<Move>)
    requires Inv(s)
    ensures Run(s, moves) && (forall m | m in moves :: m.Step?)
    ensures forall p | p in Exec(s, moves).clients :: !Unfinished(p)
    decreases Total(s.clients)
  {
    if exists p | p in s.clients :: Unfinished(p) {
      DeadlockFree(s);
      var i :| 0 <= i < |s.clients| && Enabled(s, Step(i));
      MoveRefines(s, Step(i));
      Progress(s, Step(i));
      var rest := AllFinish(Next(s, Step(i)));
      moves := [Step(i)] + rest;
      assert moves[1..] == rest;
    } else {
      moves := [];
    }
  }
}
