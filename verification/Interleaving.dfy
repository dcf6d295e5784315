/** `Create` and `Verify` as any number of clients interleaving single statements under PostgreSQL
    row locks. A client's writes stay private images until its commit installs them. Every reachable
    state equals the atomic transactions run one after another, and no set of calls can block itself.

    Minted identifiers are assumed fresh (version-4 UUIDs); the ledger is kept per user. */
module Interleaving {
  import opened Schema
  import opened Feedback
  import opened Redemptions

  datatype Call =
    | Create(request: CreateRequest, minted: Minted, now: int)
    | Verify(check: VerifyRequest, event: Uuid, at: int)

  ghost function Atomic(t: Tables, c: Call): (Tables, Reply) {
    match c
    case Create(r, m, now) => CreateTx(t, r, m, now)
    case Verify(r, event, at) => VerifyTx(t, r, event, at)
  }

  /** The row images a `Create` has written so far, in statement order. */
  datatype Staged = Staged(row: Option<Redemption>, left: Option<int>, stock: Option<Stock>, entry: Option<Entry>,
    weight: Option<Weight>, event: Option<OutboxRow>)

  const Nothing := Staged(None, None, None, None, None, None)

  datatype Locks = Locks(user: Option<Hash>, stock: Option<Id>, row: Option<Id>)

  const Unlocked := Locks(None, None, None)

  datatype Phase =
    | Idle
    | Starting(call: Call)
    | Checking(call: Call, balance: int, passed: nat)                  // user row locked
    | Writing(call: Call, balance: int, cost: int, staged: Staged)     // user and inventory rows locked
    | Inspecting(call: Call, row: Redemption)                          // redemption row locked
    | Confirming(call: Call, row: Redemption, image: Option<Redemption>, event: Option<OutboxRow>)
    | Releasing(locks: Locks, reply: Reply)
    | Finished(reply: Reply)
    | Dropped                                                          // the caller gets an error and no answer

  predicate Undecided(p: Phase) {
    p.Starting? || p.Checking? || p.Writing? || p.Inspecting? || p.Confirming?
  }

  predicate Unfinished(p: Phase) {
    Undecided(p) || p.Releasing?
  }

  /** Which call kind a phase belongs to. */
  predicate WellTyped(p: Phase) {
    && (p.Checking? || p.Writing? ==> p.call.Create?)
    && (p.Inspecting? || p.Confirming? ==> p.call.Verify?)
    && (p.Checking? ==> p.passed <= 3)
  }

  function Held(p: Phase): Locks
    requires WellTyped(p)
  {
    match p
    case Checking(c, _, _) => Locks(Some(c.request.user), None, None)
    case Writing(c, _, _, _) => Locks(Some(c.request.user), Some(c.request.offer), None)
    case Inspecting(c, _) => Locks(None, None, Some(c.check.redemption))
    case Confirming(c, _, _, _) => Locks(None, None, Some(c.check.redemption))
    case Releasing(locks, _) => locks
    case _ => Unlocked
  }

  /** The row lock the client's next statement has to take. */
  function Wanted(t: Tables, p: Phase): Locks
    requires WellTyped(p)
  {
    match p
    case Starting(Create(r, _, _)) => if CompleteCreate(r) && r.user in t.users
        then Locks(Some(r.user), None, None) else Unlocked
    case Starting(Verify(r, _, _)) => if CompleteVerify(r) && r.redemption in t.redemptions
        then Locks(None, None, Some(r.redemption)) else Unlocked
    case Checking(Create(r, _, now), _, passed) => if passed == 3 && Open(t, r.offer, now)
        then Locks(None, Some(r.offer), None) else Unlocked
    case _ => Unlocked
  }

  predicate Conflict(a: Locks, b: Locks) {
    || (a.user.Some? && a.user == b.user)
    || (a.stock.Some? && a.stock == b.stock)
    || (a.row.Some? && a.row == b.row)
  }

  // ---------------------------------------------------------------- one client's next statement

  ghost function StartCreate(t: Tables, p: Phase): Phase
    requires p.Starting? && p.call.Create?
  {
    var r := p.call.request;
    if !CompleteCreate(r) then Releasing(Unlocked, Err(InvalidRequest))
    else if !Storable(r.user) then Releasing(Unlocked, Err(Database))
    else if r.user !in t.users then Releasing(Unlocked, Err(UserNotFound))
    else Checking(p.call, t.users[r.user].balance, 0)
  }

  ghost function Check(t: Tables, p: Phase): Phase
    requires p.Checking? && p.call.Create?
  {
    var r := p.call.request;
    var held := Locks(Some(r.user), None, None);
    if p.passed == 0 then
      if !Storable(r.key) then Releasing(held, Err(Database))
      else
        match RowUnder(t.redemptions, r.user, r.key)
        case Some(id) =>
          var row := t.redemptions[id];
          if row.journey == r.journey && row.offer == r.offer then Releasing(held, Ok(id, row))
          else Releasing(held, Err(IdempotencyKeyConflict))
        case None => p.(passed := 1)
    else if p.passed == 1 then
      if !Storable(r.journey) then Releasing(held, Err(Database))
      else if OwnJourney(t, r.journey, r.user) then p.(passed := 2)
      else Releasing(held, Err(JourneyNotFound))
    else if p.passed == 2 then
      if !Storable(r.offer) then Releasing(held, Err(Database))
      else if Holds(t.redemptions, r.user, r.offer) then Releasing(held, Err(OfferAlreadyRedeemed))
      else p.(passed := 3)
    else if !Open(t, r.offer, p.call.now) then Releasing(held, Err(OfferUnavailable))
    else
      var both := held.(stock := Some(r.offer));
      var cost := t.offers[r.offer].cost;
      if t.inventory[r.offer].available == 0 then Releasing(both, Err(OfferUnavailable))
      else if p.balance < cost then Releasing(both, Err(InsufficientPoints))
      else Writing(p.call, p.balance, cost, Nothing)
  }

  /** The next INSERT or UPDATE. Absolute values come from what the client read earlier; relative
      ones (stock, weight) from the row version the statement itself sees. */
  ghost function Write(t: Tables, p: Phase): Phase
    requires p.Writing? && p.call.Create? && p.staged.event == None
    requires p.call.request.offer in t.offers && p.call.request.offer in t.inventory
  {
    var r, m, s := p.call.request, p.call.minted, p.staged;
    if s.row == None then
      if !Indexable(r.key, m.packed) then Releasing(Held(p), Err(Database))
      else p.(staged := s.(row := Some(NewRow(r, m, p.cost))))
    else if s.left == None then p.(staged := s.(left := Some(p.balance - p.cost)))
    else if s.stock == None then
      p.(staged := s.(stock := Some(Stock(t.inventory[r.offer].available - 1, t.inventory[r.offer].version + 1))))
    else if s.entry == None then
      if p.cost == 0 then Releasing(Held(p), Err(Database))
      else p.(staged := s.(entry := Some(Entry(Some(m.redemption), -p.cost, p.balance - p.cost, RedemptionReason))))
    else if s.weight == None then
      p.(staged := s.(weight := Some(Accumulate(Row(t.weights, r.user, t.offers[r.offer].category),
          RedemptionSucceeded))))
    else if !Storable(r.trace) then Releasing(Held(p), Err(Database))
    else p.(staged := s.(event := Some(SucceededRow(r, m, p.call.now))))
  }

  predicate Complete(s: Staged) {
    s.row.Some? && s.left.Some? && s.stock.Some? && s.entry.Some? && s.weight.Some? && s.event.Some?
  }

  /** Commit: the private images become the committed rows. */
  function Install(t: Tables, c: Call, s: Staged): Tables
    requires c.Create? && Complete(s)
    requires c.request.user in t.users && c.request.offer in t.offers
  {
    var r, m := c.request, c.minted;
    t.(redemptions := t.redemptions[m.redemption := s.row.value],
      users := t.users[r.user := t.users[r.user].(balance := s.left.value)],
      inventory := t.inventory[r.offer := s.stock.value],
      ledger := t.ledger[r.user := Entries(t.ledger, r.user) + [s.entry.value]],
      weights := t.weights[(r.user, t.offers[r.offer].category) := s.weight.value],
      outbox := t.outbox[m.event := s.event.value])
  }

  ghost function ActVerify(t: Tables, p: Phase): (Tables, Phase)
    requires (p.Starting? || p.Inspecting? || p.Confirming?) && p.call.Verify?
  {
    var r := p.call.check;
    var held := Locks(None, None, Some(r.redemption));
    match p
    case Starting(_) =>
      if !CompleteVerify(r) then (t, Releasing(Unlocked, Err(InvalidRequest)))
      else if !Storable(r.redemption) then (t, Releasing(Unlocked, Err(Database)))
      else if r.redemption !in t.redemptions || t.redemptions[r.redemption].offer !in t.offers
          then (t, Releasing(Unlocked, Err(RedemptionNotFound)))
      else (t, Inspecting(p.call, t.redemptions[r.redemption]))
    case Inspecting(_, row) =>
      if row.offer !in t.offers || t.offers[row.offer].merchant != r.merchant || row.code != r.code
          then (t, Releasing(held, Err(VerificationFailed)))
      else if row.status == Verified then (t, Releasing(held, Ok(r.redemption, row)))
      else if row.status != Succeeded then (t, Releasing(held, Err(RedemptionNotVerifiable)))
      else (t, Confirming(p.call, row, None, None))
    case Confirming(_, row, image, event) =>
      if image == None then (t, p.(image := Some(row.(status := Verified))))
      else if event == None then
        var announced := VerifiedRow(r, p.call.event, row.journey, row.user, p.call.at);
        if row.journey == "" || !StorableMessage(announced.message) then (t, Releasing(held, Err(Database)))
        else (t, p.(event := Some(announced)))
      else
        (t.(redemptions := t.redemptions[r.redemption := image.value], outbox := t.outbox[p.call.event := event.value]),
          Finished(Ok(r.redemption, image.value)))
  }

  /** The rows a granted `Create` updates; its locks keep them in place. */
  predicate RowsPresent(t: Tables, r: CreateRequest) {
    r.user in t.users && r.offer in t.offers && r.offer in t.inventory
  }

  ghost function Act(t: Tables, p: Phase): (Tables, Phase)
    requires WellTyped(p) && Unfinished(p)
  {
    if p.Releasing? then (t, Finished(p.reply))
    else if p.call.Verify? then ActVerify(t, p)
    else if p.Starting? then (t, StartCreate(t, p))
    else if p.Checking? then (t, Check(t, p))
    else if !RowsPresent(t, p.call.request) then (t, Releasing(Held(p), Err(Database)))
    else if p.staged.event == None then (t, Write(t, p))
    else if !Complete(p.staged) then (t, Releasing(Held(p), Err(Database)))
    else (Install(t, p.call, p.staged), Finished(Ok(p.call.minted.redemption, p.staged.row.value)))
  }

  // ---------------------------------------------------------------- the whole system

  datatype Done = Done(call: Call, reply: Reply)

  /** What a client asked last: the call, how long the log was when it began, and the log entry with
      which it took effect. */
  datatype Ticket = Ticket(call: Call, begun: nat, entry: Option<nat>)

  /** `log` and `tickets` are history variables that no statement reads: the calls in the order they
      took effect, with their replies, and each client's part in it. */
  datatype Sys = Sys(tables: Tables, clients: seq<Phase>, log: seq<Done>, tickets: map<nat, Ticket>)

  datatype Move =
    | Begin(client: nat, call: Call)
    | Step(client: nat)
    | Abort(client: nat)    // cancellation, failure or crash, or the answer lost after the commit

  function Ids(c: Call): set<string> {
    match c
    case Create(_, m, _) => {m.redemption, m.code, m.event}
    case Verify(_, event, _) => {event}
  }

  ghost predicate FreshIn(t: Tables, c: Call) {
    && (c.Create? ==> c.minted.redemption !in t.redemptions)
    && (c.Create? ==> forall id | id in t.redemptions :: t.redemptions[id].code != c.minted.code)
    && (if c.Create? then c.minted.event else c.event) !in t.outbox
  }

  ghost predicate LockFree(s: Sys, i: nat)
    requires i < |s.clients| && forall p | p in s.clients :: WellTyped(p)
  {
    forall j | 0 <= j < |s.clients| && j != i :: !Conflict(Wanted(s.tables, s.clients[i]), Held(s.clients[j]))
  }

  ghost predicate Enabled(s: Sys, m: Move) {
    && (forall p | p in s.clients :: WellTyped(p))
    && m.client < |s.clients|
    && match m
      case Begin(i, c) =>
        && !Unfinished(s.clients[i])
        && FreshIn(s.tables, c)
        && (forall p | p in s.clients && Undecided(p) :: Ids(p.call) !! Ids(c))
      case Step(i) => Unfinished(s.clients[i]) && LockFree(s, i)
      case Abort(i) => Unfinished(s.clients[i]) || s.clients[i].Finished?
  }

  function Answer(p: Phase): Reply
    requires p.Releasing? || p.Finished?
  {
    p.reply
  }

  function Entered(s: Sys, i: nat): map<nat, Ticket> {
    if i in s.tickets then s.tickets[i := s.tickets[i].(entry := Some(|s.log|))] else s.tickets
  }

  ghost function Next(s: Sys, m: Move): Sys
    requires Enabled(s, m)
  {
    match m
    case Begin(i, c) => s.(clients := s.clients[i := Starting(c)], tickets := s.tickets[i := Ticket(c, |s.log|, None)])
    case Abort(i) => s.(clients := s.clients[i := Dropped])
    case Step(i) =>
      var p := s.clients[i];
      var (t, q) := Act(s.tables, p);
      if Undecided(p) && !Undecided(q)
      then Sys(t, s.clients[i := q], s.log + [Done(p.call, Answer(q))], Entered(s, i))
      else s.(tables := t, clients := s.clients[i := q])
  }

  // ---------------------------------------------------------------- the invariant

  ghost predicate StagedMatches(t: Tables, c: Call, balance: int, cost: int, s: Staged)
    requires c.Create? && c.request.offer in t.inventory && c.request.offer in t.offers
  {
    var r, m := c.request, c.minted;
    && (s.row.Some? ==> Indexable(r.key, m.packed) && s.row.value == NewRow(r, m, cost))
    && (s.left.Some? ==> s.row.Some? && s.left.value == balance - cost)
    && (s.stock.Some? ==>
      s.left.Some? && s.stock.value == Stock(t.inventory[r.offer].available - 1, t.inventory[r.offer].version + 1))
    && (s.entry.Some? ==>
      s.stock.Some? && cost != 0 && s.entry.value ==
          Entry(Some(m.redemption), -cost, balance - cost, RedemptionReason))
    && (s.weight.Some? ==>
      s.entry.Some? && s.weight.value ==
          Accumulate(Row(t.weights, r.user, t.offers[r.offer].category), RedemptionSucceeded))
    && (s.event.Some? ==> s.weight.Some? && Storable(r.trace) && s.event.value == SucceededRow(r, m, c.now))
  }

  ghost predicate CurrentChecks(t: Tables, c: Call, balance: int, passed: nat)
    requires c.Create?
  {
    var r := c.request;
    && CompleteCreate(r) && Storable(r.user)
    && r.user in t.users && t.users[r.user].balance == balance
    && (passed >= 1 ==> Storable(r.key) && RowUnder(t.redemptions, r.user, r.key) == None)
    && (passed >= 2 ==> Storable(r.journey) && OwnJourney(t, r.journey, r.user))
    && (passed >= 3 ==> Storable(r.offer) && !Holds(t.redemptions, r.user, r.offer))
  }

  ghost predicate CurrentRow(t: Tables, c: Call, row: Redemption)
    requires c.Verify?
  {
    CompleteVerify(c.check) && Storable(c.check.redemption) && c.check.redemption in t.redemptions
        && t.redemptions[c.check.redemption] == row && row.offer in t.offers
  }

  /** What a client has read is still what the tables hold: its locks keep it so. */
  ghost predicate Current(t: Tables, p: Phase)
    requires WellTyped(p)
  {
    match p
    case Checking(c, balance, passed) => CurrentChecks(t, c, balance, passed)
    case Writing(c, balance, cost, staged) =>
      && CurrentChecks(t, c, balance, 3)
      && Open(t, c.request.offer, c.now) && t.inventory[c.request.offer].available != 0
      && t.offers[c.request.offer].cost == cost <= balance
      && StagedMatches(t, c, balance, cost, staged)
    case Inspecting(c, row) => CurrentRow(t, c, row)
    case Confirming(c, row, image, event) =>
      && CurrentRow(t, c, row)
      && Judge(t, c.check) == Accept
      && (image.Some? ==> image.value == row.(status := Verified))
      && (event.Some? ==>
        && image.Some? && row.journey != ""
        && event.value == VerifiedRow(c.check, c.event, row.journey, row.user, c.at)
        && StorableMessage(event.value.message))
    case _ => true
  }

  /** A client's history: while undecided it has no entry; what it is about to be told, and what it has
      been told, is the reply of its own log entry, made after it began. */
  predicate Accounted(s: Sys, i: nat)
    requires i < |s.clients|
  {
    var p := s.clients[i];
    && (p != Idle ==> i in s.tickets)
    && (i in s.tickets ==>
      var k := s.tickets[i];
      && k.begun <= |s.log|
      && (Undecided(p) ==> k.call == p.call && k.entry == None)
      && (p.Releasing? || p.Finished? ==> k.entry.Some?)
      && (k.entry.Some? ==> k.begun <= k.entry.value < |s.log| && s.log[k.entry.value].call == k.call)
      && (p.Releasing? || p.Finished? ==> s.log[k.entry.value].reply == p.reply))
  }

  /** No two clients share a log entry. */
  predicate OwnEntries(tickets: map<nat, Ticket>) {
    forall i, j | i in tickets && j in tickets && i != j && tickets[i].entry.Some? ::
        tickets[i].entry != tickets[j].entry
  }

  predicate Recounted(s: Sys) {
    && (forall i | 0 <= i < |s.clients| :: Accounted(s, i))
    && (forall i | i in s.tickets :: i < |s.clients|)
    && OwnEntries(s.tickets)
  }

  ghost predicate Inv(s: Sys) {
    && (forall p | p in s.clients :: WellTyped(p) && Current(s.tables, p))
    && (forall p | p in s.clients && Undecided(p) :: FreshIn(s.tables, p.call))
    && (forall i, j | 0 <= i < j < |s.clients| :: !Conflict(Held(s.clients[i]), Held(s.clients[j])))
    && (forall i, j | 0 <= i < j < |s.clients| && Undecided(s.clients[i]) && Undecided(s.clients[j]) ::
      Ids(s.clients[i].call) !! Ids(s.clients[j].call))
  }
}
