/** Who can move money: over every operation, whatever its input. */
module Authority {
  import opened Basics
  import opened TradeTable
  import opened Model
  import opened Handlers
  import opened Invariant
  import opened Preserve
  import opened Lawfulness
  import opened Runs

  /** No account loses money and no colony's supply grows. */
  ghost predicate NobodyPays(s: State, s': State) {
    forall c, u :: c in s.colonies && u in s.colonies[c].accounts ==>
      c in s'.colonies && u in s'.colonies[c].accounts && s'.colonies[c].accounts[u] >= s.colonies[c].accounts[u]
  }

  ghost predicate NobodyMints(s: State, s': State) {
    forall c :: c in s.colonies ==> c in s'.colonies && s'.colonies[c].mintedTotal == s.colonies[c].mintedTotal
  }

  lemma LawfulEnriches(p: Platform, now: int, s: State, fx: Effect)
    requires Rows(s) && Lawful(p, s, fx) && !fx.payload.TradeAccepted?
    ensures NobodyPays(s, Post(p, now, s, fx))
  {
    hide ActsProperly, Homes, ClaimRows;
    PostShape(p, now, s, fx);
    AccountGrows(s, fx);
    forall c, u | c in s.colonies && u in s.colonies[c].accounts
      ensures u in Post(p, now, s, fx).colonies[c].accounts && Post(p, now, s, fx).colonies[c].accounts[u] >= s.colonies[c].accounts[u] {
      hide Changes, TradeRow;
      if c != fx.colony {
        assert Untouched(s.colonies[c], Post(p, now, s, fx).colonies[c]);
      }
    }
  }

  lemma AccountGrows(s: State, fx: Effect)
    requires fx.colony in s.colonies && Changes(s, fx) && !fx.payload.TradeAccepted? && forall t :: t in s.trades ==> TradeRow(s, s.trades[t])
    ensures fx.account.Some? ==> fx.account.value.0 in s.colonies[fx.colony].accounts
                                 && fx.account.value.1 >= s.colonies[fx.colony].accounts[fx.account.value.0]
  {
    hide Lives, TransitionAllowed;
    if fx.trade.Some? && fx.trade.value.0 in s.trades {
      assert TradeRow(s, s.trades[fx.trade.value.0]);
    }
  }

  /** A lawful effect changes the supply of its own colony only, and only by a mint. */
  lemma LawfulMints(p: Platform, now: int, s: State, fx: Effect)
    requires Lawful(p, s, fx) && !fx.payload.FundsMinted?
    ensures NobodyMints(s, Post(p, now, s, fx))
  {
    hide ActsProperly;
    PostShape(p, now, s, fx);
    forall c | c in s.colonies ensures Post(p, now, s, fx).colonies[c].mintedTotal == s.colonies[c].mintedTotal {
      if c != fx.colony {
        assert Untouched(s.colonies[c], Post(p, now, s, fx).colonies[c]);
      }
    }
  }

  /** The supply of a colony the effect is not about stays as it is. */
  lemma OthersDoNotMint(p: Platform, now: int, s: State, fx: Effect, c: Id)
    requires Lawful(p, s, fx) && c in s.colonies && c != fx.colony
    ensures c in Post(p, now, s, fx).colonies && Post(p, now, s, fx).colonies[c].mintedTotal == s.colonies[c].mintedTotal
  {
    hide ActsProperly, Changes;
    PostShape(p, now, s, fx);
    assert Untouched(s.colonies[c], Post(p, now, s, fx).colonies[c]);
  }

  // ---- imports and sweeps ---------------------------------------------------------

  lemma EnvelopePayload(p: Platform, o: Oracle, i: nat, s: State, source: Id, target: Id, env: Envelope)
    requires source in s.colonies && target in s.colonies
    ensures var r := PlanEnvelope(p, o, i, s, source, target, env);
            r.Ok? && r.value.Some? ==> !r.value.value.payload.TradeAccepted? && !r.value.value.payload.FundsMinted?
  {
    hide StepOf, TransitionAllowed, AddChecked, AcceptedAfterExpiry, TrimSpace, Sealed, Stamp;
  }

  lemma PaysTransitive(a: State, b: State, c: State)
    ensures NobodyPays(a, b) && NobodyPays(b, c) ==> NobodyPays(a, c)
    ensures NobodyMints(a, b) && NobodyMints(b, c) ==> NobodyMints(a, c)
  {
  }

  lemma MarkPaysNobody(s: State, colony: Id, id: Id)
    ensures NobodyPays(s, MarkProcessed(s, colony, id)) && NobodyMints(s, MarkProcessed(s, colony, id))
  {
  }

  lemma SamePaysNobody(s: State)
    ensures NobodyPays(s, s) && NobodyMints(s, s)
  {
  }

  lemma MessagePaysNobody(p: Platform, o: Oracle, i: nat, source: Id, target: Id, acc: Progress, m: Option<Envelope>)
    requires source in acc.state.colonies && target in acc.state.colonies && Inv(p, acc.state)
    requires ImportMessage(p, o, i, source, target, acc, m).Ok?
    ensures var s' := ImportMessage(p, o, i, source, target, acc, m).value.state; NobodyPays(acc.state, s') && NobodyMints(acc.state, s')
  {
    hide Inv, PlanEnvelope, Post, Lawful, Rows, MarkProcessed, NobodyPays, NobodyMints, Sound;
    var s := acc.state;
    SamePaysNobody(s);
    if m.Some? && m.value.id !in s.colonies[target].processed {
      var step := PlanEnvelope(p, o, i, s, source, target, m.value).value;
      MarkPaysNobody(s, target, m.value.id);
      if step.Some? {
        var s1 := Post(p, o.now, s, step.value);
        InvIsSound(p, s);
        SoundHasRows(p, s);
        EnvelopeLawful(p, o, i, s, source, target, m.value);
        EnvelopePayload(p, o, i, s, source, target, m.value);
        LawfulEnriches(p, o.now, s, step.value);
        LawfulMints(p, o.now, s, step.value);
        MarkPaysNobody(s1, target, m.value.id);
        PaysTransitive(s, s1, MarkProcessed(s1, target, m.value.id));
      }
    }
  }

  lemma SoundHasRows(p: Platform, s: State)
    requires Sound(p, s)
    ensures Rows(s)
  {
    hide Rows, Accounting, DualControl;
  }

  lemma {:induction false} LoopPaysNobody(p: Platform, o: Oracle, s: State, source: Id, target: Id, messages: seq<Option<Envelope>>, n: nat)
    requires source in s.colonies && target in s.colonies && Inv(p, s) && n <= |messages|
    requires ImportUpTo(p, o, s, source, target, messages, n).Ok?
    ensures var s' := ImportUpTo(p, o, s, source, target, messages, n).value.state; NobodyPays(s, s') && NobodyMints(s, s')
  {
    hide Inv, ImportMessage, NobodyPays, NobodyMints, Evolves;
    if n == 0 {
      SamePaysNobody(s);
    } else {
      LoopPaysNobody(p, o, s, source, target, messages, n - 1);
      var acc := ImportUpTo(p, o, s, source, target, messages, n - 1).value;
      ImportGood(p, o, s, source, target, messages, n - 1);
      MessagePaysNobody(p, o, n - 1, source, target, acc, messages[n - 1]);
      PaysTransitive(s, acc.state, ImportUpTo(p, o, s, source, target, messages, n).value.state);
    }
  }

  lemma ImportPaysNobody(p: Platform, o: Oracle, s: State, token: string, colony: Id, id: Id, b: Bundle)
    requires Inv(p, s) && ImportBundle(p, o, s, token, colony, id, b).Ok?
    ensures var s' := ImportBundle(p, o, s, token, colony, id, b).value.0; NobodyPays(s, s') && NobodyMints(s, s')
  {
    hide Inv, ImportUpTo, CheckImport, Post, Lawful, Rows, NobodyPays, NobodyMints, Evolves, Sound;
    var acc := ImportUpTo(p, o, s, b.from, colony, b.messages, |b.messages|).value;
    var fx := ImportClosing(colony, CheckImport(p, o, s, token, colony, b).value, id, b, acc.imported, acc.skipped);
    ImportGood(p, o, s, b.from, colony, b.messages, |b.messages|);
    LoopPaysNobody(p, o, s, b.from, colony, b.messages, |b.messages|);
    InvIsSound(p, acc.state);
    SoundHasRows(p, acc.state);
    ClosingLawful(p, acc.state, colony, fx.actor, id, b, acc.imported, acc.skipped);
    LawfulEnriches(p, o.now, acc.state, fx);
    LawfulMints(p, o.now, acc.state, fx);
    PaysTransitive(s, acc.state, Post(p, o.now, acc.state, fx));
  }

  lemma {:induction false} SweepPaysNobody(p: Platform, now: int, s: State, order: seq<Id>)
    requires Inv(p, s)
    ensures NobodyPays(s, Sweep(p, now, s, order)) && NobodyMints(s, Sweep(p, now, s, order))
  {
    hide Inv, Post, Lawful, Rows, NobodyPays, NobodyMints, Evolves, Due;
    if order == [] {
      SamePaysNobody(s);
    } else {
      var mid, last := Sweep(p, now, s, order[..|order| - 1]), order[|order| - 1];
      SweepPaysNobody(p, now, s, order[..|order| - 1]);
      SweepGood(p, now, s, order[..|order| - 1]);
      var fx := PlanExpire(p, now, mid, last);
      if fx.Some? {
        ExpirePaysNobody(p, now, mid, last);
        PaysTransitive(s, mid, Post(p, now, mid, fx.value));
      }
    }
  }

  lemma ExpirePaysNobody(p: Platform, now: int, s: State, t: Id)
    requires Inv(p, s) && PlanExpire(p, now, s, t).Some?
    ensures var s' := Post(p, now, s, PlanExpire(p, now, s, t).value); NobodyPays(s, s') && NobodyMints(s, s')
  {
    hide Inv, Post, Lawful, Rows, NobodyPays, NobodyMints, Sound;
    InvIsSound(p, s);
    SoundHasRows(p, s);
    TradeHomes(s, t);
    ExpireLawful(p, now, s, t);
    LawfulEnriches(p, now, s, PlanExpire(p, now, s, t).value);
    LawfulMints(p, now, s, PlanExpire(p, now, s, t).value);
  }

  lemma QuietPaysNobody(p: Platform, now: int, s: State, fx: Effect)
    requires fx == Logged(fx.colony, fx.actor, fx.payload)
    ensures NobodyPays(s, Post(p, now, s, fx)) && NobodyMints(s, Post(p, now, s, fx))
  {
    hide HashLedgerEntry;
  }

  // ---- requests -----------------------------------------------------------------------

  /** The caller is `u`, or a super admin, and `u` of colony `c` buys trade `t`: the balance falls by its price. */
  predicate PaysOwnTrade(p: Platform, o: Oracle, s: State, token: string, t: Id, c: Id, u: Id, before: int, after: int) {
    var actor := Actor(p, o, s, token);
    && actor.Ok? && t in s.trades && s.trades[t].buyer == u && s.trades[t].buyerColony == c && s.trades[t].price == before - after
    && s.trades[t].status == OfferReceived && !IsExpired(p, s.trades[t], o.now)
    && (actor.value == u || HasRole(s.users[actor.value], "super_admin"))
  }

  lemma AcceptCharges(p: Platform, o: Oracle, s: State, token: string, t: Id)
    requires PlanAccept(p, o, s, token, t).Ok? && t in s.trades && TradeRow(s, s.trades[t])
    ensures var fx, row := PlanAccept(p, o, s, token, t).value, s.trades[t];
            && fx.colony == row.buyerColony && fx.colony in s.colonies && row.buyer in s.colonies[fx.colony].accounts
            && fx.account == Some((row.buyer, (s.colonies[fx.colony].accounts[row.buyer] - row.price) as int64))
            && PaysOwnTrade(p, o, s, token, t, fx.colony, row.buyer, s.colonies[fx.colony].accounts[row.buyer], fx.account.value.1)
  {
    hide Actor, IsExpired, TransitionAllowed, Sealed, Stamp;
  }

  lemma AcceptDebits(p: Platform, o: Oracle, s: State, token: string, t: Id, c: Id, u: Id)
    requires Inv(p, s) && PlanAccept(p, o, s, token, t).Ok? && c in s.colonies && u in s.colonies[c].accounts
    ensures var s' := Post(p, o.now, s, PlanAccept(p, o, s, token, t).value);
            && c in s'.colonies && u in s'.colonies[c].accounts
            && (s'.colonies[c].accounts[u] != s.colonies[c].accounts[u] ==>
                  PaysOwnTrade(p, o, s, token, t, c, u, s.colonies[c].accounts[u], s'.colonies[c].accounts[u]))
  {
    hide Inv, Sound, ActsProperly, Changes, Rows, PlanAccept, PaysOwnTrade, Post;
    var fx := PlanAccept(p, o, s, token, t).value;
    InvIsSound(p, s);
    SoundHasRows(p, s);
    AcceptKnows(p, o, s, token, t);
    TradeHomes(s, t);
    AcceptLawful(p, o, s, token, t);
    AcceptCharges(p, o, s, token, t);
    PostShape(p, o.now, s, fx);
    if c != fx.colony {
      assert Untouched(s.colonies[c], Post(p, o.now, s, fx).colonies[c]);
    }
  }

  lemma AcceptKnows(p: Platform, o: Oracle, s: State, token: string, t: Id)
    requires PlanAccept(p, o, s, token, t).Ok?
    ensures t in s.trades
  {
    hide Actor, IsExpired, TransitionAllowed, Sealed, Stamp, Wrap;
  }

  /** Which request a payment or a mint in the ledger comes from. */
  predicate PayloadOf(p: Platform, o: Oracle, s: State, token: string, request: Request, fx: Effect) {
    && (fx.payload.TradeAccepted? ==> request.AcceptTrade?)
    && (fx.payload.FundsMinted? ==> MintsFor(p, o, s, token, request, fx.colony))
  }

  lemma DecisionPayload(p: Platform, o: Oracle, s: State, token: string, request: Request)
    requires request.DecideApproval? && Plan(p, o, s, token, request).Ok?
    ensures PayloadOf(p, o, s, token, request, Plan(p, o, s, token, request).value)
  {
    hide Actor, AddChecked, Past, TransitionAllowed, EffectiveMintCap;
  }

  lemma TradePayload(p: Platform, o: Oracle, s: State, token: string, request: Request)
    requires Plan(p, o, s, token, request).Ok? && (request.AcceptTrade? || request.CancelTrade? || request.CreateOffer?)
    ensures PayloadOf(p, o, s, token, request, Plan(p, o, s, token, request).value)
  {
    hide Actor, IsExpired, TrimSpace, Wrap, Sealed, Stamp, TransitionAllowed;
  }

  lemma QuietPayload(p: Platform, o: Oracle, s: State, token: string, request: Request)
    requires Plan(p, o, s, token, request).Ok? && !request.CreateOffer? && !request.AcceptTrade? && !request.CancelTrade? && !request.DecideApproval?
    ensures PayloadOf(p, o, s, token, request, Plan(p, o, s, token, request).value)
  {
    hide Actor, AddChecked, TrimSpace, Picked, Wrapped, Stamp, EffectiveMintCap, CanManageColony, CanRelay, HasRole, ValidatePolicy;
  }

  lemma RequestPayload(p: Platform, o: Oracle, s: State, token: string, request: Request)
    requires Plan(p, o, s, token, request).Ok?
    ensures PayloadOf(p, o, s, token, request, Plan(p, o, s, token, request).value)
  {
    hide Plan, PayloadOf;
    if request.DecideApproval? {
      DecisionPayload(p, o, s, token, request);
    } else if request.AcceptTrade? || request.CancelTrade? || request.CreateOffer? {
      TradePayload(p, o, s, token, request);
    } else {
      QuietPayload(p, o, s, token, request);
    }
  }

  /** A manager of the colony mints where one admin may, or approves another admin's pending proposal. */
  predicate MintsFor(p: Platform, o: Oracle, s: State, token: string, request: Request, c: Id) {
    var actor := Actor(p, o, s, token);
    && actor.Ok? && c in s.colonies && CanManageColony(s.users[actor.value], c)
    && match request
       case Mint(colony, _, _, _) => colony == c && !s.colonies[c].dual
       case DecideApproval(a, approve) =>
         && approve && a in s.actions && s.actions[a].kind == MintAction && s.actions[a].colony == c
         && s.actions[a].status == Pending && s.actions[a].proposedBy != actor.value
       case _ => false
  }

  lemma FoundingPaysNobody(p: Platform, o: Oracle, s: State, token: string)
    requires Fresh(s, o) && PlanCreateColony(p, o, s, token).Ok?
    ensures var s' := Post(p, o.now, s, PlanCreateColony(p, o, s, token).value); NobodyPays(s, s') && NobodyMints(s, s')
  {
    hide Actor, HashLedgerEntry;
  }

  lemma EnrolmentPaysNobody(p: Platform, o: Oracle, s: State, token: string, colony: Id, roles: seq<string>)
    requires Rows(s) && Fresh(s, o) && PlanCreateUser(p, o, s, token, colony, roles).Ok?
    ensures var s' := Post(p, o.now, s, PlanCreateUser(p, o, s, token, colony, roles).value); NobodyPays(s, s') && NobodyMints(s, s')
  {
    hide Actor, HashLedgerEntry, Rows;
    forall c | c in s.colonies ensures o.newId !in s.colonies[c].accounts {
      StrangerHasNoAccount(s, c, o);
    }
  }

  lemma NewcomersPayNobody(p: Platform, o: Oracle, s: State, token: string, request: Request)
    requires Rows(s) && Fresh(s, o) && Plan(p, o, s, token, request).Ok? && (request.CreateColony? || request.CreateUser?)
    ensures var s' := Post(p, o.now, s, Plan(p, o, s, token, request).value); NobodyPays(s, s') && NobodyMints(s, s')
  {
    hide Rows, Fresh, Post, NobodyPays, NobodyMints, PlanCreateColony, PlanCreateUser;
    match request
    case CreateColony => FoundingPaysNobody(p, o, s, token);
    case CreateUser(colony, roles) => EnrolmentPaysNobody(p, o, s, token, colony, roles);
  }

  lemma StrangerHasNoAccount(s: State, c: Id, o: Oracle)
    requires Rows(s) && Fresh(s, o) && c in s.colonies
    ensures o.newId !in s.colonies[c].accounts
  {
    hide ClaimRows, TradeRow;
    assert o.newId in s.colonies[c].accounts ==> Lives(s, o.newId, c);
  }

  lemma RequestPaysOrMints(p: Platform, o: Oracle, s: State, token: string, request: Request)
    requires Inv(p, s) && Fresh(s, o) && Plan(p, o, s, token, request).Ok?
    ensures var s' := Post(p, o.now, s, Plan(p, o, s, token, request).value);
            && (!request.AcceptTrade? ==> NobodyPays(s, s'))
            && forall c :: c in s.colonies ==>
                 c in s'.colonies && (s'.colonies[c].mintedTotal != s.colonies[c].mintedTotal ==> MintsFor(p, o, s, token, request, c))
  {
    hide Inv, Sound, Rows, Lawful, Plan, Post, Fresh, NobodyPays, MintsFor;
    InvIsSound(p, s);
    SoundHasRows(p, s);
    if request.CreateColony? || request.CreateUser? {
      NewcomersPayNobody(p, o, s, token, request);
    } else {
      var fx := Plan(p, o, s, token, request).value;
      RequestLawful(p, o, s, token, request);
      RequestPayload(p, o, s, token, request);
      if !fx.payload.TradeAccepted? {
        LawfulEnriches(p, o.now, s, fx);
      }
      if !fx.payload.FundsMinted? {
        LawfulMints(p, o.now, s, fx);
      }
      forall c | c in s.colonies && c != fx.colony
        ensures c in Post(p, o.now, s, fx).colonies && Post(p, o.now, s, fx).colonies[c].mintedTotal == s.colonies[c].mintedTotal {
        OthersDoNotMint(p, o.now, s, fx, c);
      }
      PostedKeysStay(p, o.now, s, fx);
    }
  }

  lemma PostedKeysStay(p: Platform, now: int, s: State, fx: Effect)
    ensures forall c :: c in s.colonies ==> c in Post(p, now, s, fx).colonies
  {
    hide Append, Touch;
  }

  // ---- the theorems ---------------------------------------------------------------------

  /** An operation that is not a request takes from nobody and mints nothing. */
  lemma OnlyRequestsMoveMoney(p: Platform, o: Oracle, s: State, op: Op)
    requires Inv(p, s) && Fresh(s, o) && !op.Act?
    ensures NobodyPays(s, After(p, o, s, op)) && NobodyMints(s, After(p, o, s, op))
  {
    hide Inv, ImportBundle, Sweep, Post, NobodyPays, NobodyMints, Fresh;
    SamePaysNobody(s);
    match op
    case Import(token, colony, id, b) =>
      if ImportBundle(p, o, s, token, colony, id, b).Ok? {
        ImportPaysNobody(p, o, s, token, colony, id, b);
      }
    case SweepExpired(order) => SweepPaysNobody(p, o.now, s, order);
    case Admin(users, sessions, note) =>
      var s1 := s.(users := users, sessions := sessions);
      PeoplePayNobody(s, users, sessions);
      if note.Some? {
        QuietPaysNobody(p, o.now, s1, Logged(note.value.0, note.value.1, note.value.2));
        PaysTransitive(s, s1, Post(p, o.now, s1, Logged(note.value.0, note.value.1, note.value.2)));
      }
  }

  lemma PeoplePayNobody(s: State, users: map<Id, User>, sessions: map<string, Session>)
    ensures var s1 := s.(users := users, sessions := sessions); NobodyPays(s, s1) && NobodyMints(s, s1)
  {
  }

  /** Whatever happens, a balance falls only when its owner (or a super admin) accepts an open offer, by exactly the price. */
  lemma OnlyBuyersPay(p: Platform, run: seq<State>, i: nat, o: Oracle, op: Op, c: Id, u: Id)
    requires Run(p, run) && i < |run| && Fresh(run[i], o) && c in run[i].colonies && u in run[i].colonies[c].accounts
    ensures var s, s' := run[i], After(p, o, run[i], op);
            && c in s'.colonies && u in s'.colonies[c].accounts
            && (s'.colonies[c].accounts[u] < s.colonies[c].accounts[u] ==>
                  && op.Act? && op.request.AcceptTrade?
                  && PaysOwnTrade(p, o, s, op.token, op.request.trade, c, u, s.colonies[c].accounts[u], s'.colonies[c].accounts[u]))
  {
    hide Inv, Run, Fresh, Post, PaysOwnTrade, ImportBundle, Sweep, PlanAccept;
    EveryStateIsGood(p, run, i);
    if !op.Act? {
      OnlyRequestsMoveMoney(p, o, run[i], op);
    } else {
      hide Plan;
      if Plan(p, o, run[i], op.token, op.request).Ok? {
        if op.request.AcceptTrade? {
          assert Plan(p, o, run[i], op.token, op.request) == PlanAccept(p, o, run[i], op.token, op.request.trade) by { AcceptIsPlanned(p, o, run[i], op.token, op.request.trade); }
          AcceptDebits(p, o, run[i], op.token, op.request.trade, c, u);
        } else {
          RequestPaysOrMints(p, o, run[i], op.token, op.request);
        }
      }
    }
  }

  lemma AcceptIsPlanned(p: Platform, o: Oracle, s: State, token: string, t: Id)
    ensures Plan(p, o, s, token, AcceptTrade(t)) == PlanAccept(p, o, s, token, t)
  {
  }

  /** A colony's supply changes only by its managers: one where one may mint alone, two under dual control. */
  lemma OnlyManagersMint(p: Platform, run: seq<State>, i: nat, o: Oracle, op: Op, c: Id)
    requires Run(p, run) && i < |run| && Fresh(run[i], o) && c in run[i].colonies
    ensures var s, s' := run[i], After(p, o, run[i], op);
            && c in s'.colonies
            && (s'.colonies[c].mintedTotal != s.colonies[c].mintedTotal ==> op.Act? && MintsFor(p, o, s, op.token, op.request, c))
  {
    hide Inv, Run, Fresh, Post, MintsFor, ImportBundle, Sweep, Plan;
    EveryStateIsGood(p, run, i);
    if !op.Act? {
      OnlyRequestsMoveMoney(p, o, run[i], op);
    } else if Plan(p, o, run[i], op.token, op.request).Ok? {
      RequestPaysOrMints(p, o, run[i], op.token, op.request);
    }
  }

  // ---- who decides proposals ---------------------------------------------------------------

  /** The caller may decide the action: another manager of its colony, before it expires by the handler's own clock. */
  predicate MayDecide(p: Platform, o: Oracle, s: State, token: string, a: Id) {
    var actor := Actor(p, o, s, token);
    && actor.Ok? && a in s.actions && actor.value != s.actions[a].proposedBy && CanManageColony(s.users[actor.value], s.actions[a].colony)
    && p.parse(s.actions[a].expiresAt).Some? && o.now <= p.parse(s.actions[a].expiresAt).value * SECOND
  }

  /** The action after the caller decided it. */
  function Decided(p: Platform, o: Oracle, s: State, token: string, a: Id, approve: bool): Action
    requires MayDecide(p, o, s, token, a)
  {
    s.actions[a].(status := if approve then Approved else Rejected, decidedBy := Actor(p, o, s, token).value, decidedAt := Stamp(p, o.now))
  }

  /** A request writes a new action, or decides the one it names. */
  predicate WritesAction(p: Platform, o: Oracle, s: State, token: string, request: Request, fx: Effect) {
    fx.action.Some? && fx.action.value.0 != o.newId ==>
      && request.DecideApproval? && MayDecide(p, o, s, token, request.action)
      && fx.action.value == (request.action, Decided(p, o, s, token, request.action, request.approve))
  }

  lemma DecisionWritesAction(p: Platform, o: Oracle, s: State, token: string, request: Request)
    requires request.DecideApproval? && Plan(p, o, s, token, request).Ok?
    ensures WritesAction(p, o, s, token, request, Plan(p, o, s, token, request).value)
  {
    hide Actor, ApproveEffect, CanManageColony;
  }

  lemma OthersWriteActions(p: Platform, o: Oracle, s: State, token: string, request: Request)
    requires !request.DecideApproval? && Plan(p, o, s, token, request).Ok?
    ensures WritesAction(p, o, s, token, request, Plan(p, o, s, token, request).value)
  {
    hide Actor, IsExpired, AddChecked, TrimSpace, Wrap, Picked, Sealed, Stamp, TransitionAllowed, MayDecide;
  }

  /** Whatever happens, a pending action is decided only by a request of another manager who may decide it by the clock then read. */
  lemma OnlyOthersDecide(p: Platform, o: Oracle, s: State, op: Op, a: Id)
    requires Fresh(s, o) && a in s.actions && s.actions[a].status == Pending
    ensures var s' := After(p, o, s, op);
            && a in s'.actions
            && (s'.actions[a] != s.actions[a] ==>
                  && op.Act? && op.request.DecideApproval? && op.request.action == a && MayDecide(p, o, s, op.token, a)
                  && s'.actions[a] == Decided(p, o, s, op.token, a, op.request.approve))
  {
    hide Plan, ImportUpTo, CheckImport, Sweep, PostColonies, MayDecide, Decided;
    match op
    case Act(token, request) =>
      if Plan(p, o, s, token, request).Ok? {
        if request.DecideApproval? {
          DecisionWritesAction(p, o, s, token, request);
        } else {
          OthersWriteActions(p, o, s, token, request);
        }
      }
    case Import(token, colony, id, b) =>
      if CheckImport(p, o, s, token, colony, b).Ok? {
        LoopKeepsRows(p, o, s, b.from, colony, b.messages, |b.messages|);
      }
    case SweepExpired(order) => SweepKeepsActions(p, o.now, s, order);
    case Admin(_, _, _) =>
  }
}
