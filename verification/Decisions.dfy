/** Over a whole run: the settlement and refund envelopes that leave are exactly the decisions the ledgers record. */
module Decisions {
  import opened Basics
  import opened TradeTable
  import opened Model
  import opened Handlers
  import opened Invariant
  import opened Lawfulness
  import opened Runs

  // ---- counting envelopes ------------------------------------------------------------

  /** A settlement or refund envelope for trade `t`. */
  function DecisionMail(t: Id): Envelope -> int {
    (e: Envelope) => Once((e.kind == "settlement" || e.kind == "refund") && e.body.Body? && e.body.trade == t)
  }

  ghost function MailCount(t: Id): seq<Envelope> -> int {
    (mail: seq<Envelope>) => Fold(mail, DecisionMail(t))
  }

  ghost function OfOutbox(t: Id): Colony -> int {
    (c: Colony) => Fold(c.outbox, DecisionMail(t))
  }

  function OutboxIn(m: map<Id, Colony>, c: Id): seq<Envelope> {
    if c in m then m[c].outbox else []
  }

  /** The mail that was put behind `was`; none when the outbox was drained. */
  function Added(was: seq<Envelope>, now: seq<Envelope>): seq<Envelope> {
    if was <= now then now[|was|..] else []
  }

  function NewMail(m: map<Id, Colony>, m': map<Id, Colony>): map<Id, seq<Envelope>> {
    map c | c in m' :: Added(OutboxIn(m, c), m'[c].outbox)
  }

  /** The decision envelopes for `t` that entered an outbox between two states. */
  ghost function Emitted(s: State, s': State, t: Id): int {
    Sum(NewMail(s.colonies, s'.colonies), MailCount(t))
  }

  /** The decision envelopes for `t` that entered an outbox in the first `n` steps. */
  ghost function EmittedUpTo(run: seq<State>, t: Id, n: nat): int
    requires n < |run|
  {
    if n == 0 then 0 else EmittedUpTo(run, t, n - 1) + Emitted(run[n - 1], run[n], t)
  }

  // ---- one effect ----------------------------------------------------------------------

  /** The envelopes an effect sends are the decision its entry records. */
  ghost predicate Honours(fx: Effect, t: Id) {
    Fold(fx.emit, DecisionMail(t)) == Once((fx.payload.AcceptanceImported? || fx.payload.RefundDecided?) && fx.payload.trade == t)
  }

  lemma FoldOne(e: Envelope, f: Envelope -> int)
    ensures Fold([e], f) == f(e)
  {
    FoldAppend([], e, f);
  }

  lemma SilentHonours(fx: Effect, t: Id)
    requires fx.emit == [] && !fx.payload.AcceptanceImported? && !fx.payload.RefundDecided?
    ensures Honours(fx, t)
  {
  }

  lemma RefundHonours(p: Platform, o: Oracle, i: nat, s: State, source: Id, target: Id, tradeId: Id, trigger: Envelope, reason: string, t: Id)
    requires target in s.colonies && tradeId in s.trades
    ensures var r := Handlers.DecideRefund(p, o, i, s, source, target, tradeId, trigger, reason); r.Ok? ==> Honours(r.value, t)
  {
    hide TransitionAllowed;
    var r := Handlers.DecideRefund(p, o, i, s, source, target, tradeId, trigger, reason);
    if r.Ok? {
      FoldOne(r.value.emit[0], DecisionMail(t));
    }
  }

  lemma CreditHonours(p: Platform, o: Oracle, i: nat, s: State, source: Id, target: Id, env: Envelope, t: Id)
    requires source in s.colonies && target in s.colonies && env.body.Body? && env.body.trade in s.trades
    requires s.trades[env.body.trade].seller in s.colonies[target].accounts
    ensures var r := Credit(p, o, i, s, source, target, env); r.Ok? ==> Honours(r.value, t)
  {
    hide TransitionAllowed, AddChecked;
    var r := Credit(p, o, i, s, source, target, env);
    if r.Ok? {
      FoldOne(r.value.emit[0], DecisionMail(t));
    }
  }

  lemma DecisionHonours(p: Platform, o: Oracle, i: nat, s: State, source: Id, target: Id, env: Envelope, t: Id)
    requires source in s.colonies && target in s.colonies
    ensures var r := PlanImportAcceptance(p, o, i, s, source, target, env); r.Ok? && r.value.Some? ==> Honours(r.value.value, t)
    ensures var r := PlanImportCancel(p, o, i, s, source, target, env); r.Ok? && r.value.Some? ==> Honours(r.value.value, t)
  {
    hide StepOf, Honours, Credit, Handlers.DecideRefund, AcceptedAfterExpiry;
    if env.body.Body? && env.body.trade in s.trades {
      RefundHonours(p, o, i, s, source, target, env.body.trade, env, LATE_REASON, t);
      RefundHonours(p, o, i, s, source, target, env.body.trade, env, EXPIRED_REASON, t);
      RefundHonours(p, o, i, s, source, target, env.body.trade, env, CANCELLED_REASON, t);
      RefundHonours(p, o, i, s, source, target, env.body.trade, env, CANCEL_REASON, t);
      if s.trades[env.body.trade].seller in s.colonies[target].accounts {
        CreditHonours(p, o, i, s, source, target, env, t);
      }
    }
  }

  lemma SilentEnvelope(p: Platform, o: Oracle, s: State, source: Id, target: Id, env: Envelope, t: Id)
    ensures var r := PlanImportOffer(p, s, source, target, env); r.Ok? && r.value.Some? ==> Honours(r.value.value, t)
    ensures var r := PlanImportSettlement(p, o, s, source, target, env); r.Ok? && r.value.Some? ==> Honours(r.value.value, t)
    ensures var r := PlanImportRefund(p, o, s, source, target, env); r.Ok? && r.value.Some? ==> Honours(r.value.value, t)
  {
    hide StepOf, TransitionAllowed, AddChecked, TrimSpace;
  }

  /** An imported envelope sends as many decisions about `t` as its entry records. */
  lemma EnvelopeHonours(p: Platform, o: Oracle, i: nat, s: State, source: Id, target: Id, env: Envelope, t: Id)
    requires source in s.colonies && target in s.colonies
    ensures var r := PlanEnvelope(p, o, i, s, source, target, env); r.Ok? && r.value.Some? ==> Honours(r.value.value, t)
  {
    hide PlanImportOffer, PlanImportAcceptance, PlanImportSettlement, PlanImportCancel, PlanImportRefund, Honours;
    DecisionHonours(p, o, i, s, source, target, env, t);
    SilentEnvelope(p, o, s, source, target, env, t);
  }

  /** The effect of a request sends no decision and records none; only an export drains an outbox. */
  predicate Undecided(o: Oracle, request: Request, fx: Effect) {
    && |fx.emit| <= 1 && (fx.emit != [] ==> fx.emit[0].kind != "settlement" && fx.emit[0].kind != "refund")
    && !fx.payload.AcceptanceImported? && !fx.payload.RefundDecided?
    && (fx.drain.Some? ==> request.ExportBundle?)
    && (fx.founded.Some? ==> fx.founded.value == (o.newId, NewColony(o.newId, o.pub, o.priv)))
  }

  lemma TradeUndecided(p: Platform, o: Oracle, s: State, token: string, request: Request)
    requires Plan(p, o, s, token, request).Ok?
    requires request.CreateOffer? || request.AcceptTrade? || request.CancelTrade?
    ensures Undecided(o, request, Plan(p, o, s, token, request).value)
  {
    hide Actor, IsExpired, TrimSpace, Wrap, Stamp, TransitionAllowed;
  }

  lemma DecisionUndecided(p: Platform, o: Oracle, s: State, token: string, request: Request)
    requires Plan(p, o, s, token, request).Ok? && request.DecideApproval?
    ensures Undecided(o, request, Plan(p, o, s, token, request).value)
  {
    hide Actor, AddChecked, Past, Stamp, TransitionAllowed;
  }

  lemma QuietUndecided(p: Platform, o: Oracle, s: State, token: string, request: Request)
    requires Plan(p, o, s, token, request).Ok? && !request.CreateOffer? && !request.AcceptTrade? && !request.CancelTrade? && !request.DecideApproval?
    ensures Undecided(o, request, Plan(p, o, s, token, request).value)
  {
    hide Actor, AddChecked, TrimSpace, Picked, Wrapped, Stamp, EffectiveMintCap, CanManageColony, CanRelay, HasRole, ValidatePolicy;
  }

  lemma RequestUndecided(p: Platform, o: Oracle, s: State, token: string, request: Request)
    requires Plan(p, o, s, token, request).Ok?
    ensures Undecided(o, request, Plan(p, o, s, token, request).value)
  {
    hide Plan, Undecided;
    if request.CreateOffer? || request.AcceptTrade? || request.CancelTrade? {
      TradeUndecided(p, o, s, token, request);
    } else if request.DecideApproval? {
      DecisionUndecided(p, o, s, token, request);
    } else {
      QuietUndecided(p, o, s, token, request);
    }
  }

  lemma UndecidedHonours(o: Oracle, request: Request, fx: Effect, t: Id)
    requires Undecided(o, request, fx)
    ensures Honours(fx, t)
  {
    if fx.emit != [] {
      assert fx.emit == [fx.emit[0]];
      FoldOne(fx.emit[0], DecisionMail(t));
    }
  }

  // ---- outboxes and ledgers keep step ------------------------------------------------------

  ghost predicate Grows(m: map<Id, Colony>, m': map<Id, Colony>) {
    forall c :: c in m ==> c in m' && m[c].outbox <= m'[c].outbox
  }

  /** Outboxes only grew, by as many decision envelopes for `t` as decisions were recorded. */
  ghost predicate InPace(s: State, s': State, t: Id) {
    && Grows(s.colonies, s'.colonies)
    && Sum(s'.colonies, OfOutbox(t)) - Sum(s.colonies, OfOutbox(t)) == Tally(s', IsDecision(t)) - Tally(s, IsDecision(t))
  }

  lemma PaceTransitive(a: State, b: State, c: State, t: Id)
    requires InPace(a, b, t) && InPace(b, c, t)
    ensures InPace(a, c, t)
  {
    hide Tally, OfOutbox;
  }

  lemma SameInPace(s: State, s': State, t: Id)
    requires s'.colonies == s.colonies
    ensures InPace(s, s', t)
  {
  }

  lemma {:induction false} FoldConcat(a: seq<Envelope>, b: seq<Envelope>, f: Envelope -> int)
    ensures Fold(a + b, f) == Fold(a, f) + Fold(b, f)
  {
    if b == [] {
      assert a + b == a;
    } else {
      var rest := b[..|b| - 1];
      FoldConcat(a, rest, f);
      assert (a + b)[..|a + b| - 1] == a + rest;
    }
  }

  /** One colony replaced: both sums change by that colony's difference. */
  lemma OneInPace(s: State, s': State, c: Id, t: Id, mail: seq<Envelope>, entries: seq<Entry>)
    requires c in s.colonies && c in s'.colonies && s'.colonies == s.colonies[c := s'.colonies[c]]
    requires s'.colonies[c].outbox == s.colonies[c].outbox + mail && s'.colonies[c].ledger == s.colonies[c].ledger + entries
    requires Fold(mail, DecisionMail(t)) == Fold(entries, IsDecision(t)) && |entries| <= 1
    ensures InPace(s, s', t)
  {
    SumUpdate(s.colonies, c, s'.colonies[c], OfOutbox(t));
    SumUpdate(s.colonies, c, s'.colonies[c], OfLedger(IsDecision(t)));
    FoldConcat(s.colonies[c].outbox, mail, DecisionMail(t));
    if entries == [] {
      assert s.colonies[c].ledger + [] == s.colonies[c].ledger;
    } else {
      assert entries == [entries[0]];
      FoldAppend(s.colonies[c].ledger, entries[0], IsDecision(t));
      FoldAppend([], entries[0], IsDecision(t));
    }
  }

  lemma PostInPace(p: Platform, now: int, s: State, fx: Effect, t: Id)
    requires fx.founded.None? && fx.drain.None? && Honours(fx, t)
    ensures InPace(s, Post(p, now, s, fx), t)
  {
    hide HashLedgerEntry, InPace;
    if fx.colony in s.colonies {
      var c := Append(p, fx.colony, Touch(s.colonies[fx.colony], fx), Stamp(p, now), fx.actor, fx.payload);
      var e := NextEntry(p, fx.colony, Touch(s.colonies[fx.colony], fx), Stamp(p, now), fx.actor, fx.payload);
      var mid := s.(colonies := s.colonies[fx.colony := c]);
      assert Fold([e], IsDecision(t)) == IsDecision(t)(e) by { FoldAppend([], e, IsDecision(t)); }
      OneInPace(s, mid, fx.colony, t, fx.emit, [e]);
      OweInPace(mid, Post(p, now, s, fx), fx, t);
      PaceTransitive(s, mid, Post(p, now, s, fx), t);
    } else {
      SameInPace(s, Post(p, now, s, fx), t);
    }
  }

  lemma OweInPace(s: State, s': State, fx: Effect, t: Id)
    requires s'.colonies == Owe(s.colonies, fx)
    ensures InPace(s, s', t)
  {
    hide InPace;
    if fx.claim.Some? && fx.claim.value.peer in s.colonies {
      var peer := fx.claim.value.peer;
      assert s.colonies[peer].outbox + [] == s.colonies[peer].outbox && s.colonies[peer].ledger + [] == s.colonies[peer].ledger;
      OneInPace(s, s', peer, t, [], []);
    } else {
      SameInPace(s, s', t);
    }
  }

  lemma MarkInPace(s: State, colony: Id, e: Id, t: Id)
    ensures InPace(s, MarkProcessed(s, colony, e), t)
  {
    hide InPace;
    if colony in s.colonies {
      assert s.colonies[colony].outbox + [] == s.colonies[colony].outbox && s.colonies[colony].ledger + [] == s.colonies[colony].ledger;
      OneInPace(s, MarkProcessed(s, colony, e), colony, t, [], []);
    } else {
      SameInPace(s, s, t);
    }
  }

  // ---- every operation --------------------------------------------------------------------------

  lemma MessageInPace(p: Platform, o: Oracle, i: nat, source: Id, target: Id, acc: Progress, m: Option<Envelope>, t: Id)
    requires source in acc.state.colonies && target in acc.state.colonies && ImportMessage(p, o, i, source, target, acc, m).Ok?
    ensures InPace(acc.state, ImportMessage(p, o, i, source, target, acc, m).value.state, t)
  {
    hide PlanEnvelope, Post, MarkProcessed, InPace, Honours;
    var s := acc.state;
    SameInPace(s, s, t);
    if m.Some? && m.value.id !in s.colonies[target].processed {
      MarkInPace(s, target, m.value.id, t);
      var step := PlanEnvelope(p, o, i, s, source, target, m.value).value;
      if step.Some? {
        EnvelopeHonours(p, o, i, s, source, target, m.value, t);
        PostInPace(p, o.now, s, step.value, t);
        MarkInPace(Post(p, o.now, s, step.value), target, m.value.id, t);
        PaceTransitive(s, Post(p, o.now, s, step.value), MarkProcessed(Post(p, o.now, s, step.value), target, m.value.id), t);
      }
    }
  }

  lemma {:induction false} LoopInPace(p: Platform, o: Oracle, s: State, source: Id, target: Id, messages: seq<Option<Envelope>>, n: nat, t: Id)
    requires source in s.colonies && target in s.colonies && n <= |messages| && ImportUpTo(p, o, s, source, target, messages, n).Ok?
    ensures InPace(s, ImportUpTo(p, o, s, source, target, messages, n).value.state, t)
  {
    hide ImportMessage, InPace;
    if n == 0 {
      SameInPace(s, s, t);
    } else {
      var acc := ImportUpTo(p, o, s, source, target, messages, n - 1).value;
      LoopInPace(p, o, s, source, target, messages, n - 1, t);
      MessageInPace(p, o, n - 1, source, target, acc, messages[n - 1], t);
      PaceTransitive(s, acc.state, ImportUpTo(p, o, s, source, target, messages, n).value.state, t);
    }
  }

  lemma BundleInPace(p: Platform, o: Oracle, s: State, token: string, colony: Id, id: Id, b: Bundle, t: Id)
    requires ImportBundle(p, o, s, token, colony, id, b).Ok?
    ensures InPace(s, ImportBundle(p, o, s, token, colony, id, b).value.0, t)
  {
    hide CheckImport, ImportUpTo, Post, InPace, Honours;
    var acc := ImportUpTo(p, o, s, b.from, colony, b.messages, |b.messages|).value;
    var fx := ImportClosing(colony, CheckImport(p, o, s, token, colony, b).value, id, b, acc.imported, acc.skipped);
    LoopInPace(p, o, s, b.from, colony, b.messages, |b.messages|, t);
    SilentHonours(fx, t);
    PostInPace(p, o.now, acc.state, fx, t);
    PaceTransitive(s, acc.state, Post(p, o.now, acc.state, fx), t);
  }

  lemma {:induction false} SweepInPace(p: Platform, now: int, s: State, order: seq<Id>, t: Id)
    ensures InPace(s, Sweep(p, now, s, order), t)
  {
    hide InPace, Post, Due, Honours;
    if order == [] {
      SameInPace(s, s, t);
    } else {
      var mid := Sweep(p, now, s, order[..|order| - 1]);
      SweepInPace(p, now, s, order[..|order| - 1], t);
      var fx := PlanExpire(p, now, mid, order[|order| - 1]);
      if fx.Some? {
        SilentHonours(fx.value, t);
        PostInPace(p, now, mid, fx.value, t);
        PaceTransitive(s, mid, Post(p, now, mid, fx.value), t);
      }
    }
  }

  lemma FoundInPace(s: State, s': State, id: Id, c: Colony, t: Id)
    requires id !in s.colonies && c.outbox == [] && c.ledger == [] && s'.colonies == s.colonies[id := c]
    ensures InPace(s, s', t)
  {
    SumUpdate(s.colonies, id, c, OfOutbox(t));
    SumUpdate(s.colonies, id, c, OfLedger(IsDecision(t)));
  }

  lemma RequestInPace(p: Platform, o: Oracle, s: State, token: string, request: Request, t: Id)
    requires Fresh(s, o) && Plan(p, o, s, token, request).Ok? && !request.ExportBundle?
    ensures InPace(s, Post(p, o.now, s, Plan(p, o, s, token, request).value), t)
  {
    hide Plan, Post, InPace, Honours;
    var fx := Plan(p, o, s, token, request).value;
    RequestUndecided(p, o, s, token, request);
    UndecidedHonours(o, request, fx, t);
    if fx.founded.Some? {
      var s1 := s.(colonies := s.colonies[fx.founded.value.0 := fx.founded.value.1]);
      FoundInPace(s, s1, fx.founded.value.0, fx.founded.value.1, t);
      FoundingSplits(p, o.now, s, fx);
      UnfoundHonours(fx, t);
      PostInPace(p, o.now, s1, fx.(founded := None), t);
      PaceTransitive(s, s1, Post(p, o.now, s, fx), t);
    } else {
      PostInPace(p, o.now, s, fx, t);
    }
  }

  lemma UnfoundHonours(fx: Effect, t: Id)
    requires Honours(fx, t)
    ensures Honours(fx.(founded := None), t)
  {
  }

  // ---- what enters the outboxes ---------------------------------------------------------------

  /** Where outboxes only grow, what was added is the difference of what they hold. */
  lemma {:induction false} GrowthIsAdded(m: map<Id, Colony>, m': map<Id, Colony>, t: Id)
    requires Grows(m, m')
    ensures Sum(NewMail(m, m'), MailCount(t)) == Sum(m', OfOutbox(t)) - Sum(m, OfOutbox(t))
    decreases |m'|
  {
    hide Sum, OfOutbox, MailCount, NewMail;
    if m' == map[] {
      NothingGrows(m, m', t);
    } else {
      var c :| c in m';
      GrowthOfOne(m, m', c, t);
      GrowthIsAdded(m - {c}, m' - {c}, t);
    }
  }

  lemma NothingGrows(m: map<Id, Colony>, m': map<Id, Colony>, t: Id)
    requires Grows(m, m') && m' == map[]
    ensures Sum(NewMail(m, m'), MailCount(t)) == Sum(m', OfOutbox(t)) == Sum(m, OfOutbox(t)) == 0
  {
    hide OfOutbox, MailCount;
    assert m == map[] && NewMail(m, m') == map[];
  }

  lemma GrowthOfOne(m: map<Id, Colony>, m': map<Id, Colony>, c: Id, t: Id)
    requires Grows(m, m') && c in m'
    ensures Sum(NewMail(m, m'), MailCount(t)) - Sum(NewMail(m - {c}, m' - {c}), MailCount(t))
            == (Sum(m', OfOutbox(t)) - Sum(m' - {c}, OfOutbox(t))) - (Sum(m, OfOutbox(t)) - Sum(m - {c}, OfOutbox(t)))
  {
    hide Sum, OfOutbox, MailCount, Added;
    LessMail(m, m', c);
    SumPick(NewMail(m, m'), c, MailCount(t));
    SumPick(m', c, OfOutbox(t));
    AddedBehind(OutboxIn(m, c), m'[c].outbox, t);
    OutboxCount(m'[c], t);
    if c in m {
      SumPick(m, c, OfOutbox(t));
      OutboxCount(m[c], t);
    } else {
      assert m - {c} == m;
      assert Fold([], DecisionMail(t)) == 0;
    }
  }

  lemma LessMail(m: map<Id, Colony>, m': map<Id, Colony>, c: Id)
    ensures NewMail(m, m') - {c} == NewMail(m - {c}, m' - {c})
  {
    hide Added;
  }

  lemma OutboxCount(c: Colony, t: Id)
    ensures OfOutbox(t)(c) == Fold(c.outbox, DecisionMail(t))
  {
  }

  lemma AddedBehind(was: seq<Envelope>, now: seq<Envelope>, t: Id)
    requires was <= now
    ensures MailCount(t)(Added(was, now)) == Fold(now, DecisionMail(t)) - Fold(was, DecisionMail(t))
  {
    assert was + Added(was, now) == now;
    FoldConcat(was, Added(was, now), DecisionMail(t));
  }

  lemma {:induction false} KeptIsShorter(outbox: seq<Envelope>, to: Id)
    ensures |Kept(outbox, to)| <= |outbox|
  {
    if outbox != [] {
      KeptIsShorter(outbox[..|outbox| - 1], to);
    }
  }

  lemma ExportShape(p: Platform, o: Oracle, s: State, token: string, request: Request)
    requires request.ExportBundle? && Plan(p, o, s, token, request).Ok?
    ensures var c, s' := request.colony, Post(p, o.now, s, Plan(p, o, s, token, request).value);
            && c in s.colonies && c in s'.colonies && s'.colonies == s.colonies[c := s'.colonies[c]]
            && s'.colonies[c].outbox == Kept(s.colonies[c].outbox, request.to)
            && |s'.colonies[c].ledger| == |s.colonies[c].ledger| + 1
            && s'.colonies[c].ledger[..|s.colonies[c].ledger|] == s.colonies[c].ledger
            && s'.colonies[c].ledger[|s.colonies[c].ledger|].payload.BundleExported?
  {
    hide Actor, Picked, HashLedgerEntry, Kept, Stamp, Wrapped;
    var mail := Kept(s.colonies[request.colony].outbox, request.to);
    assert mail + [] == mail;
  }

  lemma DrainedAddsNothing(m: map<Id, Colony>, m': map<Id, Colony>, c: Id, to: Id, t: Id)
    requires c in m && c in m' && m' == m[c := m'[c]] && m'[c].outbox == Kept(m[c].outbox, to)
    ensures Sum(NewMail(m, m'), MailCount(t)) == 0
  {
    hide Kept, Sum;
    KeptIsShorter(m[c].outbox, to);
    SumZero(NewMail(m, m'), MailCount(t));
  }

  lemma UndecidedEntry(m: map<Id, Colony>, m': map<Id, Colony>, c: Id, t: Id)
    requires c in m && c in m' && m' == m[c := m'[c]] && |m'[c].ledger| == |m[c].ledger| + 1
    requires m'[c].ledger[..|m[c].ledger|] == m[c].ledger && m'[c].ledger[|m[c].ledger|].payload.BundleExported?
    ensures Sum(m', OfLedger(IsDecision(t))) == Sum(m, OfLedger(IsDecision(t)))
  {
    hide Sum;
    SumUpdate(m, c, m'[c], OfLedger(IsDecision(t)));
  }

  /** An export puts nothing into an outbox and records no decision. */
  lemma ExportIsSilent(p: Platform, o: Oracle, s: State, token: string, request: Request, t: Id)
    requires request.ExportBundle? && Plan(p, o, s, token, request).Ok?
    ensures var s' := Post(p, o.now, s, Plan(p, o, s, token, request).value);
            Emitted(s, s', t) == 0 && Tally(s', IsDecision(t)) == Tally(s, IsDecision(t))
  {
    hide Plan, Post, Kept, Sum, NewMail;
    var c, s' := request.colony, Post(p, o.now, s, Plan(p, o, s, token, request).value);
    ExportShape(p, o, s, token, request);
    DrainedAddsNothing(s.colonies, s'.colonies, c, request.to, t);
    UndecidedEntry(s.colonies, s'.colonies, c, t);
  }

  /** In one step exactly as many decision envelopes enter the outboxes as decisions enter the ledgers. */
  lemma StepEmits(p: Platform, o: Oracle, s: State, op: Op, t: Id)
    requires Fresh(s, o)
    ensures var s' := After(p, o, s, op); Emitted(s, s', t) == Tally(s', IsDecision(t)) - Tally(s, IsDecision(t))
  {
    hide Plan, Post, Sweep, ImportBundle, InPace, Emitted, Tally, Fresh, AdminAllowed;
    var s' := After(p, o, s, op);
    if op.Act? && op.request.ExportBundle? && Plan(p, o, s, op.token, op.request).Ok? {
      ExportIsSilent(p, o, s, op.token, op.request, t);
    } else {
      SameInPace(s, s, t);
      match op {
        case Act(token, request) =>
          if Plan(p, o, s, token, request).Ok? {
            RequestInPace(p, o, s, token, request, t);
          }
        case Import(token, colony, id, b) =>
          if ImportBundle(p, o, s, token, colony, id, b).Ok? {
            BundleInPace(p, o, s, token, colony, id, b, t);
          }
        case SweepExpired(order) => SweepInPace(p, o.now, s, order, t);
        case Admin(users, sessions, note) => AdminInPace(p, o, s, op, t);
      }
      PaceEmits(s, s', t);
    }
  }

  lemma PaceEmits(s: State, s': State, t: Id)
    requires InPace(s, s', t)
    ensures Emitted(s, s', t) == Tally(s', IsDecision(t)) - Tally(s, IsDecision(t))
  {
    hide Tally, OfOutbox;
    GrowthIsAdded(s.colonies, s'.colonies, t);
  }

  lemma AdminInPace(p: Platform, o: Oracle, s: State, op: Op, t: Id)
    requires op.Admin?
    ensures InPace(s, After(p, o, s, op), t)
  {
    hide Post, InPace, Honours;
    if AdminAllowed(s, op) {
      var s1 := s.(users := op.users, sessions := op.sessions);
      SameInPace(s, s1, t);
      if op.note.Some? {
        var fx := Logged(op.note.value.0, op.note.value.1, op.note.value.2);
        SilentHonours(fx, t);
        PostInPace(p, o.now, s1, fx, t);
        PaceTransitive(s, s1, Post(p, o.now, s1, fx), t);
      }
    } else {
      SameInPace(s, s, t);
    }
  }

  // ---- whole runs --------------------------------------------------------------------------------

  lemma NothingRecorded(s: State, t: Id)
    requires Start(s)
    ensures Tally(s, IsDecision(t)) == 0
  {
  }

  /** Over a whole run at most one settlement or refund envelope about a trade ever leaves, and it is the recorded decision. */
  lemma {:induction false} OneDecisionLeaves(p: Platform, run: seq<State>, t: Id, n: nat)
    requires Run(p, run) && n < |run|
    ensures EmittedUpTo(run, t, n) == Tally(run[n], IsDecision(t))
    ensures 0 <= EmittedUpTo(run, t, n) <= 1
  {
    hide After, Fresh, Emitted, Tally, Rows, Accounting, Conserved, Mirrored, AllChained, Replays, SupplyBounds, DualControl;
    if n == 0 {
      NothingRecorded(run[0], t);
    } else {
      OneDecisionLeaves(p, run, t, n - 1);
      assert Next(p, run[n - 1], run[n]);
      var op: Op, o: Oracle :| Fresh(run[n - 1], o) && run[n] == After(p, o, run[n - 1], op);
      StepEmits(p, o, run[n - 1], op, t);
    }
    EveryStateIsGood(p, run, n);
    assert OutcomeOf(run[n], t);
  }
}
