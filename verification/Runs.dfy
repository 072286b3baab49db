/** Runs of the platform: any requests, any envelopes, any order. Safety over whole runs. */
module Runs {
  import opened Basics
  import opened TradeTable
  import opened Model
  import opened Handlers
  import opened Invariant
  import opened Preserve
  import opened Lawfulness

  /** One atomic operation of the store. `Admin` stands for sign-in, MFA, role and activation changes. */
  datatype Op =
    | Act(token: string, request: Request)
    | Import(token: string, colony: Id, bundleId: Id, bundle: Bundle)
    | SweepExpired(order: seq<Id>)
    | Admin(users: map<Id, User>, sessions: map<string, Session>, note: Option<(Id, Id, Payload)>)

  /** Administration never adds or drops a user, moves one, or changes a key. */
  predicate SameIdentity(u: User, u': User) {
    u'.colony == u.colony && u'.pub == u.pub && u'.priv == u.priv
  }

  predicate AdminAllowed(s: State, op: Op)
    requires op.Admin?
  {
    && op.users.Keys == s.users.Keys
    && (forall u :: u in s.users ==> SameIdentity(s.users[u], op.users[u]))
    && (op.note.Some? ==> op.note.value.0 in s.colonies
                          && (op.note.value.2.UserRolesChanged? || op.note.value.2.UserActivation?))
  }

  ghost function Exec(p: Platform, o: Oracle, s: State, op: Op): Result<State> {
    match op
    case Act(token, request) => (var fx :- Plan(p, o, s, token, request); Ok(Post(p, o.now, s, fx)))
    case Import(token, colony, id, b) => (var r :- ImportBundle(p, o, s, token, colony, id, b); Ok(r.0))
    case SweepExpired(order) => Ok(Sweep(p, o.now, s, order))
    case Admin(users, sessions, note) =>
      if !AdminAllowed(s, op) then Err(Forbidden)
      else
        var s1 := s.(users := users, sessions := sessions);
        Ok(if note.Some? then Post(p, o.now, s1, Logged(note.value.0, note.value.1, note.value.2)) else s1)
  }

  /** An operation that fails changes nothing. */
  ghost function After(p: Platform, o: Oracle, s: State, op: Op): State {
    var r := Exec(p, o, s, op);
    if r.Ok? then r.value else s
  }

  /** A drawn id is not in use. */
  predicate Fresh(s: State, o: Oracle) {
    o.newId != "" && o.newId !in s.trades && o.newId !in s.actions && o.newId !in s.users && o.newId !in s.colonies
  }

  ghost predicate Next(p: Platform, s: State, s': State) {
    exists op: Op, o: Oracle :: Fresh(s, o) && s' == After(p, o, s, op)
  }

  /** Before the first colony: only platform administrators, without a colony. */
  predicate Start(s: State) {
    && s.colonies == map[] && s.trades == map[] && s.bundles == map[] && s.actions == map[]
    && "" !in s.users && forall u :: u in s.users ==> s.users[u].colony == ""
  }

  ghost predicate Run(p: Platform, run: seq<State>) {
    |run| > 0 && Start(run[0]) && forall i :: 0 < i < |run| ==> Next(p, run[i - 1], run[i])
  }

  // ---- what only grows ---------------------------------------------------------

  predicate ColonyEvolves(c: Colony, c': Colony) {
    c.ledger <= c'.ledger && c.accounts.Keys <= c'.accounts.Keys && c.processed <= c'.processed
    && c'.pub == c.pub && c'.priv == c.priv
  }

  /** A decided action is never touched again; a pending one only gets its decision. */
  predicate ActionEvolves(a: Action, a': Action) {
    if a.status == Pending then a' == a.(status := a'.status, decidedBy := a'.decidedBy, decidedAt := a'.decidedAt)
    else a' == a
  }

  /** The deal is fixed, the status follows the table, and a closed offer is never reopened. */
  ghost predicate TradeEvolves(t: Trade, t': Trade) {
    SameDeal(t, t') && Leads(t.status, t'.status) && (t.status in {Expired, Cancelled} ==> t'.status == t.status)
  }

  ghost predicate Evolves(s: State, s': State) {
    && (forall c :: c in s.colonies ==> c in s'.colonies && ColonyEvolves(s.colonies[c], s'.colonies[c]))
    && (forall u :: u in s.users ==> u in s'.users && SameIdentity(s.users[u], s'.users[u]))
    && (forall t :: t in s.trades ==> t in s'.trades && TradeEvolves(s.trades[t], s'.trades[t]))
    && (forall a :: a in s.actions ==> a in s'.actions && ActionEvolves(s.actions[a], s'.actions[a]))
  }

  lemma EvolvesTransitive(a: State, b: State, c: State)
    requires Evolves(a, b) && Evolves(b, c)
    ensures Evolves(a, c)
  {
    forall t | t in a.trades ensures t in c.trades && TradeEvolves(a.trades[t], c.trades[t]) {
      assert TradeEvolves(a.trades[t], b.trades[t]) && TradeEvolves(b.trades[t], c.trades[t]);
      LeadsTransitive(a.trades[t].status, b.trades[t].status, c.trades[t].status);
    }
    forall x | x in a.colonies ensures x in c.colonies && ColonyEvolves(a.colonies[x], c.colonies[x]) {
      assert ColonyEvolves(a.colonies[x], b.colonies[x]) && ColonyEvolves(b.colonies[x], c.colonies[x]);
    }
    forall x | x in a.actions ensures x in c.actions && ActionEvolves(a.actions[x], c.actions[x]) {
      assert ActionEvolves(a.actions[x], b.actions[x]) && ActionEvolves(b.actions[x], c.actions[x]);
    }
    forall u | u in a.users ensures u in c.users && SameIdentity(a.users[u], c.users[u]) {
      assert SameIdentity(a.users[u], b.users[u]) && SameIdentity(b.users[u], c.users[u]);
    }
  }

  lemma PostEvolves(p: Platform, now: int, s: State, fx: Effect)
    requires Lawful(p, s, fx)
    ensures Evolves(s, Post(p, now, s, fx))
  {
    hide Lawful, PostColonies, ActionEvolves, TradeEvolves, ColonyEvolves;
    TradesEvolve(p, s, fx);
    LawfulActs(p, s, fx);
    RowsStay(s);
    PostColoniesEvolve(p, now, s.colonies, fx);
  }

  lemma TradesEvolve(p: Platform, s: State, fx: Effect)
    requires Lawful(p, s, fx)
    ensures forall t :: t in s.trades ==> t in Put(s.trades, fx.trade) && TradeEvolves(s.trades[t], Put(s.trades, fx.trade)[t])
  {
    hide Changes, ActsProperly;
    LawfulTrade(s, fx);
  }

  lemma RowsStay(s: State)
    ensures forall a :: a in s.actions ==> ActionEvolves(s.actions[a], s.actions[a])
    ensures forall u :: u in s.users ==> SameIdentity(s.users[u], s.users[u])
  {
  }

  lemma LawfulActs(p: Platform, s: State, fx: Effect)
    requires Lawful(p, s, fx)
    ensures fx.founded.None? && fx.user.None?
    ensures fx.action.Some? && fx.action.value.0 in s.actions ==>
              ActionEvolves(s.actions[fx.action.value.0], fx.action.value.1)
  {
  }

  lemma PostColoniesEvolve(p: Platform, now: int, m: map<Id, Colony>, fx: Effect)
    ensures forall c :: c in m ==> c in PostColonies(p, now, m, fx) && ColonyEvolves(m[c], PostColonies(p, now, m, fx)[c])
  {
  }

  // ---- changes no part of the invariant looks at -------------------------------

  /** Only roles, flags, sessions, processed envelopes, outboxes and bundles may differ. */
  ghost predicate Skin(s: State, s': State) {
    && s'.colonies.Keys == s.colonies.Keys
    && (forall c :: c in s.colonies ==>
          Untouched(s.colonies[c], s'.colonies[c]) && s'.colonies[c].netObligations == s.colonies[c].netObligations
          && ColonyEvolves(s.colonies[c], s'.colonies[c]))
    && s'.users.Keys == s.users.Keys
    && (forall u :: u in s.users ==> SameIdentity(s.users[u], s'.users[u]))
    && s'.trades == s.trades && s'.actions == s.actions
  }

  lemma SkinTally(s: State, s': State, f: Entry -> int)
    requires Skin(s, s')
    ensures Tally(s', f) == Tally(s, f)
  {
    SumAgreeMaps(s.colonies, s'.colonies, OfLedger(f));
  }

  lemma SkinKeepsRows(s: State, s': State)
    requires Skin(s, s') && Rows(s)
    ensures Rows(s')
  {
    forall t | t in s'.trades ensures TradeRow(s', s'.trades[t]) {
      assert TradeRow(s, s.trades[t]);
    }
    forall c | c in s'.colonies ensures s'.colonies[c].accounts == s.colonies[c].accounts
      && s'.colonies[c].netClaims == s.colonies[c].netClaims {
      assert Untouched(s.colonies[c], s'.colonies[c]);
    }
  }

  lemma SkinKeepsMoney(s: State, s': State)
    requires Skin(s, s') && Accounting(s) && Conserved(s) && Mirrored(s)
    ensures Accounting(s') && Conserved(s') && Mirrored(s')
  {
    forall c, u | c in s'.colonies && u in s'.colonies[c].accounts ensures AccountExact(s', c, u) {
      assert Untouched(s.colonies[c], s'.colonies[c]) && AccountExact(s, c, u);
    }
    SumAgreeMaps(s.colonies, s'.colonies, ColonyBalance);
    SumAgreeMaps(s.colonies, s'.colonies, ColonyMinted);
    forall a, b | a in s'.colonies && b in s'.colonies ensures MirrorOf(s', a, b) {
      assert MirrorOf(s, a, b);
    }
  }

  lemma SkinKeepsBooks(p: Platform, s: State, s': State)
    requires Skin(s, s') && AllChained(p, s) && SupplyBounds(s)
    ensures AllChained(p, s') && SupplyBounds(s')
  {
    forall c | c in s'.colonies ensures Chained(p, c, s'.colonies[c]) && SupplyBound(s'.colonies[c]) {
      assert Untouched(s.colonies[c], s'.colonies[c]);
      assert Chained(p, c, s.colonies[c]) && SupplyBound(s.colonies[c]);
    }
  }

  lemma SkinKeepsReplays(s: State, s': State)
    requires Skin(s, s') && Replays(s)
    ensures Replays(s')
  {
    forall c | c in s'.colonies ensures ReplaysIn(s', c) {
      assert ReplaysIn(s, c) && Untouched(s.colonies[c], s'.colonies[c]);
      forall i | 0 <= i < |s'.colonies[c].ledger| ensures Recorded(s', c, s'.colonies[c].ledger, i) {
        assert Recorded(s, c, s.colonies[c].ledger, i);
      }
    }
  }

  lemma SkinKeepsCounts(p: Platform, s: State, s': State)
    requires Skin(s, s') && Outcomes(s) && DualControl(p, s)
    ensures Outcomes(s') && DualControl(p, s')
  {
    forall t ensures OutcomeOf(s', t) {
      assert OutcomeOf(s, t);
      SkinTally(s, s', IsDebit(t));
      SkinTally(s, s', IsCredit(t));
      SkinTally(s, s', IsRefund(t));
      SkinTally(s, s', IsDecision(t));
    }
    forall d: Deed | d.kind != PolicyAction ensures Sum(s'.actions, ApprovedAs(d)) == Tally(s', ExecutedAs(d)) {
      SkinTally(s, s', ExecutedAs(d));
    }
    forall a | a in s'.actions ensures ActionRow(p, s', s'.actions[a]) {
      assert ActionRow(p, s, s.actions[a]) && Untouched(s.colonies[s.actions[a].colony], s'.colonies[s.actions[a].colony]);
    }
  }

  lemma SkinKeepsInv(p: Platform, s: State, s': State)
    requires Skin(s, s') && Inv(p, s)
    ensures Inv(p, s')
  {
    hide Skin, Rows, Accounting, Conserved, Mirrored, AllChained, Replays, Outcomes, SupplyBounds, DualControl;
    SkinKeepsRows(s, s');
    SkinKeepsMoney(s, s');
    SkinKeepsBooks(p, s, s');
    SkinKeepsReplays(s, s');
    SkinKeepsCounts(p, s, s');
  }

  lemma SkinEvolves(s: State, s': State)
    requires Skin(s, s')
    ensures Evolves(s, s')
  {
  }

  // ---- every operation ---------------------------------------------------------

  /** A step keeps the invariant and only extends the past. */
  ghost predicate Good(p: Platform, s: State, s': State) {
    Inv(p, s') && Evolves(s, s')
  }

  lemma LawfulGood(p: Platform, now: int, s: State, fx: Effect)
    requires Inv(p, s) && Lawful(p, s, fx)
    ensures Good(p, s, Post(p, now, s, fx))
  {
    hide Inv, Evolves, Lawful, Post;
    LawfulKeepsInv(p, now, s, fx);
    PostEvolves(p, now, s, fx);
  }

  lemma MessageGood(p: Platform, o: Oracle, i: nat, source: Id, target: Id, acc: Progress, m: Option<Envelope>)
    requires source in acc.state.colonies && target in acc.state.colonies && Inv(p, acc.state)
    requires ImportMessage(p, o, i, source, target, acc, m).Ok?
    ensures Good(p, acc.state, ImportMessage(p, o, i, source, target, acc, m).value.state)
  {
    hide Inv, Evolves, Lawful, Skin, PlanEnvelope, Sound;
    var s, s' := acc.state, ImportMessage(p, o, i, source, target, acc, m).value.state;
    SameIsSkin(s);
    SkinEvolves(s, s);
    if m.Some? && m.value.id !in s.colonies[target].processed {
      var step := PlanEnvelope(p, o, i, s, source, target, m.value).value;
      var mid := s;
      if step.Some? {
        InvIsSound(p, s);
        EnvelopeLawful(p, o, i, s, source, target, m.value);
        LawfulGood(p, o.now, s, step.value);
        mid := Post(p, o.now, s, step.value);
      }
      MarkIsSkin(mid, target, m.value.id);
      SkinKeepsInv(p, mid, s');
      SkinEvolves(mid, s');
      EvolvesTransitive(s, mid, s');
    }
  }

  lemma InvIsSound(p: Platform, s: State)
    requires Inv(p, s)
    ensures Sound(p, s)
  {
  }

  lemma InvHasRows(p: Platform, s: State)
    requires Inv(p, s)
    ensures Rows(s)
  {
    hide Rows, Accounting, Conserved, Mirrored, AllChained, Replays, Outcomes, SupplyBounds, DualControl;
  }

  lemma SameIsSkin(s: State)
    ensures Skin(s, s)
  {
  }

  lemma MarkedColony(c: Colony, id: Id)
    ensures Untouched(c, c.(processed := c.processed + {id})) && ColonyEvolves(c, c.(processed := c.processed + {id}))
    ensures Untouched(c, c) && ColonyEvolves(c, c)
  {
  }

  lemma MarkIsSkin(s: State, target: Id, id: Id)
    ensures Skin(s, MarkProcessed(s, target, id))
  {
    hide Untouched, ColonyEvolves;
    forall c | c in s.colonies
      ensures Untouched(s.colonies[c], s.colonies[c]) && ColonyEvolves(s.colonies[c], s.colonies[c])
    {
      MarkedColony(s.colonies[c], id);
    }
    if target in s.colonies {
      MarkedColony(s.colonies[target], id);
    }
  }

  lemma {:induction false} ImportGood(p: Platform, o: Oracle, s: State, source: Id, target: Id, messages: seq<Option<Envelope>>, n: nat)
    requires source in s.colonies && target in s.colonies && n <= |messages| && Inv(p, s)
    requires ImportUpTo(p, o, s, source, target, messages, n).Ok?
    ensures Good(p, s, ImportUpTo(p, o, s, source, target, messages, n).value.state)
  {
    hide Inv, Evolves, ImportMessage;
    if n == 0 {
      SameIsSkin(s);
      SkinEvolves(s, s);
    } else {
      ImportGood(p, o, s, source, target, messages, n - 1);
      var acc := ImportUpTo(p, o, s, source, target, messages, n - 1).value;
      MessageGood(p, o, n - 1, source, target, acc, messages[n - 1]);
      EvolvesTransitive(s, acc.state, ImportUpTo(p, o, s, source, target, messages, n).value.state);
    }
  }

  lemma MessageKeepsRows(p: Platform, o: Oracle, i: nat, source: Id, target: Id, acc: Progress, m: Option<Envelope>)
    requires source in acc.state.colonies && target in acc.state.colonies
    ensures var r := ImportMessage(p, o, i, source, target, acc, m);
            r.Ok? ==> r.value.state.actions == acc.state.actions && r.value.state.bundles == acc.state.bundles
  {
    hide PlanEnvelope, Post, MarkProcessed;
    if m.Some? {
      var step := PlanEnvelope(p, o, i, acc.state, source, target, m.value);
      MarkKeepsRows(acc.state, target, m.value.id);
      if step.Ok? && step.value.Some? {
        PostKeepsRows(p, o.now, acc.state, step.value.value);
        MarkKeepsRows(Post(p, o.now, acc.state, step.value.value), target, m.value.id);
      }
    }
  }

  lemma MarkKeepsRows(s: State, colony: Id, id: Id)
    ensures MarkProcessed(s, colony, id).actions == s.actions && MarkProcessed(s, colony, id).bundles == s.bundles
  {
  }

  lemma PostKeepsRows(p: Platform, now: int, s: State, fx: Effect)
    requires fx.action.None? && fx.bundle.None?
    ensures Post(p, now, s, fx).actions == s.actions && Post(p, now, s, fx).bundles == s.bundles
  {
    hide PostColonies;
  }

  /** An import loop stores no bundle and touches no action. */
  lemma {:induction false} LoopKeepsRows(p: Platform, o: Oracle, s: State, source: Id, target: Id, messages: seq<Option<Envelope>>, n: nat)
    requires source in s.colonies && target in s.colonies && n <= |messages|
    ensures var r := ImportUpTo(p, o, s, source, target, messages, n);
            r.Ok? ==> r.value.state.actions == s.actions && r.value.state.bundles == s.bundles
  {
    hide ImportMessage;
    if n > 0 {
      LoopKeepsRows(p, o, s, source, target, messages, n - 1);
      var acc := ImportUpTo(p, o, s, source, target, messages, n - 1);
      if acc.Ok? {
        MessageKeepsRows(p, o, n - 1, source, target, acc.value, messages[n - 1]);
      }
    }
  }

  lemma {:induction false} SweepKeepsActions(p: Platform, now: int, s: State, order: seq<Id>)
    ensures Sweep(p, now, s, order).actions == s.actions
  {
    hide PostColonies, Due;
    if order != [] {
      SweepKeepsActions(p, now, s, order[..|order| - 1]);
    }
  }

  lemma ClosingLawful(p: Platform, s: State, colony: Id, actorId: Id, id: Id, b: Bundle, imported: nat, skipped: nat)
    requires colony in s.colonies
    ensures Lawful(p, s, ImportClosing(colony, actorId, id, b, imported, skipped))
  {
  }

  lemma BundleGood(p: Platform, o: Oracle, s: State, token: string, colony: Id, id: Id, b: Bundle)
    requires Inv(p, s) && ImportBundle(p, o, s, token, colony, id, b).Ok?
    ensures Good(p, s, ImportBundle(p, o, s, token, colony, id, b).value.0)
  {
    hide Evolves, Inv, ImportUpTo, Post, Lawful;
    var actorId := CheckImport(p, o, s, token, colony, b).value;
    ImportGood(p, o, s, b.from, colony, b.messages, |b.messages|);
    var acc := ImportUpTo(p, o, s, b.from, colony, b.messages, |b.messages|).value;
    var fx := ImportClosing(colony, actorId, id, b, acc.imported, acc.skipped);
    ClosingLawful(p, acc.state, colony, actorId, id, b, acc.imported, acc.skipped);
    LawfulGood(p, o.now, acc.state, fx);
    EvolvesTransitive(s, acc.state, Post(p, o.now, acc.state, fx));
  }

  lemma {:induction false} SweepGood(p: Platform, now: int, s: State, order: seq<Id>)
    requires Inv(p, s)
    ensures Good(p, s, Sweep(p, now, s, order))
  {
    hide Evolves, Lawful;
    if order == [] {
      SameIsSkin(s);
      SkinEvolves(s, s);
    } else {
      var mid, last := Sweep(p, now, s, order[..|order| - 1]), order[|order| - 1];
      SweepGood(p, now, s, order[..|order| - 1]);
      var fx := PlanExpire(p, now, mid, last);
      if fx.Some? {
        assert TradeRow(mid, mid.trades[last]);
        ExpireLawful(p, now, mid, last);
        LawfulGood(p, now, mid, fx.value);
        EvolvesTransitive(s, mid, Post(p, now, mid, fx.value));
      }
    }
  }

  lemma QuietEntryLawful(p: Platform, s: State, fx: Effect)
    requires fx == Logged(fx.colony, fx.actor, fx.payload) && fx.colony in s.colonies
    requires fx.payload.ColonyCreated? || fx.payload.UserCreated? || fx.payload.UserRolesChanged? || fx.payload.UserActivation?
    ensures Lawful(p, s, fx)
  {
  }

  lemma FoundEvolves(s: State, s': State, id: Id)
    requires id !in s.colonies && id in s'.colonies && s' == s.(colonies := s.colonies[id := s'.colonies[id]])
    ensures Evolves(s, s')
  {
  }

  lemma EnrolEvolves(s: State, s': State, colony: Id, id: Id, user: User)
    requires colony in s.colonies && id !in s.users && s' == Enrolled(s, colony, id, user)
    ensures Evolves(s, s')
  {
  }

  lemma FoundingGood(p: Platform, o: Oracle, s: State, token: string)
    requires Inv(p, s) && Fresh(s, o) && PlanCreateColony(p, o, s, token).Ok?
    ensures Good(p, s, Post(p, o.now, s, PlanCreateColony(p, o, s, token).value))
  {
    hide Evolves, Inv, Lawful;
    var fx := PlanCreateColony(p, o, s, token).value;
    var s1 := s.(colonies := s.colonies[o.newId := NewColony(o.newId, o.pub, o.priv)]);
    FoundKeepsInv(p, s, o.newId, o.pub, o.priv);
    FoundingSplits(p, o.now, s, fx);
    QuietEntryLawful(p, s1, fx.(founded := None));
    LawfulGood(p, o.now, s1, fx.(founded := None));
    FoundEvolves(s, s1, o.newId);
    EvolvesTransitive(s, s1, Post(p, o.now, s, fx));
  }

  lemma EnrolmentGood(p: Platform, o: Oracle, s: State, token: string, colony: Id, roles: seq<string>)
    requires Inv(p, s) && Fresh(s, o) && PlanCreateUser(p, o, s, token, colony, roles).Ok?
    ensures Good(p, s, Post(p, o.now, s, PlanCreateUser(p, o, s, token, colony, roles).value))
  {
    hide Evolves, Rows, Accounting, Conserved, Mirrored, AllChained, Replays, Outcomes, SupplyBounds, DualControl, Lawful;
    var fx := PlanCreateUser(p, o, s, token, colony, roles).value;
    var user := fx.user.value.1;
    var s1 := Enrolled(s, colony, o.newId, user);
    EnrolKeepsInv(p, s, colony, o.newId, user);
    EnrolmentSplits(p, o.now, s, fx, o.newId, user);
    var log := fx.(user := None, account := None);
    QuietEntryLawful(p, s1, log);
    LawfulGood(p, o.now, s1, log);
    EnrolEvolves(s, s1, colony, o.newId, user);
    EvolvesTransitive(s, s1, Post(p, o.now, s, fx));
  }

  lemma TradeHomes(s: State, t: Id)
    requires Rows(s) && t in s.trades
    ensures TradeRow(s, s.trades[t])
    ensures s.trades[t].sellerColony in s.colonies && s.trades[t].buyerColony in s.colonies
    ensures s.trades[t].seller in s.colonies[s.trades[t].sellerColony].accounts
    ensures s.trades[t].buyer in s.colonies[s.trades[t].buyerColony].accounts
  {
    assert TradeRow(s, s.trades[t]);
  }

  lemma RequestLawful(p: Platform, o: Oracle, s: State, token: string, request: Request)
    requires Sound(p, s) && Fresh(s, o) && Plan(p, o, s, token, request).Ok?
    requires !request.CreateColony? && !request.CreateUser?
    ensures Lawful(p, s, Plan(p, o, s, token, request).value)
  {
    hide Lawful, DualControl, Rows;
    match request {
      case CreateOffer(seller, buyer, asset, price, ttl) => CreateOfferLawful(p, o, s, token, seller, buyer, asset, price, ttl);
      case AcceptTrade(t) => TradeHomes(s, t); AcceptLawful(p, o, s, token, t);
      case CancelTrade(t) => TradeHomes(s, t); CancelLawful(p, o, s, token, t);
      case ExportBundle(_, _) => QuietLawful(p, o, s, token, request);
      case Mint(colony, user, amount, propose) =>
        BalanceNonNegative(s, colony, user);
        MintLawful(p, o, s, token, colony, user, amount, propose);
      case SetPolicy(colony, cap, dual) => SetPolicyLawful(p, o, s, token, colony, cap, dual);
      case ProposeForceRefund(t) => TradeHomes(s, t); ProposeLawful(p, o, s, token, t);
      case DecideApproval(a, approve) => DecideLawful(p, o, s, token, a, approve);
      case TrustPeer(_, _) => QuietLawful(p, o, s, token, request);
    }
  }

  lemma RequestGood(p: Platform, o: Oracle, s: State, token: string, request: Request)
    requires Inv(p, s) && Fresh(s, o) && Plan(p, o, s, token, request).Ok?
    ensures Good(p, s, Post(p, o.now, s, Plan(p, o, s, token, request).value))
  {
    hide Inv, Lawful, Evolves, Post, Sound;
    if request.CreateColony? {
      FoundingGood(p, o, s, token);
    } else if request.CreateUser? {
      EnrolmentGood(p, o, s, token, request.colony, request.roles);
    } else {
      InvIsSound(p, s);
      RequestLawful(p, o, s, token, request);
      LawfulGood(p, o.now, s, Plan(p, o, s, token, request).value);
    }
  }

  lemma AdminGood(p: Platform, o: Oracle, s: State, op: Op)
    requires Inv(p, s) && op.Admin? && AdminAllowed(s, op)
    ensures Good(p, s, Exec(p, o, s, op).value)
  {
    hide Inv, Evolves, Lawful, Post;
    var s1 := s.(users := op.users, sessions := op.sessions);
    SkinKeepsInv(p, s, s1);
    SkinEvolves(s, s1);
    if op.note.Some? {
      var fx := Logged(op.note.value.0, op.note.value.1, op.note.value.2);
      QuietEntryLawful(p, s1, fx);
      LawfulGood(p, o.now, s1, fx);
      EvolvesTransitive(s, s1, Post(p, o.now, s1, fx));
    }
  }

  /** Every operation, on any input whatever, keeps the invariant. */
  lemma StepGood(p: Platform, o: Oracle, s: State, op: Op)
    requires Inv(p, s) && Fresh(s, o)
    ensures Good(p, s, After(p, o, s, op))
  {
    hide Inv, Evolves;
    if Exec(p, o, s, op).Err? {
      SameIsSkin(s);
      SkinEvolves(s, s);
    } else {
      match op {
        case Act(token, request) => RequestGood(p, o, s, token, request);
        case Import(token, colony, id, b) => BundleGood(p, o, s, token, colony, id, b);
        case SweepExpired(order) => SweepGood(p, o.now, s, order);
        case Admin(_, _, _) => AdminGood(p, o, s, op);
      }
    }
  }

  lemma StartGood(p: Platform, s: State)
    requires Start(s)
    ensures Inv(p, s)
  {
  }

  /** Main theorem: the invariant holds in every state of every run. */
  lemma {:induction false} EveryStateIsGood(p: Platform, run: seq<State>, i: nat)
    requires Run(p, run) && i < |run|
    ensures Inv(p, run[i])
  {
    hide Inv, Evolves, After;
    if i == 0 {
      StartGood(p, run[0]);
    } else {
      EveryStateIsGood(p, run, i - 1);
      assert Next(p, run[i - 1], run[i]);
      var op, o :| Fresh(run[i - 1], o) && run[i] == After(p, o, run[i - 1], op);
      StepGood(p, o, run[i - 1], op);
    }
  }

  /** The past of a run is never rewritten. */
  lemma {:induction false} PastIsKept(p: Platform, run: seq<State>, i: nat, j: nat)
    requires Run(p, run) && i <= j < |run|
    ensures Evolves(run[i], run[j])
    decreases j
  {
    hide Inv, Evolves, After;
    if i == j {
      SkinEvolves(run[i], run[i]);
    } else {
      PastIsKept(p, run, i, j - 1);
      EveryStateIsGood(p, run, j - 1);
      assert Next(p, run[j - 1], run[j]);
      var op, o :| Fresh(run[j - 1], o) && run[j] == After(p, o, run[j - 1], op);
      StepGood(p, o, run[j - 1], op);
      EvolvesTransitive(run[i], run[j - 1], run[j]);
    }
  }
}
