/** Every effect a handler asks for, on any request and any envelope, is lawful. */
module Lawfulness {
  import opened Basics
  import opened TradeTable
  import opened Model
  import opened Handlers
  import opened Invariant
  import opened Preserve

  /** The part of the invariant the handlers rely on. */
  ghost predicate Sound(p: Platform, s: State) {
    Rows(s) && Accounting(s) && DualControl(p, s)
  }

  lemma BalanceNonNegative(s: State, c: Id, u: Id)
    requires Accounting(s) && c in s.colonies && u in s.colonies[c].accounts
    ensures s.colonies[c].accounts[u] >= 0
  {
    assert AccountExact(s, c, u);
  }

  lemma CreateOfferLawful(p: Platform, o: Oracle, s: State, token: string, seller: Id, buyer: Id, asset: string, price: int64, ttl: int64)
    requires o.newId !in s.trades
    requires PlanCreateOffer(p, o, s, token, seller, buyer, asset, price, ttl).Ok?
    ensures Lawful(p, s, PlanCreateOffer(p, o, s, token, seller, buyer, asset, price, ttl).value)
  {
    hide TrimSpace, Wrap;
  }

  lemma AcceptLawful(p: Platform, o: Oracle, s: State, token: string, t: Id)
    requires t in s.trades && TradeRow(s, s.trades[t]) && PlanAccept(p, o, s, token, t).Ok?
    ensures Lawful(p, s, PlanAccept(p, o, s, token, t).value)
  {
  }

  lemma CancelLawful(p: Platform, o: Oracle, s: State, token: string, t: Id)
    requires t in s.trades && TradeRow(s, s.trades[t]) && s.trades[t].sellerColony in s.colonies
    requires PlanCancel(p, o, s, token, t).Ok?
    ensures Lawful(p, s, PlanCancel(p, o, s, token, t).value)
  {
    hide Actor;
  }

  lemma ExpireLawful(p: Platform, now: int, s: State, t: Id)
    requires PlanExpire(p, now, s, t).Some? && s.trades[t].sellerColony in s.colonies
    ensures Lawful(p, s, PlanExpire(p, now, s, t).value)
  {
    TableRows();
  }

  // ---- imports: any envelope, whoever made it ---------------------------------

  lemma ImportOfferLawful(p: Platform, s: State, source: Id, target: Id, env: Envelope)
    requires target in s.colonies && source in s.colonies && "" !in s.colonies
    requires PlanImportOffer(p, s, source, target, env).Ok? && PlanImportOffer(p, s, source, target, env).value.Some?
    ensures Lawful(p, s, PlanImportOffer(p, s, source, target, env).value.value)
  {
    hide TrimSpace;
    var b := env.body;
    var fx := PlanImportOffer(p, s, source, target, env).value.value;
    assert fx.payload == OfferImported(b.trade, source, env.id) && fx.action.None?;
    if b.trade in s.trades {
      assert Moves(s, fx, b.trade, {OfferPendingExport}, OfferReceived);
    } else {
      assert Lives(s, b.seller, b.sellerColony) && Lives(s, b.buyer, b.buyerColony);
      assert NewTrade(s, fx, b.trade, OfferReceived);
    }
  }

  lemma DecideRefundLawful(p: Platform, o: Oracle, i: nat, s: State, source: Id, target: Id, t: Id, trigger: Envelope, reason: string)
    requires target in s.colonies && t in s.trades && s.trades[t].status == AcceptancePendingExport
    requires DecideRefund(p, o, i, s, source, target, t, trigger, reason).Ok?
    ensures Lawful(p, s, DecideRefund(p, o, i, s, source, target, t, trigger, reason).value)
  {
  }

  lemma CreditLawful(p: Platform, o: Oracle, i: nat, s: State, source: Id, target: Id, env: Envelope)
    requires source in s.colonies && target in s.colonies && env.body.Body? && env.body.trade in s.trades
    requires s.trades[env.body.trade].seller in s.colonies[target].accounts
    requires s.colonies[target].accounts[s.trades[env.body.trade].seller] >= 0 && s.trades[env.body.trade].price > 0
    requires s.trades[env.body.trade].sellerColony == target && s.trades[env.body.trade].buyerColony == source
    requires s.trades[env.body.trade].status == AcceptancePendingExport
    requires Credit(p, o, i, s, source, target, env).Ok?
    ensures Lawful(p, s, Credit(p, o, i, s, source, target, env).value)
  {
  }

  /** The branch for closed offers is never taken: they carry no acceptance envelope. */
  lemma ImportAcceptanceLawful(p: Platform, o: Oracle, i: nat, s: State, source: Id, target: Id, env: Envelope)
    requires source in s.colonies && target in s.colonies && Accounting(s)
    requires env.body.Body? && env.body.trade in s.trades && TradeRow(s, s.trades[env.body.trade])
    requires PlanImportAcceptance(p, o, i, s, source, target, env).Ok?
    requires PlanImportAcceptance(p, o, i, s, source, target, env).value.Some?
    ensures Lawful(p, s, PlanImportAcceptance(p, o, i, s, source, target, env).value.value)
  {
    hide Lawful;
    var t := s.trades[env.body.trade];
    if t.status == AcceptancePendingExport {
      BalanceNonNegative(s, target, t.seller);
      if AcceptedAfterExpiry(p, t, env.body.acceptedAt).value {
        DecideRefundLawful(p, o, i, s, source, target, env.body.trade, env, LATE_REASON);
      } else {
        CreditLawful(p, o, i, s, source, target, env);
      }
    }
  }

  lemma ImportSettlementLawful(p: Platform, o: Oracle, s: State, source: Id, target: Id, env: Envelope)
    requires target in s.colonies
    requires PlanImportSettlement(p, o, s, source, target, env).Ok? && PlanImportSettlement(p, o, s, source, target, env).value.Some?
    ensures Lawful(p, s, PlanImportSettlement(p, o, s, source, target, env).value.value)
  {
  }

  lemma ImportCancelLawful(p: Platform, o: Oracle, i: nat, s: State, source: Id, target: Id, env: Envelope)
    requires target in s.colonies
    requires PlanImportCancel(p, o, i, s, source, target, env).Ok? && PlanImportCancel(p, o, i, s, source, target, env).value.Some?
    ensures Lawful(p, s, PlanImportCancel(p, o, i, s, source, target, env).value.value)
  {
    DecideRefundLawful(p, o, i, s, source, target, env.body.trade, env, CANCEL_REASON);
  }

  /** A refund from either escrow status credits the buyer's own account. */
  lemma RefundLawful(p: Platform, o: Oracle, s: State, t: Id, actor: Id, envelope: Id)
    requires t in s.trades && s.trades[t].status == RefundPendingExport && s.trades[t].price > 0
    requires s.trades[t].buyerColony in s.colonies && s.trades[t].buyer in s.colonies[s.trades[t].buyerColony].accounts
    requires s.colonies[s.trades[t].buyerColony].accounts[s.trades[t].buyer] >= 0
    requires ApplyRefund(p, o, s, t, actor, None, envelope).Ok?
    ensures Lawful(p, s, ApplyRefund(p, o, s, t, actor, None, envelope).value)
  {
  }

  lemma ImportRefundLawful(p: Platform, o: Oracle, s: State, source: Id, target: Id, env: Envelope)
    requires Sound(p, s)
    requires PlanImportRefund(p, o, s, source, target, env).Ok? && PlanImportRefund(p, o, s, source, target, env).value.Some?
    ensures Lawful(p, s, PlanImportRefund(p, o, s, source, target, env).value.value)
  {
    hide DualControl, Lawful, Homes, ClaimRows;
    var t := s.trades[env.body.trade];
    assert TradeRow(s, t);
    BalanceNonNegative(s, t.buyerColony, t.buyer);
    RefundLawful(p, o, s, env.body.trade, t.buyer, env.id);
  }

  lemma EnvelopeLawful(p: Platform, o: Oracle, i: nat, s: State, source: Id, target: Id, env: Envelope)
    requires Sound(p, s) && source in s.colonies && target in s.colonies
    requires PlanEnvelope(p, o, i, s, source, target, env).Ok? && PlanEnvelope(p, o, i, s, source, target, env).value.Some?
    ensures Lawful(p, s, PlanEnvelope(p, o, i, s, source, target, env).value.value)
  {
    if env.kind == "offer" {
      ImportOfferLawful(p, s, source, target, env);
    } else if env.kind == "acceptance" {
      assert TradeRow(s, s.trades[env.body.trade]);
      ImportAcceptanceLawful(p, o, i, s, source, target, env);
    } else if env.kind == "settlement" {
      ImportSettlementLawful(p, o, s, source, target, env);
    } else if env.kind == "cancel_request" {
      ImportCancelLawful(p, o, i, s, source, target, env);
    } else {
      ImportRefundLawful(p, o, s, source, target, env);
    }
  }

  // ---- supply and dual control -------------------------------------------------

  lemma MintLawful(p: Platform, o: Oracle, s: State, token: string, colony: Id, user: Id, amount: int64, allowPropose: bool)
    requires o.newId !in s.actions && PlanMint(p, o, s, token, colony, user, amount, allowPropose).Ok?
    requires s.colonies[colony].accounts[user] >= 0
    ensures Lawful(p, s, PlanMint(p, o, s, token, colony, user, amount, allowPropose).value)
  {
  }

  lemma SetPolicyLawful(p: Platform, o: Oracle, s: State, token: string, colony: Id, cap: Option<int64>, dual: Option<bool>)
    requires o.newId !in s.actions
    requires PlanSetPolicy(p, o, s, token, colony, cap, dual).Ok?
    ensures Lawful(p, s, PlanSetPolicy(p, o, s, token, colony, cap, dual).value)
  {
    hide Actor;
  }

  lemma ProposeLawful(p: Platform, o: Oracle, s: State, token: string, t: Id)
    requires o.newId !in s.actions && t in s.trades && s.trades[t].buyerColony in s.colonies
    requires PlanProposeForceRefund(p, o, s, token, t).Ok?
    ensures Lawful(p, s, PlanProposeForceRefund(p, o, s, token, t).value)
  {
  }

  /** The decided action of `PlanDecide`, with the properties its row needs. */
  lemma DecisionProper(p: Platform, o: Oracle, s: State, token: string, id: Id, approve: bool)
    requires Sound(p, s) && PlanDecide(p, o, s, token, id, approve).Ok?
    ensures var fx := PlanDecide(p, o, s, token, id, approve).value;
            id in s.actions && fx.action.Some? && fx.action.value.0 == id && ActionRow(p, s, fx.action.value.1)
  {
    hide Accounting;
    var a := PlanDecide(p, o, s, token, id, approve).value.action.value.1;
    assert ActionRow(p, s, s.actions[id]);
    assert a.decidedAt == Stamp(p, o.now) && !Past(p, o.now, a.expiresAt);
    assert DecidedProperly(p, a);
  }

  lemma ApprovedRefundLawful(p: Platform, o: Oracle, s: State, pa: Action, actor: Id, id: Id, a: Action)
    requires pa.kind == ForceRefundAction && pa.colony in s.colonies && ActionRow(p, s, a)
    requires id in s.actions && s.actions[id] == pa && pa.status == Pending
    requires a == pa.(status := Approved, decidedBy := actor, decidedAt := a.decidedAt)
    requires ApproveEffect(p, o, s, pa, actor).Ok?
    requires pa.trade in s.trades && s.trades[pa.trade].price > 0
    requires s.trades[pa.trade].buyerColony == pa.colony && s.trades[pa.trade].price == pa.amount
    requires s.trades[pa.trade].buyer in s.colonies[pa.colony].accounts
    requires s.colonies[pa.colony].accounts[s.trades[pa.trade].buyer] >= 0
    ensures Lawful(p, s, ApproveEffect(p, o, s, pa, actor).value.(action := Some((id, a))))
  {
    var fx := ApproveEffect(p, o, s, pa, actor).value.(action := Some((id, a)));
    assert fx.payload.TradeForceRefunded? && fx.payload.trade == pa.trade;
    assert Moves(s, fx, pa.trade, {AcceptancePendingExport, RefundPendingExport}, Refunded);
    assert Pays(s, fx, s.trades[pa.trade].buyer, pa.amount, fx.payload.newBalance);
  }

  lemma ApprovedSupplyLawful(p: Platform, o: Oracle, s: State, pa: Action, actor: Id, id: Id, a: Action)
    requires pa.kind != ForceRefundAction && pa.colony in s.colonies && ActionRow(p, s, a)
    requires id in s.actions && s.actions[id] == pa && pa.status == Pending
    requires a == pa.(status := Approved, decidedBy := actor, decidedAt := a.decidedAt)
    requires actor != "" && actor != pa.proposedBy
    requires ApproveEffect(p, o, s, pa, actor).Ok?
    requires pa.kind == MintAction ==> ValidAmount(pa.amount) && pa.user in s.colonies[pa.colony].accounts
                                       && s.colonies[pa.colony].accounts[pa.user] >= 0
    ensures Lawful(p, s, ApproveEffect(p, o, s, pa, actor).value.(action := Some((id, a))))
  {
    var fx := ApproveEffect(p, o, s, pa, actor).value.(action := Some((id, a)));
    if pa.kind == MintAction {
      assert fx.payload.FundsMinted?;
      assert Pays(s, fx, pa.user, pa.amount, fx.payload.newBalance);
    } else {
      assert fx.payload.PolicyChanged?;
    }
  }

  lemma RejectionLawful(p: Platform, s: State, pa: Action, actor: Id, id: Id, a: Action)
    requires pa.colony in s.colonies && ActionRow(p, s, a)
    requires id in s.actions && s.actions[id] == pa && pa.status == Pending
    requires a == pa.(status := Rejected, decidedBy := actor, decidedAt := a.decidedAt)
    ensures Lawful(p, s, Logged(pa.colony, actor, ApprovalRejected(id, pa.kind)).(action := Some((id, a))))
  {
  }

  lemma DecideLawful(p: Platform, o: Oracle, s: State, token: string, id: Id, approve: bool)
    requires Sound(p, s) && PlanDecide(p, o, s, token, id, approve).Ok?
    ensures Lawful(p, s, PlanDecide(p, o, s, token, id, approve).value)
  {
    hide Lawful, Homes, ClaimRows;
    DecisionProper(p, o, s, token, id, approve);
    var fx := PlanDecide(p, o, s, token, id, approve).value;
    var pa, a := s.actions[id], fx.action.value.1;
    var actor := a.decidedBy;
    assert ActionRow(p, s, pa);
    if !approve {
      RejectionLawful(p, s, pa, actor, id, a);
    } else if pa.kind == ForceRefundAction {
      assert TradeRow(s, s.trades[pa.trade]);
      BalanceNonNegative(s, pa.colony, s.trades[pa.trade].buyer);
      ApprovedRefundLawful(p, o, s, pa, actor, id, a);
    } else {
      if pa.kind == MintAction {
        BalanceNonNegative(s, pa.colony, pa.user);
      }
      ApprovedSupplyLawful(p, o, s, pa, actor, id, a);
    }
  }

  /** Handlers that only log, relay or change trust. */
  lemma QuietLawful(p: Platform, o: Oracle, s: State, token: string, request: Request)
    requires request.ExportBundle? || request.TrustPeer?
    requires Plan(p, o, s, token, request).Ok?
    ensures Lawful(p, s, Plan(p, o, s, token, request).value)
  {
    hide Actor, TrimSpace, Picked, Wrapped, Stamp;
  }

  // ---- new colonies and users ---------------------------------------------------

  /** Founding a colony: the same log entry on a state that already has the empty colony. */
  lemma FoundingSplits(p: Platform, now: int, s: State, fx: Effect)
    requires fx.founded.Some? && fx.founded.value.0 !in s.colonies
    ensures Post(p, now, s, fx) == Post(p, now, s.(colonies := s.colonies[fx.founded.value.0 := fx.founded.value.1]), fx.(founded := None))
  {
  }

  lemma {:induction false} FoundKeepsRows(s: State, id: Id, c: Colony, s': State)
    requires Rows(s) && id !in s.colonies && id != "" && s' == s.(colonies := s.colonies[id := c])
    requires c.accounts == map[] && c.netClaims == map[] && c.netObligations == map[]
    ensures Rows(s')
  {
    forall t | t in s'.trades ensures TradeRow(s', s'.trades[t]) {
      assert TradeRow(s, s.trades[t]);
    }
  }

  lemma FoundKeepsMirror(s: State, id: Id, c: Colony, s': State)
    requires Rows(s) && Mirrored(s) && id !in s.colonies && s' == s.(colonies := s.colonies[id := c])
    requires c.netClaims == map[] && c.netObligations == map[]
    ensures Mirrored(s')
  {
    forall a, b | a in s'.colonies && b in s'.colonies ensures MirrorOf(s', a, b) {
      if a == id || b == id {
        forall t | t in s.trades ensures Owed(a, b)(s.trades[t]) == 0 {
          assert TradeRow(s, s.trades[t]);
        }
        SumZero(s.trades, Owed(a, b));
      } else {
        assert MirrorOf(s, a, b);
      }
    }
  }

  /** An empty colony adds nothing to any sum over colonies. */
  lemma FoundTally(s: State, id: Id, c: Colony, s': State, f: Entry -> int)
    requires id !in s.colonies && c.ledger == [] && s' == s.(colonies := s.colonies[id := c])
    ensures Tally(s', f) == Tally(s, f)
  {
    SumUpdate(s.colonies, id, c, OfLedger(f));
  }

  lemma FoundKeepsOutcomes(s: State, id: Id, c: Colony, s': State)
    requires Outcomes(s) && id !in s.colonies && c.ledger == [] && s' == s.(colonies := s.colonies[id := c])
    ensures Outcomes(s')
  {
    forall t ensures OutcomeOf(s', t) {
      assert OutcomeOf(s, t);
      FoundTally(s, id, c, s', IsDebit(t));
      FoundTally(s, id, c, s', IsCredit(t));
      FoundTally(s, id, c, s', IsRefund(t));
      FoundTally(s, id, c, s', IsDecision(t));
    }
  }

  lemma FoundKeepsDualControl(p: Platform, s: State, id: Id, c: Colony, s': State)
    requires DualControl(p, s) && id !in s.colonies && c.ledger == [] && s' == s.(colonies := s.colonies[id := c])
    ensures DualControl(p, s')
  {
    forall d: Deed | d.kind != PolicyAction ensures Sum(s'.actions, ApprovedAs(d)) == Tally(s', ExecutedAs(d)) {
      FoundTally(s, id, c, s', ExecutedAs(d));
    }
    forall a | a in s'.actions ensures ActionRow(p, s', s'.actions[a]) {
      assert ActionRow(p, s, s.actions[a]);
    }
  }

  lemma FoundKeepsReplays(s: State, id: Id, c: Colony, s': State)
    requires Replays(s) && id !in s.colonies && c.ledger == [] && c.accounts == map[]
    requires s' == s.(colonies := s.colonies[id := c])
    ensures Replays(s')
  {
    forall x | x in s'.colonies ensures ReplaysIn(s', x) {
      if x != id {
        assert ReplaysIn(s, x);
        forall i | 0 <= i < |s.colonies[x].ledger| ensures Recorded(s', x, s'.colonies[x].ledger, i) {
          assert Recorded(s, x, s.colonies[x].ledger, i);
        }
      }
    }
  }

  lemma FoundKeepsBooks(p: Platform, s: State, id: Id, c: Colony, s': State)
    requires Accounting(s) && Conserved(s) && AllChained(p, s) && SupplyBounds(s)
    requires id !in s.colonies && c == NewColony(id, c.pub, c.priv) && s' == s.(colonies := s.colonies[id := c])
    ensures Accounting(s') && Conserved(s') && AllChained(p, s') && SupplyBounds(s')
  {
    forall x, u | x in s'.colonies && u in s'.colonies[x].accounts ensures AccountExact(s', x, u) {
      assert AccountExact(s, x, u);
    }
    SumUpdate(s.colonies, id, c, ColonyBalance);
    SumUpdate(s.colonies, id, c, ColonyMinted);
    forall x | x in s'.colonies ensures SupplyBound(s'.colonies[x]) && Chained(p, x, s'.colonies[x]) {
      if x != id {
        assert SupplyBound(s.colonies[x]) && Chained(p, x, s.colonies[x]);
      }
    }
  }

  /** A founded colony is empty, so nothing it could be counted in changes. */
  lemma FoundKeepsInv(p: Platform, s: State, id: Id, pub: string, priv: string)
    requires Inv(p, s) && id !in s.colonies && id != ""
    ensures Inv(p, s.(colonies := s.colonies[id := NewColony(id, pub, priv)]))
  {
    var c := NewColony(id, pub, priv);
    var s' := s.(colonies := s.colonies[id := c]);
    FoundKeepsRows(s, id, c, s');
    FoundKeepsMirror(s, id, c, s');
    FoundKeepsBooks(p, s, id, c, s');
    FoundKeepsReplays(s, id, c, s');
    FoundKeepsOutcomes(s, id, c, s');
    FoundKeepsDualControl(p, s, id, c, s');
  }

  /** Enrolling a user: the log entry on a state that already has the user and an empty account. */
  function Enrolled(s: State, colony: Id, id: Id, user: User): State
    requires colony in s.colonies
  {
    var c := s.colonies[colony];
    s.(users := s.users[id := user], colonies := s.colonies[colony := c.(accounts := c.accounts[id := 0])])
  }

  lemma EnrolmentSplits(p: Platform, now: int, s: State, fx: Effect, id: Id, user: User)
    requires fx.colony in s.colonies && fx.founded.None? && fx.claim.None?
    requires fx.user == Some((id, user)) && fx.account == Some((id, 0 as int64))
    ensures Post(p, now, s, fx) == Post(p, now, Enrolled(s, fx.colony, id, user), fx.(user := None, account := None))
  {
    var s1 := Enrolled(s, fx.colony, id, user);
    assert s1.colonies[fx.colony := s.colonies[fx.colony]] == s.colonies;
    assert Touch(s.colonies[fx.colony], fx) == Touch(s1.colonies[fx.colony], fx.(user := None, account := None));
  }

  lemma EnrolKeepsRows(s: State, colony: Id, id: Id, user: User, s': State)
    requires Rows(s) && colony in s.colonies && id !in s.users && id != "" && user.colony == colony
    requires s' == Enrolled(s, colony, id, user)
    ensures Rows(s')
  {
    forall t | t in s'.trades ensures TradeRow(s', s'.trades[t]) {
      assert TradeRow(s, s.trades[t]);
    }
    forall c, u | c in s'.colonies && u in s'.colonies[c].accounts ensures Lives(s', u, c) {
      if !(c == colony && u == id) {
        assert Lives(s, u, c);
      }
    }
  }

  /** Nobody has minted or paid to a user that does not exist yet. */
  lemma StrangerHasNoEntry(s: State, c: Id, id: Id)
    requires c in s.colonies && ReplaysIn(s, c) && id !in s.users
    ensures Fold(s.colonies[c].ledger, MintedTo(id)) == 0
    ensures Fold(s.colonies[c].ledger, Posting(s.trades, id)) == 0
  {
    var l := s.colonies[c].ledger;
    forall i | 0 <= i < |l| ensures MintedTo(id)(l[i]) == 0 && Posting(s.trades, id)(l[i]) == 0 {
      assert Recorded(s, c, l, i);
      assert MoneyUser(s.trades, l[i].payload) != Some(id);
    }
    FoldZero(l, MintedTo(id));
    FoldZero(l, Posting(s.trades, id));
  }

  lemma StrangerHasNoTrade(s: State, c: Id, id: Id)
    requires forall t :: t in s.trades ==> TradeRow(s, s.trades[t])
    requires id !in s.users
    ensures Sum(s.trades, Movement(c, id)) == 0
  {
    forall t | t in s.trades ensures Movement(c, id)(s.trades[t]) == 0 {
      assert TradeRow(s, s.trades[t]);
    }
    SumZero(s.trades, Movement(c, id));
  }

  lemma EnrolKeepsAccounting(s: State, colony: Id, id: Id, user: User, s': State)
    requires Rows(s) && Replays(s) && Accounting(s) && colony in s.colonies && id !in s.users
    requires s' == Enrolled(s, colony, id, user)
    ensures Accounting(s')
  {
    assert ReplaysIn(s, colony);
    StrangerHasNoEntry(s, colony, id);
    StrangerHasNoTrade(s, colony, id);
    forall x, u | x in s'.colonies && u in s'.colonies[x].accounts ensures AccountExact(s', x, u) {
      if !(x == colony && u == id) {
        assert AccountExact(s, x, u);
      }
    }
  }

  lemma EnrolKeepsConserved(s: State, colony: Id, id: Id, user: User, s': State)
    requires Conserved(s) && colony in s.colonies && id !in s.colonies[colony].accounts
    requires s' == Enrolled(s, colony, id, user)
    ensures Conserved(s')
  {
    SumUpdate(s.colonies[colony].accounts, id, 0, Balance);
    SumUpdate(s.colonies, colony, s'.colonies[colony], ColonyBalance);
    SumUpdate(s.colonies, colony, s'.colonies[colony], ColonyMinted);
  }

  lemma EnrolKeepsBooks(p: Platform, s: State, colony: Id, id: Id, user: User, s': State)
    requires AllChained(p, s) && SupplyBounds(s) && Mirrored(s)
    requires colony in s.colonies && s' == Enrolled(s, colony, id, user)
    ensures AllChained(p, s') && SupplyBounds(s') && Mirrored(s')
  {
    forall x | x in s'.colonies ensures SupplyBound(s'.colonies[x]) && Chained(p, x, s'.colonies[x]) {
      assert SupplyBound(s.colonies[x]) && Chained(p, x, s.colonies[x]);
    }
    forall a, b | a in s'.colonies && b in s'.colonies ensures MirrorOf(s', a, b) {
      assert MirrorOf(s, a, b);
    }
  }

  lemma EnrolTally(s: State, colony: Id, id: Id, user: User, s': State, f: Entry -> int)
    requires colony in s.colonies && s' == Enrolled(s, colony, id, user)
    ensures Tally(s', f) == Tally(s, f)
  {
    SumUpdate(s.colonies, colony, s'.colonies[colony], OfLedger(f));
  }

  lemma EnrolKeepsReplays(s: State, colony: Id, id: Id, user: User, s': State)
    requires Replays(s) && colony in s.colonies && id !in s.users && s' == Enrolled(s, colony, id, user)
    requires id !in s.colonies[colony].accounts
    ensures Replays(s')
  {
    assert ReplaysIn(s, colony);
    StrangerHasNoEntry(s, colony, id);
    SumUpdate(s.colonies[colony].accounts, id, 0, Balance);
    forall x | x in s'.colonies ensures ReplaysIn(s', x) {
      assert ReplaysIn(s, x);
      forall i | 0 <= i < |s'.colonies[x].ledger| ensures Recorded(s', x, s'.colonies[x].ledger, i) {
        assert Recorded(s, x, s.colonies[x].ledger, i);
      }
    }
  }

  lemma EnrolKeepsOutcomes(s: State, colony: Id, id: Id, user: User, s': State)
    requires Outcomes(s) && colony in s.colonies && s' == Enrolled(s, colony, id, user)
    ensures Outcomes(s')
  {
    forall t ensures OutcomeOf(s', t) {
      assert OutcomeOf(s, t);
      EnrolTally(s, colony, id, user, s', IsDebit(t));
      EnrolTally(s, colony, id, user, s', IsCredit(t));
      EnrolTally(s, colony, id, user, s', IsRefund(t));
      EnrolTally(s, colony, id, user, s', IsDecision(t));
    }
  }

  lemma EnrolKeepsDualControl(p: Platform, s: State, colony: Id, id: Id, user: User, s': State)
    requires DualControl(p, s) && colony in s.colonies && s' == Enrolled(s, colony, id, user)
    ensures DualControl(p, s')
  {
    forall d: Deed | d.kind != PolicyAction ensures Sum(s'.actions, ApprovedAs(d)) == Tally(s', ExecutedAs(d)) {
      EnrolTally(s, colony, id, user, s', ExecutedAs(d));
    }
    forall a | a in s'.actions ensures ActionRow(p, s', s'.actions[a]) {
      assert ActionRow(p, s, s.actions[a]);
    }
  }

  lemma EnrolKeepsInv(p: Platform, s: State, colony: Id, id: Id, user: User)
    requires Inv(p, s) && colony in s.colonies && id !in s.users && id != "" && user.colony == colony
    ensures Inv(p, Enrolled(s, colony, id, user))
  {
    var s' := Enrolled(s, colony, id, user);
    assert id !in s.colonies[colony].accounts;
    EnrolKeepsRows(s, colony, id, user, s');
    EnrolKeepsAccounting(s, colony, id, user, s');
    EnrolKeepsConserved(s, colony, id, user, s');
    EnrolKeepsBooks(p, s, colony, id, user, s');
    EnrolKeepsReplays(s, colony, id, user, s');
    EnrolKeepsOutcomes(s, colony, id, user, s');
    EnrolKeepsDualControl(p, s, colony, id, user, s');
  }
}
