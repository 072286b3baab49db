/** Every lawful effect keeps the invariant: one lemma per part, for all effects at once. */
module Preserve {
  import opened Basics
  import opened TradeTable
  import opened Model
  import opened Invariant

  // ---- what a handler may ask for --------------------------------------------

  predicate SameDeal(t: Trade, t': Trade) {
    t'.price == t.price && t'.seller == t.seller && t'.buyer == t.buyer
    && t'.sellerColony == t.sellerColony && t'.buyerColony == t.buyerColony
    && t'.asset == t.asset && t'.expiresAt == t.expiresAt
  }

  /** The effect moves an existing trade from one of `from` to `to`. */
  predicate Moves(s: State, fx: Effect, t: Id, from: set<Status>, to: Status) {
    && fx.trade.Some? && fx.trade.value.0 == t && t in s.trades
    && SameDeal(s.trades[t], fx.trade.value.1)
    && s.trades[t].status in from && fx.trade.value.1.status == to
    && TransitionAllowed(s.trades[t].status, to)
    && (Unaccepted(to) ==> fx.trade.value.1.acceptanceEnvelope == s.trades[t].acceptanceEnvelope)
  }

  predicate NewTrade(s: State, fx: Effect, t: Id, status: Status) {
    && fx.trade.Some? && fx.trade.value.0 == t && t !in s.trades
    && TradeRow(s, fx.trade.value.1) && fx.trade.value.1.status == status
  }

  predicate Amends(s: State, fx: Effect, t: Id) {
    && fx.trade.Some? && fx.trade.value.0 == t && t in s.trades
    && SameDeal(s.trades[t], fx.trade.value.1)
    && fx.trade.value.1.status == s.trades[t].status
    && fx.trade.value.1.acceptanceEnvelope == s.trades[t].acceptanceEnvelope
  }

  /** The account of `u` in the effect's colony changes by `amount`, to the balance `after`. */
  predicate Pays(s: State, fx: Effect, u: Id, amount: int, after: int64) {
    && fx.colony in s.colonies && u in s.colonies[fx.colony].accounts
    && fx.account == Some((u, after))
    && after == s.colonies[fx.colony].accounts[u] + amount
    && after >= 0
  }

  predicate Books(s: State, fx: Effect, peer: Id, price: int64) {
    && fx.colony in s.colonies && peer in s.colonies
    && fx.claim.Some? && fx.claim.value.peer == peer
    && fx.claim.value.claims == Get(s.colonies[fx.colony].netClaims, peer) + price
    && fx.claim.value.obligations == Get(s.colonies[peer].netObligations, fx.colony) + price
  }

  function DeedOfEntry(colony: Id, actor: Id, b: Payload): Option<Deed> {
    match b
    case FundsMinted(user, amount, _, _, approvedBy) =>
      if approvedBy != "" then Some(Deed(MintAction, colony, user, amount, actor, approvedBy)) else None
    case TradeForceRefunded(trade, refund, _, proposedBy, approvedBy) =>
      Some(Deed(ForceRefundAction, colony, trade, refund, proposedBy, approvedBy))
    case _ => None
  }

  function DeedOfAction(a: Action): Option<Deed> {
    if a.status == Approved && a.kind != PolicyAction then
      Some(Deed(a.kind, a.colony, if a.kind == MintAction then a.user else a.trade, a.amount, a.proposedBy, a.decidedBy))
    else None
  }

  /** A new proposal, or the one decision of a pending one. */
  ghost predicate ActsProperly(p: Platform, s: State, fx: Effect) {
    && DeedOfEntry(fx.colony, fx.actor, fx.payload)
       == (if fx.action.Some? then DeedOfAction(fx.action.value.1) else None)
    && (fx.action.Some? ==>
          var (id, a) := fx.action.value;
          && ActionRow(p, s, a)
          && if id in s.actions
             then s.actions[id].status == Pending && a.status != Pending
                  && a == s.actions[id].(status := a.status, decidedBy := a.decidedBy, decidedAt := a.decidedAt)
             else a.status == Pending)
  }

  predicate MoneyLess(fx: Effect) {
    fx.account.None? && fx.minted.None? && fx.claim.None?
  }

  predicate PolicyLess(fx: Effect) {
    fx.cap.None? && fx.dual.None?
  }

  ghost predicate Lawful(p: Platform, s: State, fx: Effect) {
    && fx.colony in s.colonies
    && fx.user.None? && fx.founded.None?
    && ActsProperly(p, s, fx)
    && Changes(s, fx)
  }

  /** The changes that go with each kind of ledger entry. */
  predicate Changes(s: State, fx: Effect)
    requires fx.colony in s.colonies
  {
    match fx.payload
    case OfferCreated(t, _, _, _, _) => MoneyLess(fx) && PolicyLess(fx) && NewTrade(s, fx, t, OfferPendingExport)
    case OfferImported(t, _, _) =>
      MoneyLess(fx) && PolicyLess(fx)
      && (NewTrade(s, fx, t, OfferReceived) || Moves(s, fx, t, {OfferPendingExport}, OfferReceived))
    case TradeAccepted(t, debit, balance, _) =>
      && PolicyLess(fx) && fx.minted.None? && fx.claim.None?
      && Moves(s, fx, t, {OfferReceived}, AcceptancePendingExport)
      && debit == s.trades[t].price && fx.colony == s.trades[t].buyerColony
      && Pays(s, fx, s.trades[t].buyer, -(debit as int), balance)
    case AcceptanceImported(t, _, credited, balance, _) =>
      && PolicyLess(fx) && fx.minted.None?
      && Moves(s, fx, t, {AcceptancePendingExport}, SettlementPendingExport)
      && credited == s.trades[t].price && fx.colony == s.trades[t].sellerColony
      && Pays(s, fx, s.trades[t].seller, credited, balance)
      && Books(s, fx, s.trades[t].buyerColony, credited)
    case TradeCompleted(t, _, _) =>
      MoneyLess(fx) && PolicyLess(fx) && Moves(s, fx, t, {SettlementPendingExport}, Completed)
    case RefundDecided(t, _, _, _) =>
      MoneyLess(fx) && PolicyLess(fx) && Moves(s, fx, t, {AcceptancePendingExport}, RefundPendingExport)
    case TradeRefunded(t, refund, balance, _) =>
      && PolicyLess(fx) && fx.minted.None? && fx.claim.None?
      && Moves(s, fx, t, {RefundPendingExport}, Refunded)
      && refund == s.trades[t].price && fx.colony == s.trades[t].buyerColony
      && Pays(s, fx, s.trades[t].buyer, refund, balance)
    case TradeForceRefunded(t, refund, balance, _, _) =>
      && PolicyLess(fx) && fx.minted.None? && fx.claim.None?
      && Moves(s, fx, t, {AcceptancePendingExport, RefundPendingExport}, Refunded)
      && refund == s.trades[t].price && fx.colony == s.trades[t].buyerColony
      && Pays(s, fx, s.trades[t].buyer, refund, balance)
    case OfferCancelled(t) =>
      MoneyLess(fx) && PolicyLess(fx) && Moves(s, fx, t, {OfferPendingExport, OfferReceived}, Cancelled)
    case OfferExpired(t, _) =>
      MoneyLess(fx) && PolicyLess(fx) && Moves(s, fx, t, {OfferPendingExport, OfferReceived}, Expired)
    case CancelRequested(t, _) => MoneyLess(fx) && PolicyLess(fx) && Amends(s, fx, t)
    case FundsMinted(u, amount, balance, total, approvedBy) =>
      && PolicyLess(fx) && fx.claim.None? && fx.trade.None?
      && ValidAmount(amount)
      && Pays(s, fx, u, amount, balance)
      && fx.minted == Some(total) && total == s.colonies[fx.colony].mintedTotal + amount
      && total <= EffectiveMintCap(s.colonies[fx.colony])
      && (s.colonies[fx.colony].dual ==> approvedBy != "")
      && (approvedBy != "" ==> approvedBy != fx.actor)
    case PolicyChanged(cap, dual, _) =>
      && MoneyLess(fx) && fx.trade.None?
      && (fx.cap.Some? ==> 0 < fx.cap.value <= DEFAULT_MINT_CAP && s.colonies[fx.colony].mintedTotal <= fx.cap.value)
      && cap == EffectiveMintCap(Touch(s.colonies[fx.colony], fx))
      && dual == Touch(s.colonies[fx.colony], fx).dual
    case _ => MoneyLess(fx) && PolicyLess(fx) && fx.trade.None?
  }

  // ---- the shape of the next state -------------------------------------------

  /** All a step changes, seen field by field; `e` is the new ledger entry. */
  ghost predicate Shape(s: State, fx: Effect, s': State, e: Entry) {
    && fx.colony in s.colonies
    && s'.colonies.Keys == s.colonies.Keys
    && s'.users == s.users
    && s'.trades == Put(s.trades, fx.trade)
    && s'.actions == Put(s.actions, fx.action)
    && (forall x :: x in s.colonies && x != fx.colony ==> Untouched(s.colonies[x], s'.colonies[x]))
    && Touched(s.colonies[fx.colony], fx, s'.colonies[fx.colony], e)
    && e.payload == fx.payload && e.colony == fx.colony && e.actor == fx.actor
    && (forall x, y :: x in s.colonies ==>
          Get(s'.colonies[x].netObligations, y) ==
          if fx.claim.Some? && x == fx.claim.value.peer && y == fx.colony then fx.claim.value.obligations
          else Get(s.colonies[x].netObligations, y))
    && (forall x, y :: x in s.colonies && y in s'.colonies[x].netObligations ==>
          y in s.colonies[x].netObligations || y == fx.colony)
  }

  predicate Untouched(c: Colony, c': Colony) {
    && c'.accounts == c.accounts && c'.ledger == c.ledger && c'.nextSeq == c.nextSeq && c'.lastHash == c.lastHash
    && c'.netClaims == c.netClaims && c'.mintedTotal == c.mintedTotal && c'.mintCap == c.mintCap && c'.dual == c.dual
  }

  predicate Touched(c: Colony, fx: Effect, c': Colony, e: Entry) {
    && c'.accounts == Put(c.accounts, fx.account)
    && c'.ledger == c.ledger + [e]
    && c'.nextSeq == c.nextSeq + 1
    && c'.lastHash == e.hash
    && c'.netClaims == (if fx.claim.Some? then c.netClaims[fx.claim.value.peer := fx.claim.value.claims] else c.netClaims)
    && c'.mintedTotal == Or(fx.minted, c.mintedTotal)
    && c'.mintCap == Or(fx.cap, c.mintCap)
    && c'.dual == Or(fx.dual, c.dual)
  }

  function EntryOf(p: Platform, now: int, s: State, fx: Effect): Entry
    requires fx.colony in s.colonies
  {
    NextEntry(p, fx.colony, Touch(s.colonies[fx.colony], fx), Stamp(p, now), fx.actor, fx.payload)
  }

  lemma PostShape(p: Platform, now: int, s: State, fx: Effect)
    requires fx.colony in s.colonies && fx.founded.None? && fx.user.None?
    ensures Shape(s, fx, Post(p, now, s, fx), EntryOf(p, now, s, fx))
  {
    var c1 := Append(p, fx.colony, Touch(s.colonies[fx.colony], fx), Stamp(p, now), fx.actor, fx.payload);
    assert Touched(s.colonies[fx.colony], fx, c1, EntryOf(p, now, s, fx));
    OweShape(s.colonies[fx.colony := c1], fx);
    assert Post(p, now, s, fx).colonies == Owe(s.colonies[fx.colony := c1], fx);
  }

  lemma OweShape(m: map<Id, Colony>, fx: Effect)
    requires fx.colony in m
    ensures Owe(m, fx).Keys == m.Keys
    ensures forall x :: x in m ==> Owe(m, fx)[x] == m[x].(netObligations := Owe(m, fx)[x].netObligations)
    ensures forall x, y :: x in m ==>
              Get(Owe(m, fx)[x].netObligations, y) ==
              if fx.claim.Some? && x == fx.claim.value.peer && y == fx.colony then fx.claim.value.obligations
              else Get(m[x].netObligations, y)
    ensures forall x, y :: x in m && y in Owe(m, fx)[x].netObligations ==> y in m[x].netObligations || y == fx.colony
  {
  }

  // ---- sums after a step -----------------------------------------------------

  ghost function TradeChange(s: State, fx: Effect, f: Trade -> int): int {
    if fx.trade.Some? then
      f(fx.trade.value.1) - (if fx.trade.value.0 in s.trades then f(s.trades[fx.trade.value.0]) else 0)
    else 0
  }

  /** A sum over trades changes by the terms of the effect's own trade. */
  lemma TradeSum(s: State, fx: Effect, f: Trade -> int)
    ensures Sum(Put(s.trades, fx.trade), f) == Sum(s.trades, f) + TradeChange(s, fx, f)
  {
    if fx.trade.Some? {
      SumUpdate(s.trades, fx.trade.value.0, fx.trade.value.1, f);
    }
  }

  /** A sum over colonies changes by the term of the effect's own colony. */
  lemma ColonySum(colonies: map<Id, Colony>, colonies': map<Id, Colony>, c: Id, f: Colony -> int)
    requires colonies'.Keys == colonies.Keys && c in colonies
    requires forall x :: x in colonies && x != c ==> f(colonies'[x]) == f(colonies[x])
    ensures Sum(colonies', f) == Sum(colonies, f) - f(colonies[c]) + f(colonies'[c])
  {
    SumPick(colonies, c, f);
    SumPick(colonies', c, f);
    SumAgreeMaps(colonies - {c}, colonies' - {c}, f);
  }

  lemma {:induction false} SumAgreeMaps(m: map<Id, Colony>, n: map<Id, Colony>, f: Colony -> int)
    requires m.Keys == n.Keys
    requires forall x :: x in m ==> f(m[x]) == f(n[x])
    ensures Sum(m, f) == Sum(n, f)
    decreases |m|
  {
    if m != map[] {
      var k :| k in m;
      SumPick(m, k, f);
      SumPick(n, k, f);
      SumAgreeMaps(m - {k}, n - {k}, f);
    }
  }

  lemma TallyStep(s: State, fx: Effect, s': State, e: Entry, f: Entry -> int)
    requires Shape(s, fx, s', e)
    ensures Tally(s', f) == Tally(s, f) + f(e)
  {
    ColonySum(s.colonies, s'.colonies, fx.colony, OfLedger(f));
    FoldAppend(s.colonies[fx.colony].ledger, e, f);
  }

  // ---- rows ------------------------------------------------------------------

  ghost predicate FairRows(s: State, fx: Effect) {
    && fx.colony in s.colonies
    && (fx.account.Some? ==> fx.account.value.0 in s.colonies[fx.colony].accounts)
    && (fx.trade.Some? ==> TradeRow(s, fx.trade.value.1))
    && (fx.claim.Some? ==> fx.claim.value.peer in s.colonies)
  }

  lemma LawfulRows(p: Platform, s: State, fx: Effect)
    requires Rows(s) && Lawful(p, s, fx)
    ensures FairRows(s, fx)
  {
    LawfulRowChange(s, fx);
    if fx.trade.Some? && fx.trade.value.0 in s.trades {
      assert TradeRow(s, s.trades[fx.trade.value.0]);
    }
  }

  /** A trade row that changes keeps its deal, and its acceptance mark unless it is accepted. */
  lemma LawfulRowChange(s: State, fx: Effect)
    requires fx.colony in s.colonies && Changes(s, fx)
    ensures fx.account.Some? ==> fx.account.value.0 in s.colonies[fx.colony].accounts
    ensures fx.claim.Some? ==> fx.claim.value.peer in s.colonies
    ensures fx.trade.Some? ==>
              var (t, t') := fx.trade.value;
              if t in s.trades
              then SameDeal(s.trades[t], t')
                   && (Unaccepted(t'.status) ==>
                         Unaccepted(s.trades[t].status) && t'.acceptanceEnvelope == s.trades[t].acceptanceEnvelope)
              else TradeRow(s, t')
  {
  }

  lemma KeepsHomes(s: State, fx: Effect, s': State, e: Entry)
    requires Shape(s, fx, s', e) && Homes(s) && FairRows(s, fx)
    ensures Homes(s')
  {
    forall c | c in s'.colonies ensures s'.colonies[c].accounts.Keys == s.colonies[c].accounts.Keys {
      if c != fx.colony {
        assert Untouched(s.colonies[c], s'.colonies[c]);
      }
    }
    forall c, u | c in s'.colonies && u in s'.colonies[c].accounts ensures Lives(s', u, c) {
      assert u in s.colonies[c].accounts;
    }
  }

  lemma KeepsClaimRows(s: State, fx: Effect, s': State, e: Entry)
    requires Shape(s, fx, s', e) && ClaimRows(s) && FairRows(s, fx)
    ensures ClaimRows(s')
  {
    forall c, d | c in s'.colonies && d in s'.colonies[c].netClaims ensures d in s'.colonies {
      if c != fx.colony {
        assert Untouched(s.colonies[c], s'.colonies[c]);
      }
    }
    forall c, d | c in s'.colonies && d in s'.colonies[c].netObligations ensures d in s'.colonies {
      assert d in s.colonies[c].netObligations || d == fx.colony;
    }
  }

  lemma KeepsRows(s: State, fx: Effect, s': State, e: Entry)
    requires Shape(s, fx, s', e) && Rows(s) && FairRows(s, fx)
    ensures Rows(s')
  {
    hide Homes, ClaimRows, Touched, Untouched;
    KeepsHomes(s, fx, s', e);
    KeepsClaimRows(s, fx, s', e);
    forall t | t in s'.trades ensures TradeRow(s', s'.trades[t]) {
      if t in s.trades {
        assert TradeRow(s, s.trades[t]);
      }
    }
  }

  // ---- accounting and conservation -------------------------------------------

  function BalanceChange(s: State, fx: Effect, c: Id, u: Id): int
    requires c in s.colonies && u in s.colonies[c].accounts
  {
    if c == fx.colony && fx.account.Some? && fx.account.value.0 == u
    then fx.account.value.1 - s.colonies[c].accounts[u] else 0
  }

  function MintOf(b: Payload, u: Id): int {
    if b.FundsMinted? && b.user == u then b.amount else 0
  }

  /** The buyer side of the trade changes by `debits` payments and the seller side by `credits`. */
  predicate Flows(s: State, fx: Effect, debits: int, credits: int) {
    && fx.trade.Some?
    && var (t, t') := fx.trade.value;
       if t in s.trades
       then && SameDeal(s.trades[t], t')
            && Once(Debited(t'.status)) - Once(Debited(s.trades[t].status)) == debits
            && Once(Credited(t'.status)) - Once(Credited(s.trades[t].status)) == credits
       else debits == credits == 0 && !Debited(t'.status) && !Credited(t'.status)
  }

  predicate FlowsFor(s: State, fx: Effect, t: Id, debits: int, credits: int) {
    fx.trade.Some? && fx.trade.value.0 == t && t in s.trades && Flows(s, fx, debits, credits)
  }

  /** Which way the money of each payload flows. */
  predicate FairFlow(s: State, fx: Effect) {
    && fx.colony in s.colonies
    && match fx.payload
       case FundsMinted(u, amount, balance, _, _) => fx.trade.None? && Pays(s, fx, u, amount, balance)
       case TradeAccepted(t, debit, balance, _) =>
         && FlowsFor(s, fx, t, 1, 0) && fx.colony == s.trades[t].buyerColony && debit == s.trades[t].price
         && Pays(s, fx, s.trades[t].buyer, -(debit as int), balance)
       case AcceptanceImported(t, _, credited, balance, _) =>
         && FlowsFor(s, fx, t, 0, 1) && fx.colony == s.trades[t].sellerColony && credited == s.trades[t].price
         && Pays(s, fx, s.trades[t].seller, credited, balance)
       case TradeRefunded(t, refund, balance, _) =>
         && FlowsFor(s, fx, t, -1, 0) && fx.colony == s.trades[t].buyerColony && refund == s.trades[t].price
         && Pays(s, fx, s.trades[t].buyer, refund, balance)
       case TradeForceRefunded(t, refund, balance, _, _) =>
         && FlowsFor(s, fx, t, -1, 0) && fx.colony == s.trades[t].buyerColony && refund == s.trades[t].price
         && Pays(s, fx, s.trades[t].buyer, refund, balance)
       case _ => fx.account.None? && (fx.trade.None? || Flows(s, fx, 0, 0))
  }

  lemma LawfulFlow(s: State, fx: Effect)
    requires fx.colony in s.colonies && Changes(s, fx)
    ensures FairFlow(s, fx)
  {
    hide Pays, Books, PolicyLess, TransitionAllowed, TradeRow, Touch, EffectiveMintCap;
  }

  lemma FlowMoves(s: State, fx: Effect, debits: int, credits: int, c: Id, u: Id)
    requires Flows(s, fx, debits, credits)
    ensures var t := fx.trade.value.1;
            TradeChange(s, fx, Movement(c, u)) ==
              (if t.buyerColony == c && t.buyer == u then -debits * t.price else 0)
              + (if t.sellerColony == c && t.seller == u then credits * t.price else 0)
  {
  }

  lemma LawfulAccounts(s: State, fx: Effect, c: Id, u: Id)
    requires FairFlow(s, fx) && c in s.colonies && u in s.colonies[c].accounts
    ensures fx.account.Some? ==> fx.account.value.1 >= 0
    ensures BalanceChange(s, fx, c, u)
            == (if c == fx.colony then MintOf(fx.payload, u) else 0) + TradeChange(s, fx, Movement(c, u))
  {
    if fx.trade.Some? {
      var b := fx.payload;
      var debits := Once(b.TradeAccepted?) - Once(b.TradeRefunded? || b.TradeForceRefunded?);
      FlowMoves(s, fx, debits, Once(b.AcceptanceImported?), c, u);
    }
  }

  lemma KeepsAccount(s: State, fx: Effect, s': State, e: Entry, c: Id, u: Id)
    requires Shape(s, fx, s', e)
    requires c in s.colonies && u in s.colonies[c].accounts && AccountExact(s, c, u)
    requires u in s'.colonies[c].accounts
    requires fx.account.Some? ==> fx.account.value.1 >= 0
    requires BalanceChange(s, fx, c, u)
             == (if c == fx.colony then MintOf(fx.payload, u) else 0) + TradeChange(s, fx, Movement(c, u))
    ensures AccountExact(s', c, u)
  {
    hide Movement, TradeChange;
    TradeSum(s, fx, Movement(c, u));
    if c == fx.colony {
      TouchedAccount(s.colonies[c], fx, s'.colonies[c], e, u);
    } else {
      hide Touched;
      assert Untouched(s.colonies[c], s'.colonies[c]);
    }
  }

  lemma TouchedAccount(c: Colony, fx: Effect, c': Colony, e: Entry, u: Id)
    requires Touched(c, fx, c', e) && e.payload == fx.payload && u in c.accounts
    ensures u in c'.accounts
    ensures c'.accounts[u] == if fx.account.Some? && fx.account.value.0 == u then fx.account.value.1 else c.accounts[u]
    ensures Fold(c'.ledger, MintedTo(u)) == Fold(c.ledger, MintedTo(u)) + MintOf(fx.payload, u)
  {
    FoldAppend(c.ledger, e, MintedTo(u));
  }

  lemma KeepsAccounting(p: Platform, s: State, fx: Effect, s': State, e: Entry)
    requires Rows(s) && Accounting(s) && Lawful(p, s, fx) && Shape(s, fx, s', e) && FairRows(s, fx)
    ensures Accounting(s')
  {
    hide Changes, ActsProperly;
    LawfulFlow(s, fx);
    forall c, u | c in s'.colonies && u in s'.colonies[c].accounts ensures AccountExact(s', c, u) {
      assert u in s.colonies[c].accounts;
      assert AccountExact(s, c, u);
      LawfulAccounts(s, fx, c, u);
      KeepsAccount(s, fx, s', e, c, u);
    }
  }

  lemma LawfulSupply(s: State, fx: Effect)
    requires FairFlow(s, fx) && FairSupply(s.colonies[fx.colony], fx)
    ensures fx.account.Some? ==> fx.account.value.0 in s.colonies[fx.colony].accounts
    ensures (if fx.account.Some? then BalanceChange(s, fx, fx.colony, fx.account.value.0) else 0)
            + TradeChange(s, fx, Escrow)
            == Or(fx.minted, s.colonies[fx.colony].mintedTotal) - s.colonies[fx.colony].mintedTotal
  {
  }

  lemma KeepsConserved(p: Platform, s: State, fx: Effect, s': State, e: Entry)
    requires Conserved(s) && Lawful(p, s, fx) && Shape(s, fx, s', e)
    ensures Conserved(s')
  {
    hide Changes, ActsProperly;
    LawfulFlow(s, fx);
    LawfulFairSupply(s, fx);
    LawfulSupply(s, fx);
    ColonySum(s.colonies, s'.colonies, fx.colony, ColonyBalance);
    ColonySum(s.colonies, s'.colonies, fx.colony, ColonyMinted);
    TradeSum(s, fx, Escrow);
    AccountSum(s.colonies[fx.colony], fx, s'.colonies[fx.colony], e);
  }

  lemma AccountSum(c: Colony, fx: Effect, c': Colony, e: Entry)
    requires Touched(c, fx, c', e)
    requires fx.account.Some? ==> fx.account.value.0 in c.accounts
    ensures ColonyBalance(c') == ColonyBalance(c)
            + if fx.account.Some? then fx.account.value.1 - c.accounts[fx.account.value.0] else 0
  {
    if fx.account.Some? {
      SumUpdate(c.accounts, fx.account.value.0, fx.account.value.1, Balance);
    }
  }

  // ---- claims ----------------------------------------------------------------

  /** Claims move exactly when a seller is credited, between the two colonies of the trade. */
  predicate FairClaims(s: State, fx: Effect) {
    match fx.payload
    case AcceptanceImported(t, _, credited, _, _) =>
      && FlowsFor(s, fx, t, 0, 1) && fx.colony == s.trades[t].sellerColony && credited == s.trades[t].price
      && Books(s, fx, s.trades[t].buyerColony, credited)
    case _ => fx.claim.None? && (fx.trade.None? || Flows(s, fx, 0, 0) || Flows(s, fx, 1, 0) || Flows(s, fx, -1, 0))
  }

  lemma LawfulFairClaims(s: State, fx: Effect)
    requires fx.colony in s.colonies && Changes(s, fx)
    ensures FairClaims(s, fx)
  {
    hide Pays, Books, PolicyLess, TransitionAllowed, TradeRow, Touch, EffectiveMintCap;
  }

  lemma LawfulClaims(s: State, fx: Effect, a: Id, b: Id)
    requires FairClaims(s, fx)
    ensures var booked := fx.claim.Some? && a == fx.colony && b == fx.claim.value.peer;
            && (booked ==> a in s.colonies && b in s.colonies)
            && TradeChange(s, fx, Owed(a, b)) ==
               (if booked then fx.claim.value.claims - Get(s.colonies[a].netClaims, b) else 0)
            && TradeChange(s, fx, Owed(a, b)) ==
               (if booked then fx.claim.value.obligations - Get(s.colonies[b].netObligations, a) else 0)
  {
  }

  lemma KeepsMirror(s: State, fx: Effect, s': State, e: Entry, a: Id, b: Id)
    requires Shape(s, fx, s', e) && FairClaims(s, fx) && a in s.colonies && b in s.colonies && MirrorOf(s, a, b)
    ensures MirrorOf(s', a, b)
  {
    hide FairClaims, TradeChange, Owed;
    LawfulClaims(s, fx, a, b);
    TradeSum(s, fx, Owed(a, b));
    if a != fx.colony {
      assert Untouched(s.colonies[a], s'.colonies[a]);
    }
  }

  lemma KeepsMirrored(p: Platform, s: State, fx: Effect, s': State, e: Entry)
    requires Rows(s) && Mirrored(s) && Lawful(p, s, fx) && Shape(s, fx, s', e)
    ensures Mirrored(s')
  {
    hide Changes, ActsProperly, FairClaims, MirrorOf;
    LawfulFairClaims(s, fx);
    forall a, b | a in s'.colonies && b in s'.colonies ensures MirrorOf(s', a, b) {
      assert MirrorOf(s, a, b);
      KeepsMirror(s, fx, s', e, a, b);
    }
  }

  // ---- the chain -------------------------------------------------------------

  lemma KeepsChained(p: Platform, now: int, s: State, fx: Effect, s': State, e: Entry)
    requires Shape(s, fx, s', e) && AllChained(p, s) && e == EntryOf(p, now, s, fx)
    ensures AllChained(p, s')
  {
    forall c | c in s'.colonies ensures Chained(p, c, s'.colonies[c]) {
      assert Chained(p, c, s.colonies[c]);
      var l, l' := s.colonies[c].ledger, s'.colonies[c].ledger;
      if c == fx.colony {
        forall i | 0 <= i < |l'| ensures EntrySealed(p, c, l', i) {
          if i < |l| {
            assert EntrySealed(p, c, l, i);
            assert l'[..i] == l[..i];
          } else {
            assert l'[..i] == l;
          }
        }
      } else {
        assert Untouched(s.colonies[c], s'.colonies[c]);
      }
    }
  }

  // ---- outcomes --------------------------------------------------------------

  /** How the new entry and the new status of each trade go together. */
  predicate FairOutcome(s: State, fx: Effect, t: Id) {
    var b := fx.payload;
    var st := StatusOf(s, t);
    var st' := if fx.trade.Some? && fx.trade.value.0 == t then Some(fx.trade.value.1.status) else st;
    && Once(b.TradeAccepted? && b.trade == t)
       == Once(st'.Some? && !Unaccepted(st'.value)) - Once(st.Some? && !Unaccepted(st.value))
    && Once(b.AcceptanceImported? && b.trade == t)
       == Once(st'.Some? && Credited(st'.value)) - Once(st.Some? && Credited(st.value))
    && Once((b.TradeRefunded? || b.TradeForceRefunded?) && b.trade == t)
       == Once(st' == Some(Refunded)) - Once(st == Some(Refunded))
    && (st == Some(Refunded) ==> st' == Some(Refunded))
    && var decided := Once((b.AcceptanceImported? || b.RefundDecided?) && b.trade == t);
       && (st == Some(Refunded) || (st'.Some? && st'.value == Refunded) ==> decided == 0)
       && (st != Some(Refunded) && st' != Some(Refunded) ==>
             decided == Once(st'.Some? && (Credited(st'.value) || st'.value == RefundPendingExport))
                        - Once(st.Some? && (Credited(st.value) || st.value == RefundPendingExport)))
  }

  lemma LawfulOutcome(s: State, fx: Effect, t: Id)
    requires fx.colony in s.colonies && Changes(s, fx)
    ensures FairOutcome(s, fx, t)
  {
    hide Pays, Books, PolicyLess, SameDeal, TransitionAllowed, TradeRow, Touch, EffectiveMintCap;
  }

  lemma KeepsOutcome(s: State, fx: Effect, s': State, e: Entry, t: Id)
    requires Shape(s, fx, s', e) && OutcomeOf(s, t) && FairOutcome(s, fx, t)
    ensures OutcomeOf(s', t)
  {
    TallyStep(s, fx, s', e, IsDebit(t));
    TallyStep(s, fx, s', e, IsCredit(t));
    TallyStep(s, fx, s', e, IsRefund(t));
    TallyStep(s, fx, s', e, IsDecision(t));
  }

  lemma KeepsOutcomes(p: Platform, s: State, fx: Effect, s': State, e: Entry)
    requires Outcomes(s) && Lawful(p, s, fx) && Shape(s, fx, s', e)
    ensures Outcomes(s')
  {
    hide Changes, ActsProperly;
    forall t ensures OutcomeOf(s', t) {
      assert OutcomeOf(s, t);
      LawfulOutcome(s, fx, t);
      KeepsOutcome(s, fx, s', e, t);
    }
  }

  // ---- supply policy ---------------------------------------------------------

  /** What a payload may say about supply, given the colony it is logged in. */
  predicate FairSupply(c: Colony, fx: Effect) {
    match fx.payload
    case FundsMinted(_, amount, _, total, approvedBy) =>
      && PolicyLess(fx) && ValidAmount(amount)
      && fx.minted == Some(total) && total == c.mintedTotal + amount && total <= EffectiveMintCap(c)
      && (c.dual ==> approvedBy != "") && (approvedBy != "" ==> approvedBy != fx.actor)
    case PolicyChanged(cap, dual, _) =>
      && fx.minted.None?
      && (fx.cap.Some? ==> 0 < fx.cap.value <= DEFAULT_MINT_CAP && c.mintedTotal <= fx.cap.value)
      && cap == EffectiveMintCap(c.(mintCap := Or(fx.cap, c.mintCap)))
      && dual == Or(fx.dual, c.dual)
    case _ => PolicyLess(fx) && fx.minted.None?
  }

  lemma LawfulFairSupply(s: State, fx: Effect)
    requires fx.colony in s.colonies && Changes(s, fx)
    ensures FairSupply(s.colonies[fx.colony], fx)
  {
  }

  lemma KeepsSupplyBound(c: Colony, fx: Effect, c': Colony, e: Entry)
    requires Touched(c, fx, c', e) && e.payload == fx.payload && e.actor == fx.actor
    requires SupplyBound(c) && FairSupply(c, fx)
    ensures SupplyBound(c')
  {
    var l, l' := c.ledger, c'.ledger;
    FoldAppend(l, e, MintAmount);
    assert l'[..|l|] == l && l'[..|l| + 1] == l';
    forall i | 0 <= i < |l'| ensures MintAllowed(l', i) {
      if i < |l| {
        assert MintAllowed(l, i);
        assert l'[..i] == l[..i] && l'[..i + 1] == l[..i + 1];
      }
    }
  }

  lemma KeepsSupplyBounds(p: Platform, s: State, fx: Effect, s': State, e: Entry)
    requires SupplyBounds(s) && Lawful(p, s, fx) && Shape(s, fx, s', e)
    ensures SupplyBounds(s')
  {
    hide Changes, ActsProperly;
    LawfulFairSupply(s, fx);
    forall c | c in s'.colonies ensures SupplyBound(s'.colonies[c]) {
      assert SupplyBound(s.colonies[c]);
      if c == fx.colony {
        KeepsSupplyBound(s.colonies[c], fx, s'.colonies[c], e);
      } else {
        assert Untouched(s.colonies[c], s'.colonies[c]);
      }
    }
  }

  // ---- dual control ----------------------------------------------------------

  /** Trades and accounts an action refers to stay. */
  ghost predicate Grows(s: State, s': State) {
    && s'.users == s.users
    && s'.colonies.Keys == s.colonies.Keys
    && (forall c :: c in s.colonies ==> s.colonies[c].accounts.Keys <= s'.colonies[c].accounts.Keys)
    && (forall t :: t in s.trades ==> t in s'.trades && SameDeal(s.trades[t], s'.trades[t]))
  }

  lemma LawfulGrows(p: Platform, s: State, fx: Effect, s': State, e: Entry)
    requires Lawful(p, s, fx) && Shape(s, fx, s', e)
    ensures Grows(s, s')
  {
    hide Changes, ActsProperly;
    forall t | t in s.trades ensures t in s'.trades && SameDeal(s.trades[t], s'.trades[t]) {
      LawfulTrade(s, fx);
    }
    forall c | c in s.colonies ensures s.colonies[c].accounts.Keys <= s'.colonies[c].accounts.Keys {
      if c != fx.colony {
        assert Untouched(s.colonies[c], s'.colonies[c]);
      }
    }
  }

  lemma LawfulTrade(s: State, fx: Effect)
    requires fx.colony in s.colonies && Changes(s, fx)
    ensures fx.trade.Some? && fx.trade.value.0 in s.trades ==>
              && SameDeal(s.trades[fx.trade.value.0], fx.trade.value.1)
              && Leads(s.trades[fx.trade.value.0].status, fx.trade.value.1.status)
              && (s.trades[fx.trade.value.0].status in {Expired, Cancelled} ==>
                    fx.trade.value.1.status == s.trades[fx.trade.value.0].status)
  {
    if fx.trade.Some? && fx.trade.value.0 in s.trades {
      var was, became := s.trades[fx.trade.value.0].status, fx.trade.value.1.status;
      if was != became {
        assert TransitionAllowed(was, became);
        EdgeLeads(was, became);
      }
    }
  }

  lemma DeedCounts(d: Deed, fx: Effect, e: Entry)
    requires d.kind != PolicyAction
    requires e.payload == fx.payload && e.colony == fx.colony && e.actor == fx.actor
    ensures ExecutedAs(d)(e) == Once(DeedOfEntry(fx.colony, fx.actor, fx.payload) == Some(d))
    ensures fx.action.Some? ==> ApprovedAs(d)(fx.action.value.1) == Once(DeedOfAction(fx.action.value.1) == Some(d))
  {
  }

  lemma KeepsDeeds(p: Platform, s: State, fx: Effect, s': State, e: Entry, d: Deed)
    requires Shape(s, fx, s', e) && ActsProperly(p, s, fx) && d.kind != PolicyAction
    requires Sum(s.actions, ApprovedAs(d)) == Tally(s, ExecutedAs(d))
    ensures Sum(s'.actions, ApprovedAs(d)) == Tally(s', ExecutedAs(d))
  {
    TallyStep(s, fx, s', e, ExecutedAs(d));
    DeedCounts(d, fx, e);
    if fx.action.Some? {
      SumUpdate(s.actions, fx.action.value.0, fx.action.value.1, ApprovedAs(d));
    }
  }

  lemma ActionRowGrows(p: Platform, s: State, s': State, a: Action)
    requires ActionRow(p, s, a) && Grows(s, s')
    ensures ActionRow(p, s', a)
  {
  }

  lemma KeepsDualControl(p: Platform, s: State, fx: Effect, s': State, e: Entry)
    requires DualControl(p, s) && ActsProperly(p, s, fx) && Shape(s, fx, s', e) && Grows(s, s')
    ensures DualControl(p, s')
  {
    forall a | a in s'.actions ensures ActionRow(p, s', s'.actions[a]) {
      if fx.action.Some? && a == fx.action.value.0 {
        ActionRowGrows(p, s, s', fx.action.value.1);
      } else {
        ActionRowGrows(p, s, s', s.actions[a]);
      }
    }
    forall d: Deed | d.kind != PolicyAction ensures Sum(s'.actions, ApprovedAs(d)) == Tally(s', ExecutedAs(d)) {
      KeepsDeeds(p, s, fx, s', e, d);
    }
  }

  // ---- replaying a ledger ----------------------------------------------------

  /** The effect's account change is the one its payload records. */
  ghost predicate FairReplay(s: State, fx: Effect) {
    var b := fx.payload;
    && fx.colony in s.colonies
    && (MoneyTrade(b).Some? ==> MoneyTrade(b).value in s.trades)
    && match MoneyUser(s.trades, b)
       case None => fx.account.None? && MoneyAmount(b) == 0
       case Some(u) =>
         && u in s.colonies[fx.colony].accounts && Lives(s, u, fx.colony)
         && fx.account.Some? && fx.account.value.0 == u && fx.account.value.1 == RecordedBalance(b)
         && RecordedBalance(b) == s.colonies[fx.colony].accounts[u] + MoneyAmount(b)
  }

  lemma LawfulReplay(s: State, fx: Effect)
    requires Homes(s) && FairFlow(s, fx)
    ensures FairReplay(s, fx)
  {
    if fx.account.Some? {
      assert Lives(s, fx.account.value.0, fx.colony);
    }
  }

  lemma MoneyUserStable(s: State, s': State, b: Payload)
    requires forall t :: t in s.trades ==> t in s'.trades && SameDeal(s.trades[t], s'.trades[t])
    requires MoneyTrade(b).Some? ==> MoneyTrade(b).value in s.trades
    ensures MoneyUser(s'.trades, b) == MoneyUser(s.trades, b)
  {
  }

  /** Postings of recorded entries depend only on the parties of trades already known. */
  lemma PostingStable(s: State, s': State, c: Id, ledger: seq<Entry>, n: nat, u: Id)
    requires forall t :: t in s.trades ==> t in s'.trades && SameDeal(s.trades[t], s'.trades[t])
    requires n <= |ledger|
    requires forall i :: 0 <= i < |ledger| ==> Recorded(s, c, ledger, i)
    ensures Fold(ledger[..n], Posting(s'.trades, u)) == Fold(ledger[..n], Posting(s.trades, u))
  {
    forall i | 0 <= i < n ensures Posting(s'.trades, u)(ledger[..n][i]) == Posting(s.trades, u)(ledger[..n][i]) {
      assert Recorded(s, c, ledger, i);
      MoneyUserStable(s, s', ledger[i].payload);
    }
    FoldAgree(ledger[..n], Posting(s'.trades, u), Posting(s.trades, u));
  }

  /** Entries already recorded stay recorded when the ledger and the trades grow. */
  lemma RecordedStable(s: State, s': State, c: Id, ledger: seq<Entry>, ledger': seq<Entry>, i: nat)
    requires Grows(s, s') && i < |ledger| && ledger <= ledger'
    requires forall j :: 0 <= j < |ledger| ==> Recorded(s, c, ledger, j)
    ensures Recorded(s', c, ledger', i)
  {
    assert Recorded(s, c, ledger, i);
    assert ledger'[..i + 1] == ledger[..i + 1];
    MoneyUserStable(s, s', ledger[i].payload);
    var user := MoneyUser(s.trades, ledger[i].payload);
    if user.Some? {
      PostingStable(s, s', c, ledger, i + 1, user.value);
    }
  }

  lemma KeepsReplaysElsewhere(s: State, s': State, c: Id)
    requires Grows(s, s') && c in s.colonies && ReplaysIn(s, c) && Untouched(s.colonies[c], s'.colonies[c])
    ensures ReplaysIn(s', c)
  {
    var l := s.colonies[c].ledger;
    assert l[..|l|] == l;
    forall u | u in s'.colonies[c].accounts ensures s'.colonies[c].accounts[u] == Fold(l, Posting(s'.trades, u)) {
      PostingStable(s, s', c, l, |l|, u);
    }
    forall i | 0 <= i < |l| ensures Recorded(s', c, l, i) {
      RecordedStable(s, s', c, l, l, i);
    }
  }

  /** After the new entry every account of the effect's colony still replays to its balance. */
  lemma PostingStep(s: State, fx: Effect, s': State, e: Entry, u: Id)
    requires Shape(s, fx, s', e) && Grows(s, s') && FairReplay(s, fx)
    requires ReplaysIn(s, fx.colony)
    ensures var l := s.colonies[fx.colony].ledger;
            Fold(l + [e], Posting(s'.trades, u)) == Fold(l, Posting(s.trades, u)) + Posting(s.trades, u)(e)
  {
    var l := s.colonies[fx.colony].ledger;
    assert l[..|l|] == l;
    MoneyUserStable(s, s', e.payload);
    PostingStable(s, s', fx.colony, l, |l|, u);
    FoldAppend(l, e, Posting(s'.trades, u));
  }

  lemma KeepsReplayedBalance(s: State, fx: Effect, s': State, e: Entry, u: Id)
    requires Shape(s, fx, s', e) && Grows(s, s') && FairReplay(s, fx)
    requires ReplaysIn(s, fx.colony) && u in s'.colonies[fx.colony].accounts
    ensures s'.colonies[fx.colony].accounts[u] == Fold(s'.colonies[fx.colony].ledger, Posting(s'.trades, u))
  {
    PostingStep(s, fx, s', e, u);
    assert u in s.colonies[fx.colony].accounts;
  }

  lemma KeepsReplayedTotal(s: State, fx: Effect, s': State, e: Entry)
    requires Shape(s, fx, s', e) && FairReplay(s, fx) && ReplaysIn(s, fx.colony)
    ensures ColonyBalance(s'.colonies[fx.colony]) == Fold(s'.colonies[fx.colony].ledger, EntryAmount)
  {
    FoldAppend(s.colonies[fx.colony].ledger, e, EntryAmount);
    AccountSum(s.colonies[fx.colony], fx, s'.colonies[fx.colony], e);
  }

  lemma KeepsReplaysHere(s: State, fx: Effect, s': State, e: Entry)
    requires Shape(s, fx, s', e) && Grows(s, s') && FairReplay(s, fx)
    requires ReplaysIn(s, fx.colony)
    ensures ReplaysIn(s', fx.colony)
  {
    var l, l' := s.colonies[fx.colony].ledger, s'.colonies[fx.colony].ledger;
    KeepsReplayedTotal(s, fx, s', e);
    forall u | u in s'.colonies[fx.colony].accounts
      ensures s'.colonies[fx.colony].accounts[u] == Fold(l', Posting(s'.trades, u))
    {
      KeepsReplayedBalance(s, fx, s', e, u);
    }
    forall i | 0 <= i < |l'| ensures Recorded(s', fx.colony, l', i) {
      if i < |l| {
        RecordedStable(s, s', fx.colony, l, l', i);
      } else {
        assert l'[..i + 1] == l';
        MoneyUserStable(s, s', e.payload);
        var user := MoneyUser(s.trades, e.payload);
        if user.Some? {
          KeepsReplayedBalance(s, fx, s', e, user.value);
        }
      }
    }
  }

  lemma KeepsReplays(p: Platform, s: State, fx: Effect, s': State, e: Entry)
    requires Rows(s) && Replays(s) && Lawful(p, s, fx) && Shape(s, fx, s', e) && Grows(s, s')
    ensures Replays(s')
  {
    hide Changes, ActsProperly;
    LawfulFlow(s, fx);
    LawfulReplay(s, fx);
    forall c | c in s'.colonies ensures ReplaysIn(s', c) {
      assert ReplaysIn(s, c);
      if c == fx.colony {
        KeepsReplaysHere(s, fx, s', e);
      } else {
        KeepsReplaysElsewhere(s, s', c);
      }
    }
  }

  // ---- all of it -------------------------------------------------------------

  /** Main step: a lawful effect keeps the whole invariant. */
  lemma LawfulKeepsInv(p: Platform, now: int, s: State, fx: Effect)
    requires Inv(p, s) && Lawful(p, s, fx)
    ensures Inv(p, Post(p, now, s, fx))
  {
    hide Changes, Shape, Post, FairRows, Grows, Rows, Accounting, Conserved, Mirrored, AllChained, Replays, Outcomes, SupplyBounds, DualControl;
    var s', e := Post(p, now, s, fx), EntryOf(p, now, s, fx);
    PostShape(p, now, s, fx);
    LawfulRows(p, s, fx);
    LawfulGrows(p, s, fx, s', e);
    KeepsRows(s, fx, s', e);
    KeepsAccounting(p, s, fx, s', e);
    KeepsConserved(p, s, fx, s', e);
    KeepsMirrored(p, s, fx, s', e);
    KeepsChained(p, now, s, fx, s', e);
    KeepsReplays(p, s, fx, s', e);
    KeepsOutcomes(p, s, fx, s', e);
    KeepsSupplyBounds(p, s, fx, s', e);
    KeepsDualControl(p, s, fx, s', e);
  }
}
