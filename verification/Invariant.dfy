/** What holds in every reachable state. */
module Invariant {
  import opened Basics
  import opened TradeTable
  import opened Model

  // ---- rows ------------------------------------------------------------------

  /** The offer is open or was closed without anyone paying. */
  predicate Unaccepted(st: Status) {
    st in {OfferPendingExport, OfferReceived, Expired, Cancelled}
  }

  /** The buyer has paid and was not refunded. */
  predicate Debited(st: Status) {
    st in {AcceptancePendingExport, RefundPendingExport, SettlementPendingExport, Completed}
  }

  /** The seller has been paid. */
  predicate Credited(st: Status) {
    st in {SettlementPendingExport, Completed}
  }

  predicate Lives(s: State, user: Id, colony: Id) {
    user in s.users && s.users[user].colony == colony && colony != ""
  }

  /** Closed offers stay closed: an unaccepted trade never carries an acceptance envelope. */
  predicate TradeRow(s: State, t: Trade) {
    && ValidAmount(t.price)
    && Lives(s, t.seller, t.sellerColony)
    && Lives(s, t.buyer, t.buyerColony)
    && (Unaccepted(t.status) ==> t.acceptanceEnvelope == "")
  }

  /** Every user of a colony has an account there, and only they do. */
  ghost predicate Homes(s: State) {
    && (forall u :: u in s.users && s.users[u].colony != "" ==> s.users[u].colony in s.colonies)
    && (forall u :: u in s.users && s.users[u].colony != "" ==> u in s.colonies[s.users[u].colony].accounts)
    && (forall c, u :: c in s.colonies && u in s.colonies[c].accounts ==> Lives(s, u, c))
  }

  ghost predicate ClaimRows(s: State) {
    && (forall c, d :: c in s.colonies && d in s.colonies[c].netClaims ==> d in s.colonies)
    && (forall c, d :: c in s.colonies && d in s.colonies[c].netObligations ==> d in s.colonies)
  }

  ghost predicate Rows(s: State) {
    && "" !in s.colonies && "" !in s.users
    && Homes(s)
    && (forall t :: t in s.trades ==> TradeRow(s, s.trades[t]))
    && ClaimRows(s)
  }

  // ---- exact accounting ------------------------------------------------------

  /** What a trade has moved on the account of `u` in colony `c`. */
  function Movement(c: Id, u: Id): Trade -> int {
    (t: Trade) =>
      (if t.buyerColony == c && t.buyer == u && Debited(t.status) then -(t.price as int) else 0)
      + (if t.sellerColony == c && t.seller == u && Credited(t.status) then t.price as int else 0)
  }

  function MintedTo(u: Id): Entry -> int {
    (e: Entry) => if e.payload.FundsMinted? && e.payload.user == u then e.payload.amount else 0
  }

  /** balance = minted - purchases + sales, and never negative. */
  ghost predicate AccountExact(s: State, c: Id, u: Id)
    requires c in s.colonies && u in s.colonies[c].accounts
  {
    && s.colonies[c].accounts[u] >= 0
    && s.colonies[c].accounts[u] == Fold(s.colonies[c].ledger, MintedTo(u)) + Sum(s.trades, Movement(c, u))
  }

  ghost predicate Accounting(s: State) {
    forall c, u :: c in s.colonies && u in s.colonies[c].accounts ==> AccountExact(s, c, u)
  }

  // ---- conservation ----------------------------------------------------------

  function Balance(b: int64): int {
    b
  }

  ghost function ColonyBalance(c: Colony): int {
    Sum(c.accounts, Balance)
  }

  function ColonyMinted(c: Colony): int {
    c.mintedTotal
  }

  function Escrow(t: Trade): int {
    if IsEscrowed(t.status) then t.price else 0
  }

  ghost function Balances(s: State): int {
    Sum(s.colonies, ColonyBalance)
  }

  ghost function Escrowed(s: State): int {
    Sum(s.trades, Escrow)
  }

  ghost function Minted(s: State): int {
    Sum(s.colonies, ColonyMinted)
  }

  /** minted = balances + escrow. */
  ghost predicate Conserved(s: State) {
    Balances(s) + Escrowed(s) == Minted(s)
  }

  // ---- bilateral claims ------------------------------------------------------

  /** What `seller` colony earned from `buyer` colony on a trade. */
  function Owed(seller: Id, buyer: Id): Trade -> int {
    (t: Trade) => if t.sellerColony == seller && t.buyerColony == buyer && Credited(t.status) then t.price else 0
  }

  ghost predicate MirrorOf(s: State, a: Id, b: Id)
    requires a in s.colonies && b in s.colonies
  {
    Get(s.colonies[a].netClaims, b) == Get(s.colonies[b].netObligations, a) == Sum(s.trades, Owed(a, b))
  }

  ghost predicate Mirrored(s: State) {
    forall a, b :: a in s.colonies && b in s.colonies ==> MirrorOf(s, a, b)
  }

  // ---- the ledger ------------------------------------------------------------

  predicate EntrySealed(p: Platform, colony: Id, ledger: seq<Entry>, i: nat)
    requires i < |ledger|
  {
    && ledger[i].seqNo == i + 1
    && ledger[i].colony == colony
    && ledger[i].prev == HeadHash(ledger[..i])
    && ledger[i].hash == HashLedgerEntry(p, ledger[i])
  }

  ghost predicate Chained(p: Platform, id: Id, c: Colony) {
    && c.nextSeq == |c.ledger|
    && c.lastHash == HeadHash(c.ledger)
    && forall i :: 0 <= i < |c.ledger| ==> EntrySealed(p, id, c.ledger, i)
  }

  ghost predicate AllChained(p: Platform, s: State) {
    forall c :: c in s.colonies ==> Chained(p, c, s.colonies[c])
  }

  /** The trade a money entry is about. */
  function MoneyTrade(b: Payload): Option<Id> {
    match b
    case TradeAccepted(t, _, _, _) => Some(t)
    case AcceptanceImported(t, _, _, _, _) => Some(t)
    case TradeRefunded(t, _, _, _) => Some(t)
    case TradeForceRefunded(t, _, _, _, _) => Some(t)
    case _ => None
  }

  /** The account a money entry moves, the amount, and the balance it records. */
  function MoneyUser(trades: map<Id, Trade>, b: Payload): Option<Id> {
    if b.FundsMinted? then Some(b.user)
    else if MoneyTrade(b).Some? && MoneyTrade(b).value in trades then
      Some(if b.AcceptanceImported? then trades[MoneyTrade(b).value].seller else trades[MoneyTrade(b).value].buyer)
    else None
  }

  function MoneyAmount(b: Payload): int {
    match b
    case FundsMinted(_, amount, _, _, _) => amount
    case TradeAccepted(_, debit, _, _) => -(debit as int)
    case AcceptanceImported(_, _, credited, _, _) => credited
    case TradeRefunded(_, refund, _, _) => refund
    case TradeForceRefunded(_, refund, _, _, _) => refund
    case _ => 0
  }

  function RecordedBalance(b: Payload): int {
    match b
    case FundsMinted(_, _, balance, _, _) => balance
    case TradeAccepted(_, _, balance, _) => balance
    case AcceptanceImported(_, _, _, balance, _) => balance
    case TradeRefunded(_, _, balance, _) => balance
    case TradeForceRefunded(_, _, balance, _, _) => balance
    case _ => 0
  }

  function EntryAmount(e: Entry): int {
    MoneyAmount(e.payload)
  }

  /** What an entry moves on the account of `u`. */
  function Posting(trades: map<Id, Trade>, u: Id): Entry -> int {
    (e: Entry) => if MoneyUser(trades, e.payload) == Some(u) then MoneyAmount(e.payload) else 0
  }

  /** A money entry names a known account and trade, and the balance right after it. */
  ghost predicate Recorded(s: State, c: Id, ledger: seq<Entry>, i: nat)
    requires i < |ledger|
  {
    var b := ledger[i].payload;
    && (MoneyTrade(b).Some? ==> MoneyTrade(b).value in s.trades)
    && (MoneyUser(s.trades, b).Some? ==>
          && Lives(s, MoneyUser(s.trades, b).value, c)
          && RecordedBalance(b) == Fold(ledger[..i + 1], Posting(s.trades, MoneyUser(s.trades, b).value)))
  }

  /** Folding a colony's own ledger gives its balances, one by one and in total. */
  ghost predicate ReplaysIn(s: State, c: Id)
    requires c in s.colonies
  {
    && (forall u :: u in s.colonies[c].accounts ==>
          s.colonies[c].accounts[u] == Fold(s.colonies[c].ledger, Posting(s.trades, u)))
    && ColonyBalance(s.colonies[c]) == Fold(s.colonies[c].ledger, EntryAmount)
    && (forall i :: 0 <= i < |s.colonies[c].ledger| ==> Recorded(s, c, s.colonies[c].ledger, i))
  }

  ghost predicate Replays(s: State) {
    forall c :: c in s.colonies ==> ReplaysIn(s, c)
  }

  // ---- one outcome per trade -------------------------------------------------

  ghost function OfLedger(f: Entry -> int): Colony -> int {
    (c: Colony) => Fold(c.ledger, f)
  }

  /** How often `f` counts over the ledgers of all colonies. */
  ghost function Tally(s: State, f: Entry -> int): int {
    Sum(s.colonies, OfLedger(f))
  }

  function IsDebit(t: Id): Entry -> int {
    (e: Entry) => if e.payload.TradeAccepted? && e.payload.trade == t then 1 else 0
  }

  function IsCredit(t: Id): Entry -> int {
    (e: Entry) => if e.payload.AcceptanceImported? && e.payload.trade == t then 1 else 0
  }

  function IsRefund(t: Id): Entry -> int {
    (e: Entry) => if (e.payload.TradeRefunded? || e.payload.TradeForceRefunded?) && e.payload.trade == t then 1 else 0
  }

  /** Entries that record a settlement or a refund envelope leaving the seller colony. */
  function IsDecision(t: Id): Entry -> int {
    (e: Entry) => if (e.payload.AcceptanceImported? || e.payload.RefundDecided?) && e.payload.trade == t then 1 else 0
  }

  function StatusOf(s: State, t: Id): Option<Status> {
    if t in s.trades then Some(s.trades[t].status) else None
  }

  function Once(b: bool): int {
    if b then 1 else 0
  }

  /** How often each money event of a trade has happened, given its status. */
  ghost predicate OutcomeOf(s: State, t: Id) {
    var st := StatusOf(s, t);
    && Tally(s, IsDebit(t)) == Once(st.Some? && !Unaccepted(st.value))
    && Tally(s, IsCredit(t)) == Once(st.Some? && Credited(st.value))
    && Tally(s, IsRefund(t)) == Once(st == Some(Refunded))
    && 0 <= Tally(s, IsDecision(t)) <= 1
    && (st != Some(Refunded) ==>
          Tally(s, IsDecision(t)) == Once(st.Some? && (Credited(st.value) || st.value == RefundPendingExport)))
  }

  ghost predicate Outcomes(s: State) {
    forall t :: OutcomeOf(s, t)
  }

  // ---- supply policy ---------------------------------------------------------

  /** The mint cap in force after a ledger's policy changes. */
  function CapAfter(ledger: seq<Entry>): int64 {
    if ledger == [] then DEFAULT_MINT_CAP
    else if ledger[|ledger| - 1].payload.PolicyChanged? then ledger[|ledger| - 1].payload.cap
    else CapAfter(ledger[..|ledger| - 1])
  }

  function DualAfter(ledger: seq<Entry>): bool {
    if ledger == [] then false
    else if ledger[|ledger| - 1].payload.PolicyChanged? then ledger[|ledger| - 1].payload.dual
    else DualAfter(ledger[..|ledger| - 1])
  }

  function MintAmount(e: Entry): int {
    if e.payload.FundsMinted? then e.payload.amount else 0
  }

  /** A mint stayed within the cap then in force; under dual control someone else approved it. */
  ghost predicate MintAllowed(ledger: seq<Entry>, i: nat)
    requires i < |ledger|
  {
    ledger[i].payload.FundsMinted? ==>
      && ValidAmount(ledger[i].payload.amount)
      && ledger[i].payload.mintedTotal == Fold(ledger[..i + 1], MintAmount)
      && ledger[i].payload.mintedTotal <= CapAfter(ledger[..i])
      && (DualAfter(ledger[..i]) ==> ledger[i].payload.approvedBy != "")
      && (ledger[i].payload.approvedBy != "" ==> ledger[i].payload.approvedBy != ledger[i].actor)
  }

  ghost predicate SupplyBound(c: Colony) {
    && c.mintedTotal == Fold(c.ledger, MintAmount)
    && 0 <= c.mintedTotal <= EffectiveMintCap(c) <= DEFAULT_MINT_CAP
    && c.mintCap >= 0
    && EffectiveMintCap(c) == CapAfter(c.ledger)
    && c.dual == DualAfter(c.ledger)
    && forall i :: 0 <= i < |c.ledger| ==> MintAllowed(c.ledger, i)
  }

  ghost predicate SupplyBounds(s: State) {
    forall c :: c in s.colonies ==> SupplyBound(s.colonies[c])
  }

  // ---- dual control ----------------------------------------------------------

  /** The content of an executed dual-control action, as its ledger entry shows it. */
  datatype Deed = Deed(kind: ActionKind, colony: Id, subject: Id, amount: int64, proposer: Id, approver: Id)

  function ApprovedAs(d: Deed): Action -> int {
    (a: Action) =>
      Once(a.status == Approved && a.kind == d.kind && a.colony == d.colony && a.amount == d.amount
           && (if a.kind == MintAction then a.user else a.trade) == d.subject
           && a.proposedBy == d.proposer && a.decidedBy == d.approver)
  }

  function ExecutedAs(d: Deed): Entry -> int {
    (e: Entry) =>
      Once(e.colony == d.colony
           && match e.payload
              case FundsMinted(user, amount, _, _, approvedBy) =>
                d == Deed(MintAction, e.colony, user, amount, e.actor, approvedBy) && approvedBy != ""
              case TradeForceRefunded(trade, refund, _, proposedBy, approvedBy) =>
                d == Deed(ForceRefundAction, e.colony, trade, refund, proposedBy, approvedBy)
              case _ => false)
  }

  /** Decided by another admin, while the proposal had not expired. */
  ghost predicate DecidedProperly(p: Platform, a: Action) {
    && a.decidedBy != a.proposedBy
    && a.decidedBy != ""
    && exists now :: a.decidedAt == Stamp(p, now) && p.parse(a.expiresAt).Some? && !Past(p, now, a.expiresAt)
  }

  ghost predicate ActionRow(p: Platform, s: State, a: Action) {
    && a.proposedBy in s.users
    && a.colony in s.colonies
    && (a.status != Pending ==> DecidedProperly(p, a))
    && (a.kind == MintAction ==> ValidAmount(a.amount) && a.user in s.colonies[a.colony].accounts)
    && (a.kind == ForceRefundAction ==>
          a.trade in s.trades && s.trades[a.trade].buyerColony == a.colony && s.trades[a.trade].price == a.amount)
  }

  /** Every approved mint or force refund is one ledger entry, and every such entry one approval. */
  ghost predicate DualControl(p: Platform, s: State) {
    && (forall a :: a in s.actions ==> ActionRow(p, s, s.actions[a]))
    && (forall d: Deed :: d.kind != PolicyAction ==> Sum(s.actions, ApprovedAs(d)) == Tally(s, ExecutedAs(d)))
  }

  // ---- all of it -------------------------------------------------------------

  ghost predicate Inv(p: Platform, s: State) {
    && Rows(s)
    && Accounting(s)
    && Conserved(s)
    && Mirrored(s)
    && AllChained(p, s)
    && Replays(s)
    && Outcomes(s)
    && SupplyBounds(s)
    && DualControl(p, s)
  }
}
