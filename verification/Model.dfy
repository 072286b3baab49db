/** The platform's state, its ledger, and the one way a handler may change them. */
module Model {
  import opened Basics
  import opened TradeTable

  type Id = string

  const SECOND: int := 1_000_000_000
  const DAY: int := 86_400 * SECOND
  const DEFAULT_OFFER_TTL: int := 7 * DAY
  const MIN_OFFER_TTL: int := 60 * SECOND
  const MAX_OFFER_TTL: int := 90 * DAY
  const PENDING_ACTION_TTL: int := 3 * DAY
  const MAX_AMOUNT: int64 := 1_000_000_000_000
  const DEFAULT_MINT_CAP: int64 := 1_000_000_000_000_000

  // ---- rows (each is stored under its own id, so no row repeats it) ----------

  datatype User = User(colony: Id, roles: seq<string>, pub: string, priv: string, active: bool, mfa: bool)

  datatype Session = Session(user: Id, expiresAt: string)

  datatype Trade = Trade(
    asset: string, price: int64, seller: Id, buyer: Id, sellerColony: Id, buyerColony: Id, status: Status,
    offerEnvelope: Id, acceptanceEnvelope: Id, settlementEnvelope: Id, cancelEnvelope: Id, refundEnvelope: Id,
    sellerSig: string, buyerSig: string, createdAt: string, acceptedAt: string, settledAt: string,
    completedAt: string, expiresAt: string, refundedAt: string)

  /** The JSON object of an envelope: a field the object lacks reads as its zero value. */
  datatype Body =
    | Malformed
    | Body(trade: Id, asset: string, price: int64, seller: Id, sellerColony: Id, buyer: Id, buyerColony: Id,
           createdAt: string, expiresAt: string, sellerSig: string, debit: int64, acceptedAt: string,
           buyerSig: string, credit: int64, acceptedFrom: Id, settledAt: string, requestedAt: string,
           refund: int64, reason: string, decidedAt: string)

  const BLANK_BODY: Body := Body("", "", 0, "", "", "", "", "", "", "", 0, "", "", 0, "", "", "", 0, "", "")

  datatype Envelope = Envelope(id: Id, kind: string, from: Id, to: Id, body: Body, createdAt: string, signature: string)

  datatype Bundle = Bundle(from: Id, to: Id, exportedAt: string, messages: seq<Option<Envelope>>)

  datatype ActionKind = MintAction | ForceRefundAction | PolicyAction

  datatype ActionStatus = Pending | Approved | Rejected

  datatype Action = Action(
    kind: ActionKind, colony: Id, user: Id, trade: Id, amount: int64, cap: Option<int64>, dual: Option<bool>,
    proposedBy: Id, proposedAt: string, expiresAt: string, status: ActionStatus, decidedBy: Id, decidedAt: string)

  /** A ledger entry's typed payload; `approvedBy` is "" when the JSON omits it. */
  datatype Payload =
    | ColonyCreated
    | UserCreated(user: Id)
    | PeerTrusted(peer: Id)
    | OfferCreated(trade: Id, price: int64, buyer: Id, envelope: Id, expiresAt: string)
    | OfferImported(trade: Id, from: Id, envelope: Id)
    | TradeAccepted(trade: Id, debit: int64, newBalance: int64, envelope: Id)
    | AcceptanceImported(trade: Id, envelope: Id, credited: int64, newBalance: int64, settlement: Id)
    | TradeCompleted(trade: Id, envelope: Id, completedAt: string)
    | RefundDecided(trade: Id, trigger: Id, refundEnvelope: Id, reason: string)
    | TradeRefunded(trade: Id, refund: int64, newBalance: int64, envelope: Id)
    | TradeForceRefunded(trade: Id, refund: int64, newBalance: int64, proposedBy: Id, approvedBy: Id)
    | OfferCancelled(trade: Id)
    | CancelRequested(trade: Id, envelope: Id)
    | OfferExpired(trade: Id, expiresAt: string)
    | BundleExported(bundle: Id, to: Id, count: nat)
    | BundleImported(bundle: Id, from: Id, imported: nat, skipped: nat)
    | FundsMinted(user: Id, amount: int64, newBalance: int64, mintedTotal: int64, approvedBy: Id)
    | MintProposed(action: Id, user: Id, amount: int64)
    | PolicyProposed(action: Id)
    | PolicyChanged(cap: int64, dual: bool, approvedBy: Id)
    | ForceRefundProposed(action: Id, trade: Id)
    | ApprovalRejected(action: Id, kind: ActionKind)
    | UserRolesChanged(user: Id)
    | UserActivation(user: Id, active: bool)

  datatype Entry = Entry(seqNo: int, colony: Id, time: string, actor: Id, payload: Payload, prev: string, hash: string)

  datatype Colony = Colony(
    pub: string, priv: string, trusted: map<Id, string>, accounts: map<Id, int64>, processed: set<Id>,
    outbox: seq<Envelope>, ledger: seq<Entry>, nextSeq: nat, lastHash: string,
    netObligations: map<Id, int64>, netClaims: map<Id, int64>, mintedTotal: int64, mintCap: int64, dual: bool)

  datatype State = State(
    colonies: map<Id, Colony>, users: map<Id, User>, sessions: map<string, Session>, trades: map<Id, Trade>,
    bundles: map<Id, Bundle>, actions: map<Id, Action>)

  // ---- what the platform gets from libraries and from the machine ------------

  datatype Signable =
    | OfferSig(trade: Id, asset: string, price: int64, seller: Id, sellerColony: Id, buyer: Id, buyerColony: Id,
               createdAt: string, expiresAt: string)
    | AcceptanceSig(trade: Id, buyer: Id, buyerColony: Id, debit: int64, acceptedAt: string)
    | CancelSig(trade: Id, buyer: Id, buyerColony: Id, requestedAt: string)
    | EnvelopeSig(id: Id, kind: string, from: Id, to: Id, body: Body, createdAt: string)

  /** Hashing, JSON, RFC 3339 text and signatures: arbitrary functions, fixed for a whole run. */
  datatype Platform = Platform(
    hash: string -> string,
    json: Payload -> string,
    format: int -> string,
    parse: string -> Option<int>,
    sign: (string, Signable) -> string,
    verify: (string, Signable, string) -> bool,
    mfaRequired: bool)

  /** One handler's readings: the trade clock and the real clock (nanoseconds), and its random draws. */
  datatype Oracle = Oracle(now: int, wall: int, newId: Id, envelopeId: nat -> Id, pub: string, priv: string)

  function Stamp(p: Platform, time: int): string {
    p.format(time / SECOND)
  }

  /** `time` is later than the moment `text` denotes; text that is not a time is never passed. */
  predicate Past(p: Platform, time: int, text: string) {
    var t := p.parse(text);
    t.Some? && time > t.value * SECOND
  }

  function EnvelopeSignable(e: Envelope): Signable {
    EnvelopeSig(e.id, e.kind, e.from, e.to, e.body, e.createdAt)
  }

  function Sealed(p: Platform, priv: string, id: Id, kind: string, from: Id, to: Id, body: Body, at: string): Envelope {
    Envelope(id, kind, from, to, body, at, p.sign(priv, EnvelopeSig(id, kind, from, to, body, at)))
  }

  // ---- small rules -----------------------------------------------------------

  predicate ValidAmount(a: int64) {
    0 < a <= MAX_AMOUNT
  }

  function EffectiveMintCap(c: Colony): int64 {
    if c.mintCap > 0 then c.mintCap else DEFAULT_MINT_CAP
  }

  predicate HasRole(u: User, role: string) {
    role in u.roles
  }

  predicate IsAdminUser(u: User) {
    HasRole(u, "super_admin") || HasRole(u, "colony_admin")
  }

  predicate CanManageColony(u: User, colony: Id) {
    HasRole(u, "super_admin") || (u.colony == colony && HasRole(u, "colony_admin"))
  }

  predicate CanRelay(u: User, colony: Id) {
    HasRole(u, "super_admin")
    || (u.colony == colony && (HasRole(u, "colony_admin") || HasRole(u, "relay_operator")))
  }

  // ---- the hash-chained ledger -----------------------------------------------

  function TypeName(b: Payload): string {
    match b
    case ColonyCreated => "colony_created"
    case UserCreated(_) => "user_created"
    case PeerTrusted(_) => "peer_trusted"
    case OfferCreated(_, _, _, _, _) => "trade_offer_created"
    case OfferImported(_, _, _) => "trade_offer_imported"
    case TradeAccepted(_, _, _, _) => "trade_accepted"
    case AcceptanceImported(_, _, _, _, _) => "trade_acceptance_imported"
    case TradeCompleted(_, _, _) => "trade_completed"
    case RefundDecided(_, _, _, _) => "trade_refund_decided"
    case TradeRefunded(_, _, _, _) => "trade_refunded"
    case TradeForceRefunded(_, _, _, _, _) => "trade_force_refunded"
    case OfferCancelled(_) => "trade_offer_cancelled"
    case CancelRequested(_, _) => "trade_cancel_requested"
    case OfferExpired(_, _) => "trade_offer_expired"
    case BundleExported(_, _, _) => "bundle_exported"
    case BundleImported(_, _, _, _) => "bundle_imported"
    case FundsMinted(_, _, _, _, _) => "funds_minted"
    case MintProposed(_, _, _) => "mint_proposed"
    case PolicyProposed(_) => "policy_proposed"
    case PolicyChanged(_, _, _) => "policy_changed"
    case ForceRefundProposed(_, _) => "force_refund_proposed"
    case ApprovalRejected(_, _) => "approval_rejected"
    case UserRolesChanged(_) => "user_roles_changed"
    case UserActivation(_, active) => if active then "user_reactivated" else "user_deactivated"
  }

  function Digit(d: nat): char
    requires d < 10
  {
    ['0', '1', '2', '3', '4', '5', '6', '7', '8', '9'][d]
  }

  function Decimal(n: nat): string {
    if n < 10 then [Digit(n)] else Decimal(n / 10) + [Digit(n % 10)]
  }

  function DecimalInt(n: int): string {
    if n < 0 then "-" + Decimal(-n) else Decimal(n)
  }

  /** The bytes the hash of an entry covers. */
  function Preimage(seqNo: int, colony: Id, time: string, typ: string, actor: Id, raw: string, prev: string): string {
    DecimalInt(seqNo) + "|" + colony + "|" + time + "|" + typ + "|" + actor + "|" + prev + "|" + raw
  }

  function HashLedgerEntry(p: Platform, e: Entry): string {
    p.hash(Preimage(e.seqNo, e.colony, e.time, TypeName(e.payload), e.actor, p.json(e.payload), e.prev))
  }

  function HeadHash(ledger: seq<Entry>): string {
    if ledger == [] then "" else ledger[|ledger| - 1].hash
  }

  /** The entry `appendLedger` adds next. */
  function NextEntry(p: Platform, id: Id, c: Colony, time: string, actor: Id, payload: Payload): Entry {
    var prev := if c.lastHash == "" && |c.ledger| > 0 then HeadHash(c.ledger) else c.lastHash;
    var e := Entry(c.nextSeq + 1, id, time, actor, payload, prev, "");
    e.(hash := HashLedgerEntry(p, e))
  }

  function Append(p: Platform, id: Id, c: Colony, time: string, actor: Id, payload: Payload): Colony {
    var e := NextEntry(p, id, c, time, actor, payload);
    c.(ledger := c.ledger + [e], nextSeq := c.nextSeq + 1, lastHash := e.hash)
  }

  // ---- effects ---------------------------------------------------------------

  /** New totals between `colony` (the seller side) and its debtor `peer`. */
  datatype Claim = Claim(peer: Id, claims: int64, obligations: int64)

  /** Everything one handler step changes: one ledger entry of one colony, and at most one row of each table. */
  datatype Effect = Effect(
    colony: Id, actor: Id, payload: Payload,
    account: Option<(Id, int64)>, minted: Option<int64>, cap: Option<int64>, dual: Option<bool>,
    trust: Option<(Id, string)>, emit: seq<Envelope>, drain: Option<Id>, claim: Option<Claim>,
    trade: Option<(Id, Trade)>, action: Option<(Id, Action)>, user: Option<(Id, User)>, bundle: Option<(Id, Bundle)>,
    founded: Option<(Id, Colony)>)

  function Logged(colony: Id, actor: Id, payload: Payload): Effect {
    Effect(colony, actor, payload, None, None, None, None, None, [], None, None, None, None, None, None, None)
  }

  /** The envelopes of an outbox that a bundle for `to` leaves behind. */
  function Kept(outbox: seq<Envelope>, to: Id): seq<Envelope> {
    if outbox == [] then []
    else Kept(outbox[..|outbox| - 1], to)
         + (if outbox[|outbox| - 1].to == to then [] else [outbox[|outbox| - 1]])
  }

  function Picked(outbox: seq<Envelope>, to: Id): seq<Envelope> {
    if outbox == [] then []
    else Picked(outbox[..|outbox| - 1], to)
         + (if outbox[|outbox| - 1].to == to then [outbox[|outbox| - 1]] else [])
  }

  function Put<V>(m: map<Id, V>, row: Option<(Id, V)>): map<Id, V> {
    if row.Some? then m[row.value.0 := row.value.1] else m
  }

  function Or<V>(change: Option<V>, current: V): V {
    if change.Some? then change.value else current
  }

  function Touch(c: Colony, fx: Effect): Colony {
    c.(accounts := Put(c.accounts, fx.account),
       trusted := Put(c.trusted, fx.trust),
       outbox := (if fx.drain.Some? then Kept(c.outbox, fx.drain.value) else c.outbox) + fx.emit,
       netClaims := if fx.claim.Some? then c.netClaims[fx.claim.value.peer := fx.claim.value.claims] else c.netClaims,
       mintedTotal := Or(fx.minted, c.mintedTotal),
       mintCap := Or(fx.cap, c.mintCap),
       dual := Or(fx.dual, c.dual))
  }

  function Owe(colonies: map<Id, Colony>, fx: Effect): map<Id, Colony> {
    if fx.claim.Some? && fx.claim.value.peer in colonies then
      var peer := colonies[fx.claim.value.peer];
      colonies[fx.claim.value.peer :=
        peer.(netObligations := peer.netObligations[fx.colony := fx.claim.value.obligations])]
    else colonies
  }

  function PostColonies(p: Platform, now: int, colonies: map<Id, Colony>, fx: Effect): map<Id, Colony> {
    if fx.colony in colonies then
      var c := Append(p, fx.colony, Touch(colonies[fx.colony], fx), Stamp(p, now), fx.actor, fx.payload);
      Owe(colonies[fx.colony := c], fx)
    else colonies
  }

  /** The state after a step: a colony that does not exist takes no entry. */
  function Post(p: Platform, now: int, s: State, fx: Effect): (r: State)
    ensures r.colonies.Keys == Put(s.colonies, fx.founded).Keys
  {
    s.(colonies := PostColonies(p, now, Put(s.colonies, fx.founded), fx),
       trades := Put(s.trades, fx.trade),
       actions := Put(s.actions, fx.action),
       users := Put(s.users, fx.user),
       bundles := Put(s.bundles, fx.bundle))
  }

  function MarkProcessed(s: State, colony: Id, envelope: Id): (r: State)
    ensures r.colonies.Keys == s.colonies.Keys
  {
    if colony in s.colonies then
      var c := s.colonies[colony];
      s.(colonies := s.colonies[colony := c.(processed := c.processed + {envelope})])
    else s
  }

  // ---- text ------------------------------------------------------------------

  predicate IsSpace(c: char) {
    c in {'\t', '\n', '\U{0B}', '\U{0C}', '\r', ' ', '\U{85}', '\U{A0}', '\U{1680}', '\U{2028}', '\U{2029}', '\U{202F}', '\U{205F}', '\U{3000}'}
    || '\U{2000}' <= c <= '\U{200A}'
  }

  function TrimLeft(s: string): (r: string)
    ensures r == [] || !IsSpace(r[0])
    ensures |r| <= |s| && r == s[|s| - |r|..]
  {
    if s == [] || !IsSpace(s[0]) then s else TrimLeft(s[1..])
  }

  function TrimRight(s: string): (r: string)
    ensures r == [] || !IsSpace(r[|r| - 1])
    ensures r <= s
  {
    if s == [] || !IsSpace(s[|s| - 1]) then s else TrimRight(s[..|s| - 1])
  }

  function TrimSpace(s: string): string {
    TrimRight(TrimLeft(s))
  }

  /** A trimmed text is not trimmed further. */
  lemma TrimIdempotent(s: string)
    ensures TrimSpace(TrimSpace(s)) == TrimSpace(s)
  {
    var t := TrimSpace(s);
    assert t != [] ==> t[0] == TrimLeft(s)[0];
    assert TrimLeft(t) == t;
    assert TrimRight(t) == t;
  }
}
