/** What every handler decides: the effect it asks for, or the error it answers with. */
module Handlers {
  import opened Basics
  import opened TradeTable
  import opened Model

  datatype Request =
    | CreateOffer(seller: Id, buyer: Id, asset: string, price: int64, ttlSeconds: int64)
    | AcceptTrade(trade: Id)
    | CancelTrade(trade: Id)
    | ExportBundle(colony: Id, to: Id)
    | Mint(colony: Id, user: Id, amount: int64, allowPropose: bool)
    | SetPolicy(colony: Id, cap: Option<int64>, dual: Option<bool>)
    | ProposeForceRefund(trade: Id)
    | DecideApproval(action: Id, approve: bool)
    | CreateUser(colony: Id, roles: seq<string>)
    | CreateColony
    | TrustPeer(colony: Id, peer: Id)

  // ---- who is asking ---------------------------------------------------------

  function Actor(p: Platform, o: Oracle, s: State, token: string): (r: Result<Id>)
    ensures r.Ok? ==> r.value in s.users && s.users[r.value].active
  {
    var known := token != "" && token in s.sessions;
    :- Need(known, Unauthorized);
    var expiry := p.parse(s.sessions[token].expiresAt);
    :- Need(expiry.Some? && o.wall <= expiry.value * SECOND, Unauthorized);
    var id := s.sessions[token].user;
    :- Need(id in s.users && s.users[id].active, Unauthorized);
    :- Need(!(p.mfaRequired && IsAdminUser(s.users[id]) && !s.users[id].mfa), Forbidden);
    Ok(id)
  }

  // ---- trade status ----------------------------------------------------------

  function Advance(t: Trade, to: Status): Result<Trade> {
    if TransitionAllowed(t.status, to) then Ok(t.(status := to)) else Err(Conflict)
  }

  /** StepTrade: None when the trade already left `pred`. */
  ghost function Step(t: Trade, pred: Status, to: Status): Result<Option<Trade>> {
    match StepOf(t.status, pred)
    case StepApply => (var t' :- Advance(t, to); Ok(Some(t')))
    case StepTooEarly => Err(Conflict)
    case StepDuplicate => Ok(None)
  }

  predicate IsExpired(p: Platform, t: Trade, now: int) {
    t.expiresAt != "" && Past(p, now, t.expiresAt)
  }

  function AcceptedAfterExpiry(p: Platform, t: Trade, acceptedAt: string): Result<bool> {
    if t.expiresAt == "" || p.parse(t.expiresAt).None? then Ok(false)
    else if p.parse(acceptedAt).None? then Err(BadRequest)
    else Ok(p.parse(acceptedAt).value > p.parse(t.expiresAt).value)
  }

  // ---- offers and acceptances ------------------------------------------------

  function PlanCreateOffer(p: Platform, o: Oracle, s: State, token: string,
                           sellerId: Id, buyerId: Id, rawAsset: string, price: int64, ttlSeconds: int64): Result<Effect> {
    var asset := TrimSpace(rawAsset);
    :- Need(asset != "" && ValidAmount(price), BadRequest);
    var ttl := if ttlSeconds == 0 then DEFAULT_OFFER_TTL else Wrap(ttlSeconds * SECOND);
    :- Need(MIN_OFFER_TTL <= ttl <= MAX_OFFER_TTL, BadRequest);
    var actorId :- Actor(p, o, s, token);
    :- Need(sellerId in s.users && buyerId in s.users, NotFound);
    var actor, seller, buyer := s.users[actorId], s.users[sellerId], s.users[buyerId];
    :- Need(seller.colony != "" && buyer.colony != "", BadRequest);
    :- Need(sellerId != buyerId, BadRequest);
    :- Need(seller.colony != buyer.colony, BadRequest);
    :- Need(actorId == sellerId || HasRole(actor, "super_admin"), Forbidden);
    :- Need(HasRole(actor, "super_admin") || HasRole(actor, "trader"), Forbidden);
    :- Need(seller.colony in s.colonies && buyer.colony in s.colonies, NotFound);
    var createdAt, expiresAt := Stamp(p, o.now), Stamp(p, o.now + ttl);
    var sig := p.sign(seller.priv, OfferSig(o.newId, asset, price, sellerId, seller.colony, buyerId, buyer.colony, createdAt, expiresAt));
    var body := BLANK_BODY.(trade := o.newId, asset := asset, price := price, seller := sellerId, sellerColony := seller.colony,
      buyer := buyerId, buyerColony := buyer.colony, createdAt := createdAt, expiresAt := expiresAt, sellerSig := sig);
    var env := Sealed(p, s.colonies[seller.colony].priv, o.envelopeId(0), "offer", seller.colony, buyer.colony, body, createdAt);
    var trade := Trade(asset, price, sellerId, buyerId, seller.colony, buyer.colony, OfferPendingExport,
      env.id, "", "", "", "", sig, "", createdAt, "", "", "", expiresAt, "");
    Ok(OfferEffect(seller.colony, actorId, o.newId, trade, env))
  }

  function OfferEffect(colony: Id, actor: Id, tradeId: Id, t: Trade, env: Envelope): Effect {
    Logged(colony, actor, OfferCreated(tradeId, t.price, t.buyer, env.id, t.expiresAt))
    .(emit := [env], trade := Some((tradeId, t)))
  }

  function PlanAccept(p: Platform, o: Oracle, s: State, token: string, tradeId: Id): Result<Effect> {
    var actorId :- Actor(p, o, s, token);
    :- Need(tradeId in s.trades, NotFound);
    var actor, trade := s.users[actorId], s.trades[tradeId];
    :- Need(trade.status == OfferReceived, Conflict);
    :- Need(!IsExpired(p, trade, o.now), Conflict);
    :- Need(trade.buyer in s.users, NotFound);
    var buyer := s.users[trade.buyer];
    :- Need(actorId == trade.buyer || HasRole(actor, "super_admin"), Forbidden);
    :- Need(HasRole(actor, "super_admin") || HasRole(actor, "trader"), Forbidden);
    :- Need(buyer.colony in s.colonies, NotFound);
    var colony := s.colonies[buyer.colony];
    :- Need(trade.buyer in colony.accounts, NotFound);
    :- Need(colony.accounts[trade.buyer] >= trade.price, Conflict);
    var acceptedAt := Stamp(p, o.now);
    var sig := p.sign(buyer.priv, AcceptanceSig(tradeId, trade.buyer, buyer.colony, trade.price, acceptedAt));
    var body := BLANK_BODY.(trade := tradeId, buyer := trade.buyer, buyerColony := buyer.colony, debit := trade.price,
      acceptedAt := acceptedAt, buyerSig := sig);
    var env := Sealed(p, colony.priv, o.envelopeId(0), "acceptance", buyer.colony, trade.sellerColony, body, acceptedAt);
    var advanced :- Advance(trade, AcceptancePendingExport);
    Ok(AcceptanceEffect(buyer.colony, actorId, tradeId, advanced, Wrap(colony.accounts[trade.buyer] - trade.price), env, acceptedAt, sig))
  }

  /** The buyer is debited, the acceptance is queued and the trade remembers both. */
  function AcceptanceEffect(colony: Id, actor: Id, tradeId: Id, t: Trade, balance: int64, env: Envelope, at: string, sig: string): Effect {
    Logged(colony, actor, TradeAccepted(tradeId, t.price, balance, env.id))
    .(account := Some((t.buyer, balance)), emit := [env],
      trade := Some((tradeId, t.(acceptedAt := at, buyerSig := sig, acceptanceEnvelope := env.id))))
  }

  function PlanCancel(p: Platform, o: Oracle, s: State, token: string, tradeId: Id): Result<Effect> {
    var actorId :- Actor(p, o, s, token);
    :- Need(tradeId in s.trades, NotFound);
    var actor, trade := s.users[actorId], s.trades[tradeId];
    :- Need(HasRole(actor, "super_admin") || HasRole(actor, "trader"), Forbidden);
    if trade.status == OfferPendingExport || trade.status == OfferReceived then
      :- Need(actorId == trade.seller || HasRole(actor, "super_admin"), Forbidden);
      var trade' :- Advance(trade, Cancelled);
      Ok(CloseEffect(actorId, tradeId, trade', OfferCancelled(tradeId)))
    else if trade.status == AcceptancePendingExport then
      :- Need(trade.buyer in s.users, NotFound);
      var buyer := s.users[trade.buyer];
      :- Need(actorId == trade.buyer || HasRole(actor, "super_admin"), Forbidden);
      :- Need(buyer.colony in s.colonies, NotFound);
      var requestedAt := Stamp(p, o.now);
      var sig := p.sign(buyer.priv, CancelSig(tradeId, trade.buyer, buyer.colony, requestedAt));
      var body := BLANK_BODY.(trade := tradeId, buyer := trade.buyer, buyerColony := buyer.colony,
        requestedAt := requestedAt, buyerSig := sig);
      var env := Sealed(p, s.colonies[buyer.colony].priv, o.envelopeId(0), "cancel_request", buyer.colony, trade.sellerColony, body, requestedAt);
      Ok(CancelEffect(buyer.colony, actorId, tradeId, trade, env))
    else Err(Conflict)
  }

  function CancelEffect(colony: Id, actor: Id, tradeId: Id, t: Trade, env: Envelope): Effect {
    Logged(colony, actor, CancelRequested(tradeId, env.id))
    .(emit := [env], trade := Some((tradeId, t.(cancelEnvelope := env.id))))
  }

  /** An unaccepted offer is closed; only its status changes. */
  function CloseEffect(actor: Id, tradeId: Id, t: Trade, payload: Payload): Effect {
    Logged(t.sellerColony, actor, payload).(trade := Some((tradeId, t)))
  }

  /** An offer the sweep closes. */
  predicate Due(p: Platform, now: int, t: Trade) {
    (t.status == OfferPendingExport || t.status == OfferReceived) && IsExpired(p, t, now)
  }

  function PlanExpire(p: Platform, now: int, s: State, tradeId: Id): Option<Effect> {
    if tradeId in s.trades && Due(p, now, s.trades[tradeId]) then
      var trade := s.trades[tradeId];
      Some(CloseEffect("", tradeId, trade.(status := Expired), OfferExpired(tradeId, trade.expiresAt)))
    else None
  }

  function PlanExport(p: Platform, o: Oracle, s: State, token: string, from: Id, to: Id): Result<Effect> {
    var named := from != "" && to != "";
    :- Need(named, BadRequest);
    var actorId :- Actor(p, o, s, token);
    :- Need(CanRelay(s.users[actorId], from), Forbidden);
    :- Need(from in s.colonies, NotFound);
    :- Need(to in s.colonies, NotFound);
    var picked := Picked(s.colonies[from].outbox, to);
    Ok(ExportEffect(from, actorId, o.newId, to, Stamp(p, o.now), picked))
  }

  function ExportEffect(from: Id, actor: Id, bundleId: Id, to: Id, at: string, picked: seq<Envelope>): Effect {
    Logged(from, actor, BundleExported(bundleId, to, |picked|))
    .(drain := Some(to), bundle := Some((bundleId, Bundle(from, to, at, Wrapped(picked)))))
  }

  function Wrapped(messages: seq<Envelope>): seq<Option<Envelope>> {
    seq(|messages|, i requires 0 <= i < |messages| => Some(messages[i]))
  }

  /** The effect settles a trade: it brings in nobody, drains no outbox and touches no policy. */
  predicate Settles(fx: Effect) {
    fx.founded.None? && fx.user.None? && fx.action.None? && fx.drain.None? && fx.bundle.None?
    && fx.minted.None? && fx.cap.None? && fx.dual.None? && fx.trust.None? && fx.trade.Some?
  }

  // ---- imports ---------------------------------------------------------------

  ghost function PlanImportOffer(p: Platform, s: State, source: Id, target: Id, env: Envelope): (r: Result<Option<Effect>>)
    ensures r.Ok? && r.value.Some? ==> Settles(r.value.value) && r.value.value.emit == []
  {
    var b := env.body;
    :- Need(b.Body?, BadRequest);
    :- Need(b.sellerColony == source && b.buyerColony == target, BadRequest);
    :- Need(ValidAmount(b.price) && TrimSpace(b.asset) != "", BadRequest);
    :- Need(b.seller in s.users && b.buyer in s.users, NotFound);
    :- Need(s.users[b.seller].colony == source && s.users[b.buyer].colony == target, BadRequest);
    :- Need(p.verify(s.users[b.seller].pub, OfferSig(b.trade, b.asset, b.price, b.seller, b.sellerColony, b.buyer,
                     b.buyerColony, b.createdAt, b.expiresAt), b.sellerSig), BadRequest);
    var fx := Logged(target, b.buyer, OfferImported(b.trade, source, env.id));
    if b.trade !in s.trades then
      var trade := Trade(b.asset, b.price, b.seller, b.buyer, b.sellerColony, b.buyerColony, OfferReceived,
        env.id, "", "", "", "", b.sellerSig, "", b.createdAt, "", "", "", b.expiresAt, "");
      Ok(Some(fx.(trade := Some((b.trade, trade)))))
    else
      var t := s.trades[b.trade];
      :- Need(t.expiresAt == b.expiresAt && t.asset == b.asset && t.price == b.price && t.seller == b.seller
              && t.buyer == b.buyer && t.sellerColony == b.sellerColony && t.buyerColony == b.buyerColony, BadRequest);
      var step :- Step(t, OfferPendingExport, OfferReceived);
      if step.None? then Ok(None)
      else Ok(Some(fx.(trade := Some((b.trade, step.value.(offerEnvelope := env.id, sellerSig := b.sellerSig))))))
  }

  /** The seller colony decides not to credit: no balance moves, a signed refund leaves. */
  function DecideRefund(p: Platform, o: Oracle, i: nat, s: State, source: Id, target: Id, tradeId: Id, trigger: Envelope, reason: string): (r: Result<Effect>)
    requires target in s.colonies && tradeId in s.trades
    ensures r.Ok? ==> Settles(r.value)
  {
    var t := s.trades[tradeId];
    var decidedAt := Stamp(p, o.now);
    var body := BLANK_BODY.(trade := tradeId, buyer := t.buyer, buyerColony := source, sellerColony := target,
      refund := t.price, reason := reason, decidedAt := decidedAt);
    var env := Sealed(p, s.colonies[target].priv, o.envelopeId(i), "refund", target, source, body, decidedAt);
    var advanced :- Advance(t, RefundPendingExport);
    var marked :=
      if trigger.kind == "cancel_request" then advanced.(cancelEnvelope := trigger.id)
      else if trigger.kind == "acceptance" then advanced.(acceptanceEnvelope := trigger.id)
      else advanced;
    Ok(RefundEffect(target, tradeId, marked.(refundEnvelope := env.id), trigger.id, env, reason))
  }

  function RefundEffect(target: Id, tradeId: Id, t: Trade, trigger: Id, env: Envelope, reason: string): Effect {
    Logged(target, t.seller, RefundDecided(tradeId, trigger, env.id, reason))
    .(emit := [env], trade := Some((tradeId, t)))
  }

  const LATE_REASON := "acceptance arrived after offer expiry"
  const EXPIRED_REASON := "offer was expired before acceptance arrived"
  const CANCELLED_REASON := "offer was cancelled before acceptance arrived"
  const CANCEL_REASON := "cancel requested by buyer before acceptance was credited"

  ghost function PlanImportAcceptance(p: Platform, o: Oracle, i: nat, s: State, source: Id, target: Id, env: Envelope): (r: Result<Option<Effect>>)
    requires source in s.colonies && target in s.colonies
    ensures r.Ok? && r.value.Some? ==> Settles(r.value.value)
  {
    var b := env.body;
    :- Need(b.Body?, BadRequest);
    :- Need(b.buyerColony == source, BadRequest);
    :- Need(b.buyer in s.users, NotFound);
    :- Need(s.users[b.buyer].colony == source, BadRequest);
    :- Need(p.verify(s.users[b.buyer].pub, AcceptanceSig(b.trade, b.buyer, b.buyerColony, b.debit, b.acceptedAt), b.buyerSig), BadRequest);
    :- Need(b.trade in s.trades, NotFound);
    var t := s.trades[b.trade];
    :- Need(t.sellerColony == target && t.buyerColony == source && t.buyer == b.buyer && t.price == b.debit, BadRequest);
    :- Need(t.seller in s.users, NotFound);
    :- Need(t.seller in s.colonies[target].accounts, NotFound);
    match t.status
    case AcceptancePendingExport =>
      var late :- AcceptedAfterExpiry(p, t, b.acceptedAt);
      if late then
        var fx :- DecideRefund(p, o, i, s, source, target, b.trade, env, LATE_REASON);
        Ok(Some(fx))
      else
        var fx :- Credit(p, o, i, s, source, target, env);
        Ok(Some(fx))
    case Expired | Cancelled =>
      :- Need(t.acceptanceEnvelope != "", Conflict);
      var fx :- DecideRefund(p, o, i, s, source, target, b.trade, env,
        if t.status == Expired then EXPIRED_REASON else CANCELLED_REASON);
      Ok(Some(fx))
    case _ =>
      if StepOf(t.status, AcceptancePendingExport) == StepTooEarly then Err(Conflict) else Ok(None)
  }

  /** The seller is credited, both colonies book the claim and a signed settlement leaves. */
  function Credit(p: Platform, o: Oracle, i: nat, s: State, source: Id, target: Id, env: Envelope): (r: Result<Effect>)
    requires source in s.colonies && target in s.colonies && env.body.Body? && env.body.trade in s.trades
    requires s.trades[env.body.trade].seller in s.colonies[target].accounts
    ensures r.Ok? ==> Settles(r.value)
  {
    var b, t := env.body, s.trades[env.body.trade];
    var balance :- AddChecked(s.colonies[target].accounts[t.seller], t.price);
    var claims :- AddChecked(Get(s.colonies[target].netClaims, source), t.price);
    var obligations :- AddChecked(Get(s.colonies[source].netObligations, target), t.price);
    var settledAt := Stamp(p, o.now);
    var body := BLANK_BODY.(trade := b.trade, seller := t.seller, sellerColony := target, credit := t.price,
      acceptedFrom := source, settledAt := settledAt);
    var settlement := Sealed(p, s.colonies[target].priv, o.envelopeId(i), "settlement", target, source, body, settledAt);
    var advanced :- Advance(t, SettlementPendingExport);
    var t' := advanced.(acceptedAt := b.acceptedAt, acceptanceEnvelope := env.id, buyerSig := b.buyerSig,
      settledAt := settledAt, settlementEnvelope := settlement.id);
    Ok(CreditEffect(target, b.trade, t', env.id, balance, Claim(source, claims, obligations), settlement))
  }

  function CreditEffect(target: Id, tradeId: Id, t: Trade, env: Id, balance: int64, claim: Claim, settlement: Envelope): Effect {
    Logged(target, t.seller, AcceptanceImported(tradeId, env, t.price, balance, settlement.id))
    .(account := Some((t.seller, balance)), claim := Some(claim), emit := [settlement], trade := Some((tradeId, t)))
  }

  ghost function PlanImportSettlement(p: Platform, o: Oracle, s: State, source: Id, target: Id, env: Envelope): (r: Result<Option<Effect>>)
    ensures r.Ok? && r.value.Some? ==> Settles(r.value.value) && r.value.value.emit == []
  {
    var b := env.body;
    :- Need(b.Body?, BadRequest);
    :- Need(b.trade in s.trades, NotFound);
    var t := s.trades[b.trade];
    :- Need(b.sellerColony == source && b.acceptedFrom == target && b.seller == t.seller
            && t.buyerColony == target && t.sellerColony == source && t.price == b.credit, BadRequest);
    var step :- Step(t, SettlementPendingExport, Completed);
    if step.None? then Ok(None)
    else
      var t' := step.value.(settledAt := b.settledAt, completedAt := Stamp(p, o.now), settlementEnvelope := env.id);
      Ok(Some(Logged(target, t.buyer, TradeCompleted(b.trade, env.id, t'.completedAt)).(trade := Some((b.trade, t')))))
  }

  ghost function PlanImportCancel(p: Platform, o: Oracle, i: nat, s: State, source: Id, target: Id, env: Envelope): (r: Result<Option<Effect>>)
    requires target in s.colonies
    ensures r.Ok? && r.value.Some? ==> Settles(r.value.value)
  {
    var b := env.body;
    :- Need(b.Body?, BadRequest);
    :- Need(b.buyerColony == source, BadRequest);
    :- Need(b.buyer in s.users && s.users[b.buyer].colony == source, BadRequest);
    :- Need(p.verify(s.users[b.buyer].pub, CancelSig(b.trade, b.buyer, b.buyerColony, b.requestedAt), b.buyerSig), BadRequest);
    :- Need(b.trade in s.trades, NotFound);
    var t := s.trades[b.trade];
    :- Need(t.sellerColony == target && t.buyerColony == source && t.buyer == b.buyer, BadRequest);
    match StepOf(t.status, AcceptancePendingExport)
    case StepApply =>
      var fx :- DecideRefund(p, o, i, s, source, target, b.trade, env, CANCEL_REASON);
      Ok(Some(fx))
    case StepTooEarly => Err(Conflict)
    case StepDuplicate => Ok(None)
  }

  /** The buyer gets the price back, by a refund envelope or by force. */
  function ApplyRefund(p: Platform, o: Oracle, s: State, tradeId: Id, actor: Id, forcedBy: Option<Id>, envelope: Id): (r: Result<Effect>)
    requires tradeId in s.trades
    ensures r.Ok? ==> Settles(r.value) && r.value.emit == []
  {
    var t := s.trades[tradeId];
    :- Need(t.buyerColony in s.colonies, NotFound);
    :- Need(t.buyer in s.colonies[t.buyerColony].accounts, NotFound);
    var balance :- AddChecked(s.colonies[t.buyerColony].accounts[t.buyer], t.price);
    var advanced :- Advance(t, Refunded);
    var payload := if forcedBy.Some?
      then TradeForceRefunded(tradeId, t.price, balance, forcedBy.value, actor)
      else TradeRefunded(tradeId, t.price, balance, envelope);
    Ok(PaybackEffect(actor, tradeId, advanced.(refundedAt := Stamp(p, o.now)), balance, payload))
  }

  function PaybackEffect(actor: Id, tradeId: Id, t: Trade, balance: int64, payload: Payload): Effect {
    Logged(t.buyerColony, actor, payload).(account := Some((t.buyer, balance)), trade := Some((tradeId, t)))
  }

  ghost function PlanImportRefund(p: Platform, o: Oracle, s: State, source: Id, target: Id, env: Envelope): (r: Result<Option<Effect>>)
    ensures r.Ok? && r.value.Some? ==> Settles(r.value.value) && r.value.value.emit == []
  {
    var b := env.body;
    :- Need(b.Body?, BadRequest);
    :- Need(b.trade in s.trades, NotFound);
    var t := s.trades[b.trade];
    :- Need(b.sellerColony == source && b.buyerColony == target && t.sellerColony == source && t.buyerColony == target
            && t.buyer == b.buyer && t.price == b.refund, BadRequest);
    match StepOf(t.status, RefundPendingExport)
    case StepApply =>
      var fx :- ApplyRefund(p, o, s, b.trade, t.buyer, None, env.id);
      Ok(Some(fx))
    case StepTooEarly => Err(Conflict)
    case StepDuplicate => Ok(None)
  }

  /** The effect of one verified envelope; None when its trade already passed the step. */
  ghost function PlanEnvelope(p: Platform, o: Oracle, i: nat, s: State, source: Id, target: Id, env: Envelope): (r: Result<Option<Effect>>)
    requires source in s.colonies && target in s.colonies
    ensures r.Ok? && r.value.Some? ==> Settles(r.value.value)
  {
    if env.kind == "offer" then PlanImportOffer(p, s, source, target, env)
    else if env.kind == "acceptance" then PlanImportAcceptance(p, o, i, s, source, target, env)
    else if env.kind == "settlement" then PlanImportSettlement(p, o, s, source, target, env)
    else if env.kind == "cancel_request" then PlanImportCancel(p, o, i, s, source, target, env)
    else if env.kind == "refund" then PlanImportRefund(p, o, s, source, target, env)
    else Err(BadRequest)
  }

  datatype Progress = Progress(state: State, imported: nat, skipped: nat, kinds: seq<string>, trades: seq<Id>)

  /** One turn of the import loop. */
  ghost function ImportMessage(p: Platform, o: Oracle, i: nat, source: Id, target: Id, acc: Progress, message: Option<Envelope>): (r: Result<Progress>)
    requires source in acc.state.colonies && target in acc.state.colonies
    ensures r.Ok? ==> r.value.state.colonies.Keys == acc.state.colonies.Keys
  {
    if message.None? then Ok(acc)
    else
      var env, s := message.value, acc.state;
      :- Need(env.to == target && env.from == source, BadRequest);
      if env.id in s.colonies[target].processed then Ok(acc.(skipped := acc.skipped + 1))
      else
        :- Need(p.verify(s.colonies[source].pub, EnvelopeSignable(env), env.signature), BadRequest);
        var step :- PlanEnvelope(p, o, i, s, source, target, env);
        if step.None? then
          Ok(acc.(state := MarkProcessed(s, target, env.id), skipped := acc.skipped + 1))
        else
          Ok(Progress(MarkProcessed(Post(p, o.now, s, step.value), target, env.id), acc.imported + 1, acc.skipped,
                      acc.kinds + [env.kind], acc.trades + [env.body.trade]))
  }

  /** The import loop after `n` messages. */
  ghost function ImportUpTo(p: Platform, o: Oracle, s: State, source: Id, target: Id, messages: seq<Option<Envelope>>, n: nat): (r: Result<Progress>)
    requires source in s.colonies && target in s.colonies && n <= |messages|
    ensures r.Ok? ==> r.value.state.colonies.Keys == s.colonies.Keys
  {
    if n == 0 then Ok(Progress(s, 0, 0, [], []))
    else
      var acc :- ImportUpTo(p, o, s, source, target, messages, n - 1);
      ImportMessage(p, o, n - 1, source, target, acc, messages[n - 1])
  }

  datatype ImportResult = ImportResult(bundle: Id, imported: nat, skipped: nat, generated: int, kinds: seq<string>, trades: seq<Id>)

  function CheckImport(p: Platform, o: Oracle, s: State, token: string, colony: Id, b: Bundle): (r: Result<Id>)
    ensures r.Ok? ==> colony in s.colonies && b.from in s.colonies && r.value in s.users
  {
    var named := colony != "";
    :- Need(named, BadRequest);
    var actorId :- Actor(p, o, s, token);
    :- Need(CanRelay(s.users[actorId], colony), Forbidden);
    :- Need(colony in s.colonies, NotFound);
    :- Need(b.to == colony, BadRequest);
    :- Need(b.from in s.colonies, NotFound);
    var trusted := s.colonies[colony].trusted;
    :- Need((if b.from in trusted then trusted[b.from] else "") == s.colonies[b.from].pub, Forbidden);
    Ok(actorId)
  }

  function ImportClosing(colony: Id, actorId: Id, bundleId: Id, b: Bundle, imported: nat, skipped: nat): Effect {
    Logged(colony, actorId, BundleImported(bundleId, b.from, imported, skipped)).(bundle := Some((bundleId, b)))
  }

  ghost function ImportBundle(p: Platform, o: Oracle, s: State, token: string, colony: Id, bundleId: Id, b: Bundle): Result<(State, ImportResult)> {
    var actorId :- CheckImport(p, o, s, token, colony, b);
    var acc :- ImportUpTo(p, o, s, b.from, colony, b.messages, |b.messages|);
    var generated := |acc.state.colonies[colony].outbox| - |s.colonies[colony].outbox|;
    var s' := Post(p, o.now, acc.state, ImportClosing(colony, actorId, bundleId, b, acc.imported, acc.skipped));
    Ok((s', ImportResult(bundleId, acc.imported, acc.skipped, generated, acc.kinds, acc.trades)))
  }

  // ---- supply, policy and dual control ---------------------------------------

  function NewAction(p: Platform, o: Oracle, proposer: Id, kind: ActionKind, colony: Id): Action {
    Action(kind, colony, "", "", 0, None, None, proposer, Stamp(p, o.now), Stamp(p, o.now + PENDING_ACTION_TTL), Pending, "", "")
  }

  function ApplyMint(s: State, colonyId: Id, user: Id, amount: int64, actor: Id, approvedBy: Id): Result<Effect>
    requires colonyId in s.colonies
  {
    var c := s.colonies[colonyId];
    :- Need(user in c.accounts && user in s.users, NotFound);
    var total :- AddChecked(c.mintedTotal, amount);
    :- Need(total <= EffectiveMintCap(c), Conflict);
    var balance :- AddChecked(c.accounts[user], amount);
    Ok(Logged(colonyId, actor, FundsMinted(user, amount, balance, total, approvedBy))
       .(minted := Some(total), account := Some((user, balance))))
  }

  function PlanMint(p: Platform, o: Oracle, s: State, token: string, colonyId: Id, user: Id, amount: int64, allowPropose: bool): Result<Effect> {
    var valid := ValidAmount(amount);
    :- Need(valid, BadRequest);
    var actorId :- Actor(p, o, s, token);
    :- Need(CanManageColony(s.users[actorId], colonyId), Forbidden);
    :- Need(colonyId in s.colonies, NotFound);
    var c := s.colonies[colonyId];
    :- Need(user in c.accounts, NotFound);
    :- Need(user in s.users, NotFound);
    if c.dual then
      :- Need(allowPropose, Conflict);
      :- Need(AddChecked(c.mintedTotal, amount).Ok? && c.mintedTotal + amount <= EffectiveMintCap(c), Conflict);
      Ok(Logged(colonyId, actorId, MintProposed(o.newId, user, amount))
         .(action := Some((o.newId, NewAction(p, o, actorId, MintAction, colonyId).(user := user, amount := amount)))))
    else ApplyMint(s, colonyId, user, amount, actorId, "")
  }

  function ValidatePolicy(c: Colony, cap: Option<int64>): Outcome {
    Need(!(cap.Some? && (cap.value <= 0 || cap.value < c.mintedTotal || cap.value > DEFAULT_MINT_CAP)), BadRequest)
  }

  function ApplyPolicy(s: State, colonyId: Id, cap: Option<int64>, dual: Option<bool>, actor: Id, approvedBy: Id): Result<Effect>
    requires colonyId in s.colonies
  {
    var c := s.colonies[colonyId];
    :- ValidatePolicy(c, cap);
    var c' := c.(mintCap := Or(cap, c.mintCap), dual := Or(dual, c.dual));
    Ok(Logged(colonyId, actor, PolicyChanged(EffectiveMintCap(c'), c'.dual, approvedBy)).(cap := cap, dual := dual))
  }

  function PlanSetPolicy(p: Platform, o: Oracle, s: State, token: string, colonyId: Id, cap: Option<int64>, dual: Option<bool>): Result<Effect> {
    var asked := cap.Some? || dual.Some?;
    :- Need(asked, BadRequest);
    var actorId :- Actor(p, o, s, token);
    :- Need(HasRole(s.users[actorId], "super_admin"), Forbidden);
    :- Need(colonyId in s.colonies, NotFound);
    var c := s.colonies[colonyId];
    :- ValidatePolicy(c, cap);
    if c.dual then
      Ok(Logged(colonyId, actorId, PolicyProposed(o.newId))
         .(action := Some((o.newId, NewAction(p, o, actorId, PolicyAction, colonyId).(cap := cap, dual := dual)))))
    else ApplyPolicy(s, colonyId, cap, dual, actorId, "")
  }

  function PlanProposeForceRefund(p: Platform, o: Oracle, s: State, token: string, tradeId: Id): Result<Effect> {
    var actorId :- Actor(p, o, s, token);
    :- Need(tradeId in s.trades, NotFound);
    var t := s.trades[tradeId];
    :- Need(CanManageColony(s.users[actorId], t.buyerColony), Forbidden);
    :- Need(IsEscrowed(t.status), Conflict);
    var pa := NewAction(p, o, actorId, ForceRefundAction, t.buyerColony).(trade := tradeId, amount := t.price);
    Ok(Logged(t.buyerColony, actorId, ForceRefundProposed(o.newId, tradeId)).(action := Some((o.newId, pa))))
  }

  /** What an approval executes. */
  function ApproveEffect(p: Platform, o: Oracle, s: State, pa: Action, actorId: Id): (r: Result<Effect>)
    requires pa.colony in s.colonies
    ensures r.Ok? ==> r.value.action.None?
  {
    match pa.kind
    case MintAction => ApplyMint(s, pa.colony, pa.user, pa.amount, pa.proposedBy, actorId)
    case ForceRefundAction =>
      :- Need(pa.trade in s.trades && IsEscrowed(s.trades[pa.trade].status), Conflict);
      ApplyRefund(p, o, s, pa.trade, actorId, Some(pa.proposedBy), "")
    case PolicyAction => ApplyPolicy(s, pa.colony, pa.cap, pa.dual, pa.proposedBy, actorId)
  }

  function PlanDecide(p: Platform, o: Oracle, s: State, token: string, actionId: Id, approve: bool): Result<Effect> {
    var actorId :- Actor(p, o, s, token);
    :- Need(actionId in s.actions, NotFound);
    var pa := s.actions[actionId];
    :- Need(CanManageColony(s.users[actorId], pa.colony), Forbidden);
    :- Need(actorId != pa.proposedBy, Forbidden);
    :- Need(pa.status == Pending, Conflict);
    :- Need(p.parse(pa.expiresAt).Some? && !Past(p, o.now, pa.expiresAt), Conflict);
    :- Need(pa.colony in s.colonies, NotFound);
    var decided := pa.(status := if approve then Approved else Rejected, decidedBy := actorId, decidedAt := Stamp(p, o.now));
    var fx :- if approve then ApproveEffect(p, o, s, pa, actorId)
              else Ok(Logged(pa.colony, actorId, ApprovalRejected(actionId, pa.kind)));
    Ok(fx.(action := Some((actionId, decided))))
  }

  // ---- colonies and users ----------------------------------------------------

  function NewColony(id: Id, pub: string, priv: string): Colony {
    Colony(pub, priv, map[id := pub], map[], {}, [], [], 0, "", map[], map[], 0, 0, false)
  }

  function PlanCreateColony(p: Platform, o: Oracle, s: State, token: string): Result<Effect> {
    var actorId :- Actor(p, o, s, token);
    :- Need(HasRole(s.users[actorId], "super_admin"), Forbidden);
    Ok(Logged(o.newId, actorId, ColonyCreated).(founded := Some((o.newId, NewColony(o.newId, o.pub, o.priv)))))
  }

  function PlanTrustPeer(p: Platform, o: Oracle, s: State, token: string, colonyId: Id, peer: Id): Result<Effect> {
    var named := TrimSpace(peer) != "";
    :- Need(named, BadRequest);
    var actorId :- Actor(p, o, s, token);
    :- Need(colonyId in s.colonies, NotFound);
    :- Need(peer in s.colonies, NotFound);
    :- Need(CanManageColony(s.users[actorId], colonyId), Forbidden);
    Ok(Logged(colonyId, actorId, PeerTrusted(peer)).(trust := Some((peer, s.colonies[peer].pub))))
  }

  function PlanCreateUser(p: Platform, o: Oracle, s: State, token: string, colonyId: Id, roles: seq<string>): Result<Effect> {
    var actorId :- Actor(p, o, s, token);
    :- Need(colonyId in s.colonies, NotFound);
    :- Need(CanManageColony(s.users[actorId], colonyId), Forbidden);
    :- Need("super_admin" in roles ==> HasRole(s.users[actorId], "super_admin"), Forbidden);
    Ok(Logged(colonyId, actorId, UserCreated(o.newId))
       .(user := Some((o.newId, User(colonyId, roles, o.pub, o.priv, true, false))), account := Some((o.newId, 0))))
  }

  /** Every handler that posts exactly one effect. */
  function Plan(p: Platform, o: Oracle, s: State, token: string, request: Request): Result<Effect> {
    match request
    case CreateOffer(seller, buyer, asset, price, ttl) => PlanCreateOffer(p, o, s, token, seller, buyer, asset, price, ttl)
    case AcceptTrade(trade) => PlanAccept(p, o, s, token, trade)
    case CancelTrade(trade) => PlanCancel(p, o, s, token, trade)
    case ExportBundle(from, to) => PlanExport(p, o, s, token, from, to)
    case Mint(colony, user, amount, allowPropose) => PlanMint(p, o, s, token, colony, user, amount, allowPropose)
    case SetPolicy(colony, cap, dual) => PlanSetPolicy(p, o, s, token, colony, cap, dual)
    case ProposeForceRefund(trade) => PlanProposeForceRefund(p, o, s, token, trade)
    case DecideApproval(action, approve) => PlanDecide(p, o, s, token, action, approve)
    case CreateUser(colony, roles) => PlanCreateUser(p, o, s, token, colony, roles)
    case CreateColony => PlanCreateColony(p, o, s, token)
    case TrustPeer(colony, peer) => PlanTrustPeer(p, o, s, token, colony, peer)
  }

  /** One sweep over the trades in the order the loop visits them. */
  function Sweep(p: Platform, now: int, s: State, order: seq<Id>): State {
    if order == [] then s
    else
      var s' := Sweep(p, now, s, order[..|order| - 1]);
      var fx := PlanExpire(p, now, s', order[|order| - 1]);
      if fx.Some? then Post(p, now, s', fx.value) else s'
  }
}
