/** The handlers as the service runs them: step by step, on a working state updated in place. */
module Service {
  import opened Basics
  import opened TradeTable
  import opened Model
  import opened Handlers

  /** The state after a handler that planned `plan`: its effect posted, or nothing changed. */
  ghost function Posted(p: Platform, now: int, before: State, plan: Result<Effect>): State {
    if plan.Ok? then Post(p, now, before, plan.value) else before
  }

  ghost function PostedStep(p: Platform, now: int, before: State, plan: Result<Option<Effect>>): State {
    if plan.Ok? && plan.value.Some? then Post(p, now, before, plan.value.value) else before
  }

  /** Posting an effect that founds no colony and books no claim. */
  lemma PostPlain(p: Platform, now: int, s: State, fx: Effect)
    requires fx.founded.None? && fx.claim.None?
    ensures Post(p, now, s, fx) ==
            State(if fx.colony in s.colonies
                  then s.colonies[fx.colony := Append(p, fx.colony, Touch(s.colonies[fx.colony], fx), Stamp(p, now), fx.actor, fx.payload)]
                  else s.colonies,
                  Put(s.users, fx.user), s.sessions, Put(s.trades, fx.trade), Put(s.bundles, fx.bundle), Put(s.actions, fx.action))
  {
  }

  /** Posting a claim writes the debtor's obligations beside the creditor's entry. */
  lemma PostClaim(p: Platform, now: int, s: State, fx: Effect)
    requires fx.founded.None? && fx.claim.Some? && fx.colony in s.colonies && fx.claim.value.peer in s.colonies
    ensures var r := Post(p, now, s, fx);
            && r == State(r.colonies, Put(s.users, fx.user), s.sessions, Put(s.trades, fx.trade), Put(s.bundles, fx.bundle), Put(s.actions, fx.action))
            && r.colonies.Keys == s.colonies.Keys
            && forall c :: c in s.colonies ==> r.colonies[c] == Debited(c, fx,
                 if c == fx.colony then Append(p, c, Touch(s.colonies[c], fx), Stamp(p, now), fx.actor, fx.payload) else s.colonies[c])
  {
    hide Append, Touch;
  }

  function Debited(id: Id, fx: Effect, c: Colony): Colony {
    if fx.claim.Some? && id == fx.claim.value.peer
    then c.(netObligations := c.netObligations[fx.colony := fx.claim.value.obligations]) else c
  }

  /** Obligations play no part in a ledger entry. */
  lemma AppendCommutes(p: Platform, id: Id, fx: Effect, c: Colony, time: string, actor: Id, payload: Payload)
    ensures Append(p, id, Debited(id, fx, c), time, actor, payload) == Debited(id, fx, Append(p, id, c, time, actor, payload))
  {
    hide HashLedgerEntry;
  }

  /** A message that fails makes the whole import fail with its error. */
  lemma {:induction false} ImportStops(p: Platform, o: Oracle, s: State, source: Id, target: Id, messages: seq<Option<Envelope>>, n: nat, m: nat)
    requires source in s.colonies && target in s.colonies && n <= m <= |messages|
    requires ImportUpTo(p, o, s, source, target, messages, n).Err?
    ensures ImportUpTo(p, o, s, source, target, messages, m) == ImportUpTo(p, o, s, source, target, messages, n)
  {
    hide ImportMessage;
    if n < m {
      ImportStops(p, o, s, source, target, messages, n, m - 1);
    }
  }

  /** The loop's counters after one message. */
  ghost function Counted(acc: Progress, applied: Result<Option<bool>>, message: Option<Envelope>, now: State): Result<Progress>
    requires applied == Ok(Some(true)) ==> message.Some? && message.value.body.Body?
  {
    match applied
    case Err(e) => Err(e)
    case Ok(None) => Ok(acc.(state := now))
    case Ok(Some(false)) => Ok(acc.(state := now, skipped := acc.skipped + 1))
    case Ok(Some(true)) => Ok(Progress(now, acc.imported + 1, acc.skipped, acc.kinds + [message.value.kind], acc.trades + [message.value.body.trade]))
  }

  /** How the whole import follows from its check and its loop. */
  lemma ImportFollows(p: Platform, o: Oracle, s: State, token: string, colony: Id, id: Id, b: Bundle)
    ensures var check, whole := CheckImport(p, o, s, token, colony, b), Handlers.ImportBundle(p, o, s, token, colony, id, b);
            if check.Err? then whole == Err(check.error)
            else
              var r := ImportUpTo(p, o, s, b.from, colony, b.messages, |b.messages|);
              if r.Err? then whole == Err(r.error)
              else
                var acc := r.value;
                whole == Ok((Post(p, o.now, acc.state, ImportClosing(colony, check.value, id, b, acc.imported, acc.skipped)),
                             ImportResult(id, acc.imported, acc.skipped, |acc.state.colonies[colony].outbox| - |s.colonies[colony].outbox|,
                                          acc.kinds, acc.trades)))
  {
    hide CheckImport, ImportUpTo, Post, ImportClosing;
  }

  lemma ImportNone(p: Platform, o: Oracle, s: State, source: Id, target: Id, messages: seq<Option<Envelope>>)
    requires source in s.colonies && target in s.colonies
    ensures ImportUpTo(p, o, s, source, target, messages, 0) == Ok(Progress(s, 0, 0, [], []))
  {
  }

  lemma ImportNext(p: Platform, o: Oracle, s: State, source: Id, target: Id, messages: seq<Option<Envelope>>, i: nat)
    requires source in s.colonies && target in s.colonies && i < |messages|
    requires ImportUpTo(p, o, s, source, target, messages, i).Ok?
    ensures ImportUpTo(p, o, s, source, target, messages, i + 1) ==
            ImportMessage(p, o, i, source, target, ImportUpTo(p, o, s, source, target, messages, i).value, messages[i])
  {
    hide ImportMessage;
  }

  /** Only a payload that parses is ever applied. */
  lemma AppliedHasBody(p: Platform, o: Oracle, i: nat, s: State, source: Id, target: Id, env: Envelope)
    requires source in s.colonies && target in s.colonies
    ensures Applied(PlanEnvelope(p, o, i, s, source, target, env)) == Ok(true) ==> env.body.Body?
  {
    hide Post, Handlers.Credit, Handlers.DecideRefund, Handlers.ApplyRefund, StepOf;
  }

  /** An approval posts what it executes and stamps the decision on the action's row. */
  lemma PostDecision(p: Platform, now: int, s: State, fx: Effect, id: Id, decided: Action)
    requires fx.action.None?
    ensures Post(p, now, s, fx).actions == s.actions
    ensures Post(p, now, s, fx.(action := Some((id, decided)))) == Post(p, now, s, fx).(actions := s.actions[id := decided])
  {
    hide Append;
  }

  datatype MintOutcome = Minted(balance: int64) | Proposed(action: Id)

  datatype PolicyOutcome = PolicyApplied | PolicyPending(action: Id)

  /** Appending, field by field in the order of the code. */
  lemma Appends(p: Platform, id: Id, c: Colony, time: string, actor: Id, payload: Payload)
    ensures var e := NextEntry(p, id, c, time, actor, payload);
            Append(p, id, c, time, actor, payload) == c.(nextSeq := c.nextSeq + 1).(ledger := c.ledger + [e]).(lastHash := e.hash)
  {
    hide NextEntry;
  }

  /** What an import step answers: applied, already done, or refused. */
  ghost function Applied(plan: Result<Option<Effect>>): Result<bool> {
    if plan.Ok? then Ok(plan.value.Some?) else Err(plan.error)
  }

  /** What one sweep makes of a trade. */
  function Swept(p: Platform, now: int, t: Trade): Trade {
    if Due(p, now, t) then t.(status := Expired) else t
  }

  lemma SweepNone(p: Platform, now: int, s: State)
    ensures Sweep(p, now, s, []) == s
  {
  }

  function ExpiredOne(p: Platform, now: int, s: State, id: Id): State {
    var fx := PlanExpire(p, now, s, id);
    if fx.Some? then Post(p, now, s, fx.value) else s
  }

  lemma SweepNext(p: Platform, now: int, s: State, order: seq<Id>, id: Id)
    ensures Sweep(p, now, s, order + [id]) == ExpiredOne(p, now, Sweep(p, now, s, order), id)
  {
    hide Post, PlanExpire;
    assert (order + [id])[..|order|] == order;
  }

  function DueTrades(p: Platform, now: int, trades: map<Id, Trade>): set<Id> {
    set id | id in trades && Due(p, now, trades[id])
  }

  /** The sweep has visited every trade but the remaining ones. */
  predicate SweptExcept(p: Platform, now: int, before: map<Id, Trade>, trades: map<Id, Trade>, remaining: set<Id>) {
    trades.Keys == before.Keys
    && forall id :: id in before ==> trades[id] == if id in remaining then before[id] else Swept(p, now, before[id])
  }

  lemma SweptStep(p: Platform, now: int, before: map<Id, Trade>, trades: map<Id, Trade>, remaining: set<Id>, id: Id)
    requires SweptExcept(p, now, before, trades, remaining) && id in remaining && id in before
    ensures id in trades && trades[id] == before[id]
    ensures SweptExcept(p, now, before, trades[id := Swept(p, now, trades[id])], remaining - {id})
  {
  }

  lemma SweptEnds(p: Platform, now: int, before: map<Id, Trade>, trades: map<Id, Trade>)
    ensures SweptExcept(p, now, before, before, before.Keys)
    ensures SweptExcept(p, now, before, trades, {}) ==>
              trades.Keys == before.Keys && forall id :: id in trades ==> trades[id] == Swept(p, now, before[id])
  {
  }

  lemma DueAre(p: Platform, now: int, trades: map<Id, Trade>, ids: set<Id>)
    requires forall id :: id in ids <==> id in trades && Due(p, now, trades[id])
    ensures ids == DueTrades(p, now, trades)
  {
  }

  class AppState {
    var colonies: map<Id, Colony>
    var users: map<Id, User>
    var sessions: map<string, Session>
    var trades: map<Id, Trade>
    var bundles: map<Id, Bundle>
    var actions: map<Id, Action>

    function View(): State
      reads this
    {
      State(colonies, users, sessions, trades, bundles, actions)
    }

    /** A private copy of a state. */
    constructor (s: State)
      ensures View() == s
    {
      colonies, users, sessions := s.colonies, s.users, s.sessions;
      trades, bundles, actions := s.trades, s.bundles, s.actions;
    }

    // ---- shared steps ----------------------------------------------------------

    method AppendLedger(p: Platform, o: Oracle, id: Id, payload: Payload, actor: Id)
      requires id in colonies
      modifies this`colonies
      ensures colonies == old(colonies)[id := Append(p, id, old(colonies[id]), Stamp(p, o.now), actor, payload)]
    {
      hide HashLedgerEntry, Stamp, Append;
      var c := colonies[id];
      Appends(p, id, c, Stamp(p, o.now), actor, payload);
      c := c.(nextSeq := c.nextSeq + 1);
      var prev := c.lastHash;
      if prev == "" && |c.ledger| > 0 {
        prev := c.ledger[|c.ledger| - 1].hash;
      }
      var entry := Entry(c.nextSeq, id, Stamp(p, o.now), actor, payload, prev, "");
      entry := entry.(hash := HashLedgerEntry(p, entry));
      assert entry == NextEntry(p, id, colonies[id], Stamp(p, o.now), actor, payload);
      hide NextEntry;
      c := c.(ledger := c.ledger + [entry]);
      c := c.(lastHash := entry.hash);
      colonies := colonies[id := c];
    }

    method Send(id: Id, env: Envelope)
      requires id in colonies
      modifies this`colonies
      ensures colonies == old(colonies)[id := old(colonies[id]).(outbox := old(colonies[id]).outbox + [env])]
    {
      colonies := colonies[id := colonies[id].(outbox := colonies[id].outbox + [env])];
    }

    method SetBalance(id: Id, user: Id, balance: int64)
      requires id in colonies
      modifies this`colonies
      ensures colonies == old(colonies)[id := old(colonies[id]).(accounts := old(colonies[id]).accounts[user := balance])]
    {
      colonies := colonies[id := colonies[id].(accounts := colonies[id].accounts[user := balance])];
    }

    /** AdvanceTrade: the only writer of a status. */
    method AdvanceTrade(t: Id, to: Status) returns (ok: bool)
      requires t in trades
      modifies this`trades
      ensures ok <==> TransitionAllowed(old(trades[t]).status, to)
      ensures trades == if ok then old(trades)[t := old(trades[t]).(status := to)] else old(trades)
    {
      if !TransitionAllowed(trades[t].status, to) {
        return false;
      }
      trades := trades[t := trades[t].(status := to)];
      return true;
    }

    /** StepTrade: apply `pred -> to`, skip a duplicate, refuse a message that came too early. */
    method StepTrade(t: Id, pred: Status, to: Status) returns (r: Result<bool>)
      requires t in trades
      modifies this`trades
      ensures var step := Step(old(trades[t]), pred, to);
              match step
              case Err(e) => r == Err(e) && trades == old(trades)
              case Ok(None) => r == Ok(false) && trades == old(trades)
              case Ok(Some(t')) => r == Ok(true) && trades == old(trades)[t := t']
    {
      var kind := ClassifyStep(trades[t].status, pred);
      match kind {
        case StepApply =>
          var ok := AdvanceTrade(t, to);
          return if ok then Ok(true) else Err(Conflict);
        case StepTooEarly => return Err(Conflict);
        case StepDuplicate => return Ok(false);
      }
    }

    // ---- offers ------------------------------------------------------------------

    method RecordOffer(p: Platform, o: Oracle, colony: Id, actor: Id, tradeId: Id, t: Trade, env: Envelope)
      requires colony in colonies
      modifies this
      ensures View() == Post(p, o.now, old(View()), OfferEffect(colony, actor, tradeId, t, env))
    {
      hide Post, Append;
      PostPlain(p, o.now, View(), OfferEffect(colony, actor, tradeId, t, env));
      ghost var goal := Post(p, o.now, View(), OfferEffect(colony, actor, tradeId, t, env));
      Send(colony, env);
      trades := trades[tradeId := t];
      AppendLedger(p, o, colony, OfferCreated(tradeId, t.price, t.buyer, env.id, t.expiresAt), actor);
      assert colonies == goal.colonies;
    }

    method CreateOffer(p: Platform, o: Oracle, token: string, sellerId: Id, buyerId: Id, rawAsset: string, price: int64, ttlSeconds: int64)
      returns (r: Result<Trade>)
      modifies this
      ensures var plan := PlanCreateOffer(p, o, old(View()), token, sellerId, buyerId, rawAsset, price, ttlSeconds);
              && View() == Posted(p, o.now, old(View()), plan)
              && r == if plan.Ok? then Ok(plan.value.trade.value.1) else Err(plan.error)
    {
      hide Post, Actor, TrimSpace, Wrap, Stamp, HasRole, Sealed;
      var asset := TrimSpace(rawAsset);
      if asset == "" || !ValidAmount(price) {
        return Err(BadRequest);
      }
      var ttl: int := DEFAULT_OFFER_TTL;
      if ttlSeconds != 0 {
        ttl := Wrap(ttlSeconds * SECOND);
        if ttl < MIN_OFFER_TTL || ttl > MAX_OFFER_TTL {
          return Err(BadRequest);
        }
      }
      var actor := Actor(p, o, View(), token);
      if actor.Err? {
        return Err(actor.error);
      }
      if sellerId !in users || buyerId !in users {
        return Err(NotFound);
      }
      var seller, buyer := users[sellerId], users[buyerId];
      if seller.colony == "" || buyer.colony == "" || sellerId == buyerId || seller.colony == buyer.colony {
        return Err(BadRequest);
      }
      if actor.value != sellerId && !HasRole(users[actor.value], "super_admin") {
        return Err(Forbidden);
      }
      if !HasRole(users[actor.value], "super_admin") && !HasRole(users[actor.value], "trader") {
        return Err(Forbidden);
      }
      if seller.colony !in colonies || buyer.colony !in colonies {
        return Err(NotFound);
      }
      var tradeId, createdAt, expiresAt := o.newId, Stamp(p, o.now), Stamp(p, o.now + ttl);
      var sig := p.sign(seller.priv,
        OfferSig(tradeId, asset, price, sellerId, seller.colony, buyerId, buyer.colony, createdAt, expiresAt));
      var body := BLANK_BODY.(trade := tradeId, asset := asset, price := price, seller := sellerId, sellerColony := seller.colony,
        buyer := buyerId, buyerColony := buyer.colony, createdAt := createdAt, expiresAt := expiresAt, sellerSig := sig);
      var env := Sealed(p, colonies[seller.colony].priv, o.envelopeId(0), "offer", seller.colony, buyer.colony, body, createdAt);
      var trade := Trade(asset, price, sellerId, buyerId, seller.colony, buyer.colony, OfferPendingExport,
        env.id, "", "", "", "", sig, "", createdAt, "", "", "", expiresAt, "");
      RecordOffer(p, o, seller.colony, actor.value, tradeId, trade, env);
      return Ok(trade);
    }

    // ---- acceptances --------------------------------------------------------------

    /** The debit, the queued envelope, the row and the entry, once no check is left. */
    method RecordAcceptance(p: Platform, o: Oracle, colony: Id, actor: Id, tradeId: Id, balance: int64, env: Envelope, at: string, sig: string)
      returns (t: Trade)
      requires colony in colonies && tradeId in trades && TransitionAllowed(trades[tradeId].status, AcceptancePendingExport)
      modifies this
      ensures var fx := AcceptanceEffect(colony, actor, tradeId, old(trades[tradeId]).(status := AcceptancePendingExport), balance, env, at, sig);
              View() == Post(p, o.now, old(View()), fx) && t == fx.trade.value.1
    {
      hide Post, Append;
      var trade := trades[tradeId];
      ghost var fx := AcceptanceEffect(colony, actor, tradeId, trade.(status := AcceptancePendingExport), balance, env, at, sig);
      ghost var goal := Post(p, o.now, View(), fx);
      PostPlain(p, o.now, View(), fx);
      SetBalance(colony, trade.buyer, balance);
      Send(colony, env);
      var advanced := AdvanceTrade(tradeId, AcceptancePendingExport);
      trades := trades[tradeId := trades[tradeId].(acceptedAt := at, buyerSig := sig, acceptanceEnvelope := env.id)];
      AppendLedger(p, o, colony, TradeAccepted(tradeId, trade.price, colonies[colony].accounts[trade.buyer], env.id), actor);
      assert colonies == goal.colonies;
      assert trades == goal.trades;
      return trades[tradeId];
    }

    method AcceptTrade(p: Platform, o: Oracle, token: string, tradeId: Id) returns (r: Result<Trade>)
      modifies this
      ensures var plan := PlanAccept(p, o, old(View()), token, tradeId);
              && View() == Posted(p, o.now, old(View()), plan)
              && r == if plan.Ok? then Ok(plan.value.trade.value.1) else Err(plan.error)
    {
      hide Post, Actor, Wrap, IsExpired;
      var actor := Actor(p, o, View(), token);
      if actor.Err? {
        return Err(actor.error);
      }
      if tradeId !in trades {
        return Err(NotFound);
      }
      var trade := trades[tradeId];
      if trade.status != OfferReceived || IsExpired(p, trade, o.now) {
        return Err(Conflict);
      }
      if trade.buyer !in users {
        return Err(NotFound);
      }
      var buyer := users[trade.buyer];
      if actor.value != trade.buyer && !HasRole(users[actor.value], "super_admin") {
        return Err(Forbidden);
      }
      if !HasRole(users[actor.value], "super_admin") && !HasRole(users[actor.value], "trader") {
        return Err(Forbidden);
      }
      if buyer.colony !in colonies || trade.buyer !in colonies[buyer.colony].accounts {
        return Err(NotFound);
      }
      var funds := colonies[buyer.colony].accounts[trade.buyer];
      if funds < trade.price {
        return Err(Conflict);
      }
      var acceptedAt := Stamp(p, o.now);
      var sig := p.sign(buyer.priv, AcceptanceSig(tradeId, trade.buyer, buyer.colony, trade.price, acceptedAt));
      var body := BLANK_BODY.(trade := tradeId, buyer := trade.buyer, buyerColony := buyer.colony, debit := trade.price,
        acceptedAt := acceptedAt, buyerSig := sig);
      var env := Sealed(p, colonies[buyer.colony].priv, o.envelopeId(0), "acceptance", buyer.colony, trade.sellerColony, body, acceptedAt);
      assert TransitionAllowed(OfferReceived, AcceptancePendingExport) by { TableRows(); }
      var accepted := RecordAcceptance(p, o, buyer.colony, actor.value, tradeId, Wrap(funds - trade.price), env, acceptedAt, sig);
      return Ok(accepted);
    }

    // ---- cancellation and expiry -----------------------------------------------------

    method CloseOffer(p: Platform, o: Oracle, actor: Id, tradeId: Id, to: Status, payload: Payload)
      returns (t: Trade)
      requires tradeId in trades && TransitionAllowed(trades[tradeId].status, to)
      modifies this
      ensures t == old(trades[tradeId]).(status := to) && trades == old(trades)[tradeId := t]
      ensures View() == Post(p, o.now, old(View()), CloseEffect(actor, tradeId, t, payload))
    {
      hide Post, Append;
      ghost var fx := CloseEffect(actor, tradeId, trades[tradeId].(status := to), payload);
      PostPlain(p, o.now, View(), fx);
      ghost var goal := Post(p, o.now, View(), fx);
      var seller := trades[tradeId].sellerColony;
      var ok := AdvanceTrade(tradeId, to);
      if seller in colonies {
        assert Touch(colonies[seller], fx) == colonies[seller] by {
          assert colonies[seller].outbox + [] == colonies[seller].outbox;
        }
        AppendLedger(p, o, seller, payload, actor);
      }
      assert colonies == goal.colonies;
      return trades[tradeId];
    }

    method RequestCancel(p: Platform, o: Oracle, colony: Id, actor: Id, tradeId: Id, env: Envelope)
      returns (t: Trade)
      requires colony in colonies && tradeId in trades
      modifies this
      ensures t == old(trades[tradeId]).(cancelEnvelope := env.id)
      ensures View() == Post(p, o.now, old(View()), CancelEffect(colony, actor, tradeId, old(trades[tradeId]), env))
    {
      hide Post, Append;
      ghost var fx := CancelEffect(colony, actor, tradeId, trades[tradeId], env);
      PostPlain(p, o.now, View(), fx);
      ghost var goal := Post(p, o.now, View(), fx);
      Send(colony, env);
      trades := trades[tradeId := trades[tradeId].(cancelEnvelope := env.id)];
      AppendLedger(p, o, colony, CancelRequested(tradeId, env.id), actor);
      assert colonies == goal.colonies;
      return trades[tradeId];
    }

    method CancelTrade(p: Platform, o: Oracle, token: string, tradeId: Id) returns (r: Result<Trade>)
      modifies this
      ensures var plan := PlanCancel(p, o, old(View()), token, tradeId);
              && View() == Posted(p, o.now, old(View()), plan)
              && r == if plan.Ok? then Ok(plan.value.trade.value.1) else Err(plan.error)
    {
      hide Post, Actor;
      TableRows();
      var actor := Actor(p, o, View(), token);
      if actor.Err? {
        return Err(actor.error);
      }
      if tradeId !in trades {
        return Err(NotFound);
      }
      var trade := trades[tradeId];
      if !HasRole(users[actor.value], "super_admin") && !HasRole(users[actor.value], "trader") {
        return Err(Forbidden);
      }
      if trade.status == OfferPendingExport || trade.status == OfferReceived {
        if actor.value != trade.seller && !HasRole(users[actor.value], "super_admin") {
          return Err(Forbidden);
        }
        var closed := CloseOffer(p, o, actor.value, tradeId, Cancelled, OfferCancelled(tradeId));
        return Ok(closed);
      } else if trade.status == AcceptancePendingExport {
        if trade.buyer !in users {
          return Err(NotFound);
        }
        var buyer := users[trade.buyer];
        if actor.value != trade.buyer && !HasRole(users[actor.value], "super_admin") {
          return Err(Forbidden);
        }
        if buyer.colony !in colonies {
          return Err(NotFound);
        }
        var requestedAt := Stamp(p, o.now);
        var sig := p.sign(buyer.priv, CancelSig(tradeId, trade.buyer, buyer.colony, requestedAt));
        var body := BLANK_BODY.(trade := tradeId, buyer := trade.buyer, buyerColony := buyer.colony,
          requestedAt := requestedAt, buyerSig := sig);
        var env := Sealed(p, colonies[buyer.colony].priv, o.envelopeId(0), "cancel_request", buyer.colony, trade.sellerColony, body, requestedAt);
        var requested := RequestCancel(p, o, buyer.colony, actor.value, tradeId, env);
        return Ok(requested);
      }
      return Err(Conflict);
    }

    /** One turn of the sweep. */
    method ExpireOffer(p: Platform, o: Oracle, id: Id) returns (closed: bool)
      requires id in trades
      modifies this
      ensures closed == Due(p, o.now, old(trades)[id])
      ensures trades == old(trades)[id := Swept(p, o.now, old(trades)[id])]
      ensures View() == ExpiredOne(p, o.now, old(View()), id)
    {
      hide Post, IsExpired;
      if !Due(p, o.now, trades[id]) {
        return false;
      }
      TableRows();
      var expired := CloseOffer(p, o, "", id, Expired, OfferExpired(id, trades[id].expiresAt));
      return true;
    }

    /** The sweep: the live trades are visited once each, in any order. */
    method SweepExpired(p: Platform, o: Oracle) returns (count: nat, ghost order: seq<Id>)
      modifies this
      ensures View() == Sweep(p, o.now, old(View()), order)
      ensures forall id :: id in order <==> id in old(trades)
      ensures trades.Keys == old(trades).Keys && forall id :: id in trades ==> trades[id] == Swept(p, o.now, old(trades)[id])
      ensures count == |DueTrades(p, o.now, old(trades))|
    {
      hide Post, Due, Sweep, Swept, ExpiredOne, DueTrades, SweptExcept;
      count, order := 0, [];
      var remaining := trades.Keys;
      ghost var start, before := View(), trades;
      ghost var closed: set<Id> := {};
      SweepNone(p, o.now, start);
      SweptEnds(p, o.now, before, trades);
      while remaining != {}
        invariant remaining <= trades.Keys == before.Keys
        invariant forall id :: id in order <==> id in before && id !in remaining
        invariant View() == Sweep(p, o.now, start, order)
        invariant SweptExcept(p, o.now, before, trades, remaining)
        invariant forall id :: id in closed <==> id in before && id !in remaining && Due(p, o.now, before[id])
        invariant count == |closed|
        decreases remaining
      {
        var id :| id in remaining;
        SweepNext(p, o.now, start, order, id);
        SweptStep(p, o.now, before, trades, remaining, id);
        var due := ExpireOffer(p, o, id);
        if due {
          count := count + 1;
          closed := closed + {id};
        }
        remaining := remaining - {id};
        order := order + [id];
      }
      SweptEnds(p, o.now, before, trades);
      DueAre(p, o.now, before, closed);
    }

    // ---- bundles -----------------------------------------------------------------------

    method ExportBundle(p: Platform, o: Oracle, token: string, from: Id, to: Id) returns (r: Result<Bundle>)
      modifies this
      ensures var plan := PlanExport(p, o, old(View()), token, from, to);
              && View() == Posted(p, o.now, old(View()), plan)
              && r == if plan.Ok? then Ok(plan.value.bundle.value.1) else Err(plan.error)
    {
      hide Post, Append, Actor, Stamp, Wrapped;
      if from == "" || to == "" {
        return Err(BadRequest);
      }
      var actor := Actor(p, o, View(), token);
      if actor.Err? {
        return Err(actor.error);
      }
      if !CanRelay(users[actor.value], from) {
        return Err(Forbidden);
      }
      if from !in colonies || to !in colonies {
        return Err(NotFound);
      }
      var outbox := colonies[from].outbox;
      var messages, remaining: seq<Envelope> := [], [];
      for i := 0 to |outbox|
        invariant messages == Picked(outbox[..i], to) && remaining == Kept(outbox[..i], to)
      {
        assert outbox[..i + 1][..i] == outbox[..i];
        if outbox[i].to == to {
          messages := messages + [outbox[i]];
        } else {
          remaining := remaining + [outbox[i]];
        }
      }
      assert outbox[..|outbox|] == outbox;
      var bundle := RecordExport(p, o, from, to, actor.value, messages, remaining);
      return Ok(bundle);
    }

    method RecordExport(p: Platform, o: Oracle, from: Id, to: Id, actor: Id, messages: seq<Envelope>, remaining: seq<Envelope>) returns (bundle: Bundle)
      requires from in colonies && remaining == Kept(colonies[from].outbox, to)
      modifies this
      ensures var fx := ExportEffect(from, actor, o.newId, to, Stamp(p, o.now), messages);
              View() == Post(p, o.now, old(View()), fx) && fx.bundle == Some((o.newId, bundle))
    {
      hide Post, Append, Stamp, Wrapped, Kept;
      ghost var fx := ExportEffect(from, actor, o.newId, to, Stamp(p, o.now), messages);
      ghost var goal := Post(p, o.now, View(), fx);
      PostPlain(p, o.now, View(), fx);
      assert Touch(colonies[from], fx).outbox == remaining + [] == remaining;
      colonies := colonies[from := colonies[from].(outbox := remaining)];
      bundle := Bundle(from, to, Stamp(p, o.now), Wrapped(messages));
      bundles := bundles[o.newId := bundle];
      AppendLedger(p, o, from, BundleExported(o.newId, to, |messages|), actor);
      assert colonies == goal.colonies;
    }

    method ImportOffer(p: Platform, o: Oracle, source: Id, target: Id, env: Envelope) returns (r: Result<bool>)
      requires target in colonies
      modifies this
      ensures var plan := PlanImportOffer(p, old(View()), source, target, env);
              View() == PostedStep(p, o.now, old(View()), plan) && r == Applied(plan)
    {
      hide Post, Append, TrimSpace;
      if env.body.Malformed? {
        return Err(BadRequest);
      }
      var b := env.body;
      if b.sellerColony != source || b.buyerColony != target || !ValidAmount(b.price) || TrimSpace(b.asset) == "" {
        return Err(BadRequest);
      }
      if b.seller !in users || b.buyer !in users {
        return Err(NotFound);
      }
      if users[b.seller].colony != source || users[b.buyer].colony != target {
        return Err(BadRequest);
      }
      if !p.verify(users[b.seller].pub, OfferSig(b.trade, b.asset, b.price, b.seller, b.sellerColony, b.buyer, b.buyerColony, b.createdAt, b.expiresAt), b.sellerSig) {
        return Err(BadRequest);
      }
      var row: Trade;
      if b.trade !in trades {
        row := Trade(b.asset, b.price, b.seller, b.buyer, b.sellerColony, b.buyerColony, OfferReceived,
          env.id, "", "", "", "", b.sellerSig, "", b.createdAt, "", "", "", b.expiresAt, "");
      } else {
        var t := trades[b.trade];
        if t.expiresAt != b.expiresAt || t.asset != b.asset || t.price != b.price || t.seller != b.seller || t.buyer != b.buyer
           || t.sellerColony != b.sellerColony || t.buyerColony != b.buyerColony {
          return Err(BadRequest);
        }
        var applied := StepTrade(b.trade, OfferPendingExport, OfferReceived);
        if applied.Err? || !applied.value {
          return applied;
        }
        row := trades[b.trade].(offerEnvelope := env.id, sellerSig := b.sellerSig);
      }
      RecordRow(p, o, target, b.buyer, b.trade, row, OfferImported(b.trade, source, env.id), old(View()));
      return Ok(true);
    }

    /** Writing a trade's row and its ledger entry; the row may already have been advanced. */
    method RecordRow(p: Platform, o: Oracle, colony: Id, actor: Id, tradeId: Id, row: Trade, payload: Payload, ghost before: State)
      requires colony in colonies
      requires View() == before.(trades := trades) && trades[tradeId := row] == before.trades[tradeId := row]
      modifies this
      ensures View() == Post(p, o.now, before, Logged(colony, actor, payload).(trade := Some((tradeId, row))))
    {
      hide Post, Append;
      ghost var fx := Logged(colony, actor, payload).(trade := Some((tradeId, row)));
      ghost var goal := Post(p, o.now, before, fx);
      PostPlain(p, o.now, before, fx);
      trades := trades[tradeId := row];
      assert trades == before.trades[tradeId := row];
      assert Touch(colonies[colony], fx) == colonies[colony] by {
        assert colonies[colony].outbox + [] == colonies[colony].outbox;
      }
      AppendLedger(p, o, colony, payload, actor);
      assert colonies == goal.colonies;
    }

    /** A colony's signed reply to a trade: one envelope leaves and the row remembers it. */
    method RecordReply(p: Platform, o: Oracle, colony: Id, tradeId: Id, row: Trade, trigger: Id, env: Envelope, reason: string, ghost before: State)
      requires colony in colonies
      requires View() == before.(trades := trades) && trades[tradeId := row] == before.trades[tradeId := row]
      modifies this
      ensures View() == Post(p, o.now, before, RefundEffect(colony, tradeId, row, trigger, env, reason))
    {
      hide Post, Append;
      ghost var fx := RefundEffect(colony, tradeId, row, trigger, env, reason);
      ghost var goal := Post(p, o.now, before, fx);
      PostPlain(p, o.now, before, fx);
      trades := trades[tradeId := row];
      Send(colony, env);
      AppendLedger(p, o, colony, RefundDecided(tradeId, trigger, env.id, reason), row.seller);
      assert colonies == goal.colonies;
    }

    /** The seller colony decides not to credit; no balance moves. */
    method DecideRefund(p: Platform, o: Oracle, i: nat, source: Id, target: Id, tradeId: Id, trigger: Envelope, reason: string)
      returns (r: Result<bool>)
      requires target in colonies && tradeId in trades
      modifies this
      ensures var plan := Handlers.DecideRefund(p, o, i, old(View()), source, target, tradeId, trigger, reason);
              && View() == Posted(p, o.now, old(View()), plan)
              && r == if plan.Ok? then Ok(true) else Err(plan.error)
    {
      hide Post, RefundEffect;
      var t, decidedAt := trades[tradeId], Stamp(p, o.now);
      var body := BLANK_BODY.(trade := tradeId, buyer := t.buyer, buyerColony := source, sellerColony := target,
        refund := t.price, reason := reason, decidedAt := decidedAt);
      var env := Sealed(p, colonies[target].priv, o.envelopeId(i), "refund", target, source, body, decidedAt);
      var advanced := AdvanceTrade(tradeId, RefundPendingExport);
      if !advanced {
        return Err(Conflict);
      }
      var row := trades[tradeId];
      if trigger.kind == "cancel_request" {
        row := row.(cancelEnvelope := trigger.id);
      } else if trigger.kind == "acceptance" {
        row := row.(acceptanceEnvelope := trigger.id);
      }
      row := row.(refundEnvelope := env.id);
      RecordReply(p, o, target, tradeId, row, trigger.id, env, reason, old(View()));
      return Ok(true);
    }

    /** Seller balance, claim and obligation, outbox and row, once every check has passed. */
    method RecordCredit(p: Platform, o: Oracle, target: Id, tradeId: Id, row: Trade, env: Id, balance: int64, claim: Claim, settlement: Envelope, ghost before: State)
      requires target in colonies && claim.peer in colonies
      requires View() == before.(trades := trades) && trades[tradeId := row] == before.trades[tradeId := row]
      modifies this
      ensures View() == Post(p, o.now, before, CreditEffect(target, tradeId, row, env, balance, claim, settlement))
    {
      hide Post, Append, Touch, Debited;
      ghost var fx := CreditEffect(target, tradeId, row, env, balance, claim, settlement);
      ghost var goal := Post(p, o.now, before, fx);
      PostClaim(p, o.now, before, fx);
      AppendCommutes(p, target, fx, Touch(before.colonies[target], fx), Stamp(p, o.now), fx.actor, fx.payload);
      MoveCredit(target, fx, row.seller, balance, claim, settlement);
      trades := trades[tradeId := row];
      AppendLedger(p, o, target, AcceptanceImported(tradeId, env, row.price, balance, settlement.id), row.seller);
      assert colonies == goal.colonies;
    }

    method MoveCredit(target: Id, ghost fx: Effect, seller: Id, balance: int64, claim: Claim, settlement: Envelope)
      requires target in colonies && claim.peer in colonies
      requires fx.account == Some((seller, balance)) && fx.claim == Some(claim) && fx.emit == [settlement] && fx.drain.None?
      requires fx.colony == target && fx.trust.None? && fx.minted.None? && fx.cap.None? && fx.dual.None?
      modifies this`colonies
      ensures colonies.Keys == old(colonies).Keys
      ensures forall c :: c in colonies ==>
                colonies[c] == Debited(c, fx, if c == target then Touch(old(colonies)[c], fx) else old(colonies)[c])
    {
      SetBalance(target, seller, balance);
      BookClaim(target, claim);
      Send(target, settlement);
    }

    method BookClaim(target: Id, claim: Claim)
      requires target in colonies && claim.peer in colonies
      modifies this`colonies
      ensures colonies.Keys == old(colonies).Keys
      ensures forall c :: c in colonies ==>
                colonies[c] == old(colonies)[c].(
                  netClaims := if c == target then old(colonies)[c].netClaims[claim.peer := claim.claims] else old(colonies)[c].netClaims,
                  netObligations := if c == claim.peer then old(colonies)[c].netObligations[target := claim.obligations] else old(colonies)[c].netObligations)
    {
      colonies := colonies[target := colonies[target].(netClaims := colonies[target].netClaims[claim.peer := claim.claims])];
      colonies := colonies[claim.peer :=
        colonies[claim.peer].(netObligations := colonies[claim.peer].netObligations[target := claim.obligations])];
    }

    method Credit(p: Platform, o: Oracle, i: nat, source: Id, target: Id, env: Envelope) returns (r: Result<bool>)
      requires source in colonies && target in colonies && env.body.Body? && env.body.trade in trades
      requires trades[env.body.trade].seller in colonies[target].accounts
      modifies this
      ensures var plan := Handlers.Credit(p, o, i, old(View()), source, target, env);
              && View() == Posted(p, o.now, old(View()), plan)
              && r == if plan.Ok? then Ok(true) else Err(plan.error)
    {
      hide Post, CreditEffect;
      var b, t := env.body, trades[env.body.trade];
      var balance := AddChecked(colonies[target].accounts[t.seller], t.price);
      if balance.Err? {
        return Err(balance.error);
      }
      var claims := AddChecked(Get(colonies[target].netClaims, source), t.price);
      if claims.Err? {
        return Err(claims.error);
      }
      var obligations := AddChecked(Get(colonies[source].netObligations, target), t.price);
      if obligations.Err? {
        return Err(obligations.error);
      }
      var settledAt := Stamp(p, o.now);
      var body := BLANK_BODY.(trade := b.trade, seller := t.seller, sellerColony := target, credit := t.price,
        acceptedFrom := source, settledAt := settledAt);
      var settlement := Sealed(p, colonies[target].priv, o.envelopeId(i), "settlement", target, source, body, settledAt);
      var advanced := AdvanceTrade(b.trade, SettlementPendingExport);
      if !advanced {
        return Err(Conflict);
      }
      var row := trades[b.trade].(acceptedAt := b.acceptedAt, acceptanceEnvelope := env.id, buyerSig := b.buyerSig,
        settledAt := settledAt, settlementEnvelope := settlement.id);
      RecordCredit(p, o, target, b.trade, row, env.id, balance.value, Claim(source, claims.value, obligations.value), settlement, old(View()));
      return Ok(true);
    }

    method ImportAcceptance(p: Platform, o: Oracle, i: nat, source: Id, target: Id, env: Envelope) returns (r: Result<bool>)
      requires source in colonies && target in colonies
      modifies this
      ensures var plan := PlanImportAcceptance(p, o, i, old(View()), source, target, env);
              View() == PostedStep(p, o.now, old(View()), plan) && r == Applied(plan)
    {
      hide Post, Handlers.Credit, Handlers.DecideRefund, AcceptedAfterExpiry, StepOf, Settles;
      if env.body.Malformed? {
        return Err(BadRequest);
      }
      var b := env.body;
      if b.buyerColony != source {
        return Err(BadRequest);
      }
      if b.buyer !in users {
        return Err(NotFound);
      }
      if users[b.buyer].colony != source {
        return Err(BadRequest);
      }
      if !p.verify(users[b.buyer].pub, AcceptanceSig(b.trade, b.buyer, b.buyerColony, b.debit, b.acceptedAt), b.buyerSig) {
        return Err(BadRequest);
      }
      if b.trade !in trades {
        return Err(NotFound);
      }
      var t := trades[b.trade];
      if t.sellerColony != target || t.buyerColony != source || t.buyer != b.buyer || t.price != b.debit {
        return Err(BadRequest);
      }
      if t.seller !in users || t.seller !in colonies[target].accounts {
        return Err(NotFound);
      }
      match t.status {
        case AcceptancePendingExport =>
          var late := AcceptedAfterExpiry(p, t, b.acceptedAt);
          if late.Err? {
            return Err(late.error);
          }
          if late.value {
            r := DecideRefund(p, o, i, source, target, b.trade, env, LATE_REASON);
          } else {
            r := Credit(p, o, i, source, target, env);
          }
        case Expired | Cancelled =>
          if t.acceptanceEnvelope == "" {
            return Err(Conflict);
          }
          r := DecideRefund(p, o, i, source, target, b.trade, env, if t.status == Expired then EXPIRED_REASON else CANCELLED_REASON);
        case _ =>
          var kind := ClassifyStep(t.status, AcceptancePendingExport);
          return if kind == StepTooEarly then Err(Conflict) else Ok(false);
      }
    }

    method ImportSettlement(p: Platform, o: Oracle, source: Id, target: Id, env: Envelope) returns (r: Result<bool>)
      requires target in colonies
      modifies this
      ensures var plan := PlanImportSettlement(p, o, old(View()), source, target, env);
              View() == PostedStep(p, o.now, old(View()), plan) && r == Applied(plan)
    {
      hide Post;
      if env.body.Malformed? {
        return Err(BadRequest);
      }
      var b := env.body;
      if b.trade !in trades {
        return Err(NotFound);
      }
      var t := trades[b.trade];
      if b.sellerColony != source || b.acceptedFrom != target || b.seller != t.seller
         || t.buyerColony != target || t.sellerColony != source || t.price != b.credit {
        return Err(BadRequest);
      }
      var applied := StepTrade(b.trade, SettlementPendingExport, Completed);
      if applied.Err? || !applied.value {
        return applied;
      }
      var row := trades[b.trade].(settledAt := b.settledAt, completedAt := Stamp(p, o.now), settlementEnvelope := env.id);
      RecordRow(p, o, target, t.buyer, b.trade, row, TradeCompleted(b.trade, env.id, row.completedAt), old(View()));
      return Ok(true);
    }

    method ImportCancel(p: Platform, o: Oracle, i: nat, source: Id, target: Id, env: Envelope) returns (r: Result<bool>)
      requires target in colonies
      modifies this
      ensures var plan := PlanImportCancel(p, o, i, old(View()), source, target, env);
              View() == PostedStep(p, o.now, old(View()), plan) && r == Applied(plan)
    {
      hide Post, Handlers.DecideRefund;
      if env.body.Malformed? {
        return Err(BadRequest);
      }
      var b := env.body;
      if b.buyerColony != source || b.buyer !in users || users[b.buyer].colony != source {
        return Err(BadRequest);
      }
      if !p.verify(users[b.buyer].pub, CancelSig(b.trade, b.buyer, b.buyerColony, b.requestedAt), b.buyerSig) {
        return Err(BadRequest);
      }
      if b.trade !in trades {
        return Err(NotFound);
      }
      var t := trades[b.trade];
      if t.sellerColony != target || t.buyerColony != source || t.buyer != b.buyer {
        return Err(BadRequest);
      }
      var kind := ClassifyStep(t.status, AcceptancePendingExport);
      match kind {
        case StepApply => r := DecideRefund(p, o, i, source, target, b.trade, env, CANCEL_REASON);
        case StepTooEarly => return Err(Conflict);
        case StepDuplicate => return Ok(false);
      }
    }

    method RecordPayback(p: Platform, o: Oracle, actor: Id, tradeId: Id, row: Trade, balance: int64, payload: Payload, ghost before: State)
      requires row.buyerColony in colonies
      requires View() == before.(trades := trades) && trades[tradeId := row] == before.trades[tradeId := row]
      modifies this
      ensures View() == Post(p, o.now, before, PaybackEffect(actor, tradeId, row, balance, payload))
    {
      hide Post, Append;
      ghost var fx := PaybackEffect(actor, tradeId, row, balance, payload);
      ghost var goal := Post(p, o.now, before, fx);
      PostPlain(p, o.now, before, fx);
      assert colonies[row.buyerColony].outbox + [] == colonies[row.buyerColony].outbox;
      SetBalance(row.buyerColony, row.buyer, balance);
      trades := trades[tradeId := row];
      AppendLedger(p, o, row.buyerColony, payload, actor);
      assert colonies == goal.colonies;
    }

    /** Gives the price back to the buyer, for refunds by envelope and by force alike. */
    method ApplyRefund(p: Platform, o: Oracle, tradeId: Id, actor: Id, forcedBy: Option<Id>, envelope: Id) returns (r: Result<bool>)
      requires tradeId in trades
      modifies this
      ensures var plan := Handlers.ApplyRefund(p, o, old(View()), tradeId, actor, forcedBy, envelope);
              && View() == Posted(p, o.now, old(View()), plan)
              && r == if plan.Ok? then Ok(true) else Err(plan.error)
    {
      hide Post, PaybackEffect;
      var t := trades[tradeId];
      if t.buyerColony !in colonies || t.buyer !in colonies[t.buyerColony].accounts {
        return Err(NotFound);
      }
      var balance := AddChecked(colonies[t.buyerColony].accounts[t.buyer], t.price);
      if balance.Err? {
        return Err(balance.error);
      }
      var advanced := AdvanceTrade(tradeId, Refunded);
      if !advanced {
        return Err(Conflict);
      }
      var payload := if forcedBy.Some?
        then TradeForceRefunded(tradeId, t.price, balance.value, forcedBy.value, actor)
        else TradeRefunded(tradeId, t.price, balance.value, envelope);
      var row := trades[tradeId].(refundedAt := Stamp(p, o.now));
      RecordPayback(p, o, actor, tradeId, row, balance.value, payload, old(View()));
      return Ok(true);
    }

    method ImportRefund(p: Platform, o: Oracle, source: Id, target: Id, env: Envelope) returns (r: Result<bool>)
      modifies this
      ensures var plan := PlanImportRefund(p, o, old(View()), source, target, env);
              View() == PostedStep(p, o.now, old(View()), plan) && r == Applied(plan)
    {
      hide Post, Handlers.ApplyRefund;
      if env.body.Malformed? {
        return Err(BadRequest);
      }
      var b := env.body;
      if b.trade !in trades {
        return Err(NotFound);
      }
      var t := trades[b.trade];
      if b.sellerColony != source || b.buyerColony != target || t.sellerColony != source || t.buyerColony != target
         || t.buyer != b.buyer || t.price != b.refund {
        return Err(BadRequest);
      }
      var kind := ClassifyStep(t.status, RefundPendingExport);
      match kind {
        case StepApply => r := ApplyRefund(p, o, b.trade, t.buyer, None, env.id);
        case StepTooEarly => return Err(Conflict);
        case StepDuplicate => return Ok(false);
      }
    }

    /** importEnvelope: false when the trade had already passed this step and nothing changed. */
    method ImportEnvelope(p: Platform, o: Oracle, i: nat, source: Id, target: Id, env: Envelope) returns (r: Result<bool>)
      requires source in colonies && target in colonies
      modifies this
      ensures var plan := PlanEnvelope(p, o, i, old(View()), source, target, env);
              View() == PostedStep(p, o.now, old(View()), plan) && r == Applied(plan)
    {
      hide Post, PlanImportOffer, PlanImportAcceptance, PlanImportSettlement, PlanImportCancel, PlanImportRefund;
      if env.kind == "offer" {
        r := ImportOffer(p, o, source, target, env);
      } else if env.kind == "acceptance" {
        r := ImportAcceptance(p, o, i, source, target, env);
      } else if env.kind == "settlement" {
        r := ImportSettlement(p, o, source, target, env);
      } else if env.kind == "cancel_request" {
        r := ImportCancel(p, o, i, source, target, env);
      } else if env.kind == "refund" {
        r := ImportRefund(p, o, source, target, env);
      } else {
        r := Err(BadRequest);
      }
    }

    /** One message of a bundle; `applied` is None for a nil message. */
    method ImportOne(p: Platform, o: Oracle, i: nat, source: Id, target: Id, message: Option<Envelope>, ghost acc: Progress)
      returns (applied: Result<Option<bool>>)
      requires source in colonies && target in colonies && acc.state == View()
      modifies this
      ensures applied == Ok(Some(true)) ==> message.Some? && message.value.body.Body?
      ensures ImportMessage(p, o, i, source, target, acc, message) == Counted(acc, applied, message, View())
    {
      hide Post, PlanEnvelope;
      if message.None? {
        return Ok(None);
      }
      var env := message.value;
      if env.to != target || env.from != source {
        return Err(BadRequest);
      }
      if env.id in colonies[target].processed {
        return Ok(Some(false));
      }
      if !p.verify(colonies[source].pub, EnvelopeSignable(env), env.signature) {
        return Err(BadRequest);
      }
      AppliedHasBody(p, o, i, View(), source, target, env);
      var step := ImportEnvelope(p, o, i, source, target, env);
      if step.Err? {
        return Err(step.error);
      }
      colonies := colonies[target := colonies[target].(processed := colonies[target].processed + {env.id})];
      return Ok(Some(step.value));
    }

    /** All or nothing for the caller: an error means the working state is thrown away. */
    method ImportBundle(p: Platform, o: Oracle, token: string, colony: Id, bundleId: Id, b: Bundle) returns (r: Result<ImportResult>)
      modifies this
      ensures var spec := Handlers.ImportBundle(p, o, old(View()), token, colony, bundleId, b);
              match r
              case Ok(result) => spec == Ok((View(), result))
              case Err(e) => spec == Err(e)
    {
      hide Post, ImportMessage, CheckImport, ImportUpTo, ImportClosing, Handlers.ImportBundle;
      ghost var start := View();
      ImportFollows(p, o, start, token, colony, bundleId, b);
      var check := CheckImport(p, o, View(), token, colony, b);
      if check.Err? {
        return Err(check.error);
      }
      var generated := |colonies[colony].outbox|;
      var imported, skipped: nat := 0, 0;
      var kinds, touched: seq<string> := [], [];
      ImportNone(p, o, start, b.from, colony, b.messages);
      for i := 0 to |b.messages|
        invariant colonies.Keys == start.colonies.Keys
        invariant ImportUpTo(p, o, start, b.from, colony, b.messages, i) == Ok(Progress(View(), imported, skipped, kinds, touched))
      {
        ghost var acc := Progress(View(), imported, skipped, kinds, touched);
        ImportNext(p, o, start, b.from, colony, b.messages, i);
        var applied := ImportOne(p, o, i, b.from, colony, b.messages[i], acc);
        if applied.Err? {
          ImportStops(p, o, start, b.from, colony, b.messages, i + 1, |b.messages|);
          return Err(applied.error);
        }
        if applied.value == Some(true) {
          imported := imported + 1;
          kinds := kinds + [b.messages[i].value.kind];
          touched := touched + [b.messages[i].value.body.trade];
        } else if applied.value == Some(false) {
          skipped := skipped + 1;
        }
      }
      var result := ImportResult(bundleId, imported, skipped, |colonies[colony].outbox| - generated, kinds, touched);
      CloseImport(p, o, colony, check.value, bundleId, b, imported, skipped);
      return Ok(result);
    }

    method CloseImport(p: Platform, o: Oracle, colony: Id, actor: Id, bundleId: Id, b: Bundle, imported: nat, skipped: nat)
      requires colony in colonies
      modifies this
      ensures View() == Post(p, o.now, old(View()), ImportClosing(colony, actor, bundleId, b, imported, skipped))
    {
      hide Post, Append;
      ghost var fx := ImportClosing(colony, actor, bundleId, b, imported, skipped);
      ghost var goal := Post(p, o.now, View(), fx);
      PostPlain(p, o.now, View(), fx);
      assert colonies[colony].outbox + [] == colonies[colony].outbox;
      bundles := bundles[bundleId := b];
      AppendLedger(p, o, colony, BundleImported(bundleId, b.from, imported, skipped), actor);
      assert colonies == goal.colonies;
    }

    // ---- supply and policy ----------------------------------------------------------------

    method RecordMint(p: Platform, o: Oracle, colony: Id, user: Id, total: int64, balance: int64, payload: Payload, actor: Id)
      requires colony in colonies
      modifies this
      ensures View() == Post(p, o.now, old(View()), Logged(colony, actor, payload).(minted := Some(total), account := Some((user, balance))))
    {
      hide Post, Append;
      ghost var fx := Logged(colony, actor, payload).(minted := Some(total), account := Some((user, balance)));
      ghost var goal := Post(p, o.now, View(), fx);
      PostPlain(p, o.now, View(), fx);
      assert colonies[colony].outbox + [] == colonies[colony].outbox;
      colonies := colonies[colony := colonies[colony].(mintedTotal := total)];
      SetBalance(colony, user, balance);
      AppendLedger(p, o, colony, payload, actor);
      assert colonies == goal.colonies;
    }

    /** Creates supply, for direct and for approved mints alike. */
    method ApplyMint(p: Platform, o: Oracle, colonyId: Id, user: Id, amount: int64, actor: Id, approvedBy: Id) returns (r: Result<int64>)
      requires colonyId in colonies
      modifies this
      ensures var plan := Handlers.ApplyMint(old(View()), colonyId, user, amount, actor, approvedBy);
              && View() == Posted(p, o.now, old(View()), plan)
              && r == if plan.Ok? then Ok(plan.value.account.value.1) else Err(plan.error)
    {
      hide Post;
      if user !in colonies[colonyId].accounts || user !in users {
        return Err(NotFound);
      }
      var total := AddChecked(colonies[colonyId].mintedTotal, amount);
      if total.Err? {
        return Err(total.error);
      }
      if total.value > EffectiveMintCap(colonies[colonyId]) {
        return Err(Conflict);
      }
      var balance := AddChecked(colonies[colonyId].accounts[user], amount);
      if balance.Err? {
        return Err(balance.error);
      }
      RecordMint(p, o, colonyId, user, total.value, balance.value, FundsMinted(user, amount, balance.value, total.value, approvedBy), actor);
      return Ok(balance.value);
    }

    /** A proposal changes nothing but the pending actions and the ledger. */
    method RecordProposal(p: Platform, o: Oracle, colony: Id, actor: Id, pa: Action, payload: Payload)
      modifies this
      ensures View() == Post(p, o.now, old(View()), Logged(colony, actor, payload).(action := Some((o.newId, pa))))
    {
      hide Post, Append;
      ghost var fx := Logged(colony, actor, payload).(action := Some((o.newId, pa)));
      ghost var goal := Post(p, o.now, View(), fx);
      PostPlain(p, o.now, View(), fx);
      actions := actions[o.newId := pa];
      if colony in colonies {
        assert colonies[colony].outbox + [] == colonies[colony].outbox;
        AppendLedger(p, o, colony, payload, actor);
      }
      assert colonies == goal.colonies;
    }

    method Mint(p: Platform, o: Oracle, token: string, colonyId: Id, user: Id, amount: int64, allowPropose: bool) returns (r: Result<MintOutcome>)
      modifies this
      ensures var plan := PlanMint(p, o, old(View()), token, colonyId, user, amount, allowPropose);
              && View() == Posted(p, o.now, old(View()), plan)
              && r == if plan.Err? then Err(plan.error)
                      else if plan.value.action.Some? then Ok(Proposed(o.newId))
                      else Ok(Minted(plan.value.account.value.1))
    {
      hide Post, Actor;
      if !ValidAmount(amount) {
        return Err(BadRequest);
      }
      var actor := Actor(p, o, View(), token);
      if actor.Err? {
        return Err(actor.error);
      }
      if !CanManageColony(users[actor.value], colonyId) {
        return Err(Forbidden);
      }
      if colonyId !in colonies || user !in colonies[colonyId].accounts || user !in users {
        return Err(NotFound);
      }
      if colonies[colonyId].dual {
        if !allowPropose {
          return Err(Conflict);
        }
        if AddChecked(colonies[colonyId].mintedTotal, amount).Err?
           || colonies[colonyId].mintedTotal + amount > EffectiveMintCap(colonies[colonyId]) {
          return Err(Conflict);
        }
        var pa := NewAction(p, o, actor.value, MintAction, colonyId).(user := user, amount := amount);
        RecordProposal(p, o, colonyId, actor.value, pa, MintProposed(o.newId, user, amount));
        return Ok(Proposed(o.newId));
      }
      var minted := ApplyMint(p, o, colonyId, user, amount, actor.value, "");
      return if minted.Ok? then Ok(Minted(minted.value)) else Err(minted.error);
    }

    method ApplyPolicy(p: Platform, o: Oracle, colonyId: Id, cap: Option<int64>, dual: Option<bool>, actor: Id, approvedBy: Id) returns (r: Result<()>)
      requires colonyId in colonies
      modifies this
      ensures var plan := Handlers.ApplyPolicy(old(View()), colonyId, cap, dual, actor, approvedBy);
              && View() == Posted(p, o.now, old(View()), plan)
              && r == if plan.Ok? then Ok(()) else Err(plan.error)
    {
      hide Post, Append;
      var valid := ValidatePolicy(colonies[colonyId], cap);
      if valid.Fail? {
        return Err(valid.error);
      }
      ghost var plan := Handlers.ApplyPolicy(View(), colonyId, cap, dual, actor, approvedBy);
      ghost var goal := Post(p, o.now, View(), plan.value);
      PostPlain(p, o.now, View(), plan.value);
      assert colonies[colonyId].outbox + [] == colonies[colonyId].outbox;
      if cap.Some? {
        colonies := colonies[colonyId := colonies[colonyId].(mintCap := cap.value)];
      }
      if dual.Some? {
        colonies := colonies[colonyId := colonies[colonyId].(dual := dual.value)];
      }
      AppendLedger(p, o, colonyId, PolicyChanged(EffectiveMintCap(colonies[colonyId]), colonies[colonyId].dual, approvedBy), actor);
      assert colonies == goal.colonies;
      return Ok(());
    }

    method SetPolicy(p: Platform, o: Oracle, token: string, colonyId: Id, cap: Option<int64>, dual: Option<bool>) returns (r: Result<PolicyOutcome>)
      modifies this
      ensures var plan := PlanSetPolicy(p, o, old(View()), token, colonyId, cap, dual);
              && View() == Posted(p, o.now, old(View()), plan)
              && r == if plan.Err? then Err(plan.error)
                      else if plan.value.action.Some? then Ok(PolicyPending(o.newId)) else Ok(PolicyApplied)
    {
      hide Post, Actor;
      if cap.None? && dual.None? {
        return Err(BadRequest);
      }
      var actor := Actor(p, o, View(), token);
      if actor.Err? {
        return Err(actor.error);
      }
      if !HasRole(users[actor.value], "super_admin") {
        return Err(Forbidden);
      }
      if colonyId !in colonies {
        return Err(NotFound);
      }
      var valid := ValidatePolicy(colonies[colonyId], cap);
      if valid.Fail? {
        return Err(valid.error);
      }
      if colonies[colonyId].dual {
        var pa := NewAction(p, o, actor.value, PolicyAction, colonyId).(cap := cap, dual := dual);
        RecordProposal(p, o, colonyId, actor.value, pa, PolicyProposed(o.newId));
        return Ok(PolicyPending(o.newId));
      }
      var applied := ApplyPolicy(p, o, colonyId, cap, dual, actor.value, "");
      return Ok(PolicyApplied);
    }

    // ---- dual control ------------------------------------------------------------------------

    method ProposeForceRefund(p: Platform, o: Oracle, token: string, tradeId: Id) returns (r: Result<Action>)
      modifies this
      ensures var plan := PlanProposeForceRefund(p, o, old(View()), token, tradeId);
              && View() == Posted(p, o.now, old(View()), plan)
              && r == if plan.Ok? then Ok(plan.value.action.value.1) else Err(plan.error)
    {
      hide Post, Actor;
      var actor := Actor(p, o, View(), token);
      if actor.Err? {
        return Err(actor.error);
      }
      if tradeId !in trades {
        return Err(NotFound);
      }
      var t := trades[tradeId];
      if !CanManageColony(users[actor.value], t.buyerColony) {
        return Err(Forbidden);
      }
      if !IsEscrowed(t.status) {
        return Err(Conflict);
      }
      var pa := NewAction(p, o, actor.value, ForceRefundAction, t.buyerColony).(trade := tradeId, amount := t.price);
      RecordProposal(p, o, t.buyerColony, actor.value, pa, ForceRefundProposed(o.newId, tradeId));
      return Ok(pa);
    }

    /** What an approval executes. */
    method Execute(p: Platform, o: Oracle, pa: Action, actorId: Id) returns (r: Result<()>)
      requires pa.colony in colonies
      modifies this
      ensures var plan := ApproveEffect(p, o, old(View()), pa, actorId);
              && View() == Posted(p, o.now, old(View()), plan)
              && r == if plan.Ok? then Ok(()) else Err(plan.error)
    {
      hide Post, Handlers.ApplyMint, Handlers.ApplyRefund, Handlers.ApplyPolicy;
      match pa.kind {
        case MintAction =>
          var minted := ApplyMint(p, o, pa.colony, pa.user, pa.amount, pa.proposedBy, actorId);
          return if minted.Ok? then Ok(()) else Err(minted.error);
        case ForceRefundAction =>
          if pa.trade !in trades || !IsEscrowed(trades[pa.trade].status) {
            return Err(Conflict);
          }
          var refunded := ApplyRefund(p, o, pa.trade, actorId, Some(pa.proposedBy), "");
          return if refunded.Ok? then Ok(()) else Err(refunded.error);
        case PolicyAction =>
          r := ApplyPolicy(p, o, pa.colony, pa.cap, pa.dual, pa.proposedBy, actorId);
      }
    }

    method RecordRejection(p: Platform, o: Oracle, colony: Id, actor: Id, actionId: Id, kind: ActionKind)
      requires colony in colonies
      modifies this
      ensures View() == Post(p, o.now, old(View()), Logged(colony, actor, ApprovalRejected(actionId, kind)))
    {
      hide Post, Append;
      ghost var fx := Logged(colony, actor, ApprovalRejected(actionId, kind));
      ghost var goal := Post(p, o.now, View(), fx);
      PostPlain(p, o.now, View(), fx);
      assert colonies[colony].outbox + [] == colonies[colony].outbox;
      AppendLedger(p, o, colony, ApprovalRejected(actionId, kind), actor);
      assert colonies == goal.colonies;
    }

    method DecideApproval(p: Platform, o: Oracle, token: string, actionId: Id, approve: bool) returns (r: Result<Action>)
      modifies this
      ensures var plan := PlanDecide(p, o, old(View()), token, actionId, approve);
              && View() == Posted(p, o.now, old(View()), plan)
              && r == if plan.Ok? then Ok(plan.value.action.value.1) else Err(plan.error)
    {
      hide Post, Actor, ApproveEffect, Past;
      var actor := Actor(p, o, View(), token);
      if actor.Err? {
        return Err(actor.error);
      }
      if actionId !in actions {
        return Err(NotFound);
      }
      var pa := actions[actionId];
      if !CanManageColony(users[actor.value], pa.colony) || actor.value == pa.proposedBy {
        return Err(Forbidden);
      }
      if pa.status != Pending || p.parse(pa.expiresAt).None? || Past(p, o.now, pa.expiresAt) {
        return Err(Conflict);
      }
      if pa.colony !in colonies {
        return Err(NotFound);
      }
      ghost var before := View();
      ghost var executes := if approve then ApproveEffect(p, o, before, pa, actor.value)
                            else Ok(Logged(pa.colony, actor.value, ApprovalRejected(actionId, pa.kind)));
      if approve {
        var executed := Execute(p, o, pa, actor.value);
        if executed.Err? {
          return Err(executed.error);
        }
        pa := pa.(status := Approved);
      } else {
        pa := pa.(status := Rejected);
        RecordRejection(p, o, pa.colony, actor.value, actionId, pa.kind);
      }
      pa := pa.(decidedBy := actor.value, decidedAt := Stamp(p, o.now));
      PostDecision(p, o.now, before, executes.value, actionId, pa);
      actions := actions[actionId := pa];
      return Ok(pa);
    }

    // ---- colonies and users ---------------------------------------------------------------------

    method CreateColony(p: Platform, o: Oracle, token: string) returns (r: Result<Id>)
      modifies this
      ensures var plan := PlanCreateColony(p, o, old(View()), token);
              && View() == Posted(p, o.now, old(View()), plan)
              && r == if plan.Ok? then Ok(o.newId) else Err(plan.error)
    {
      hide Actor, Append;
      var actor := Actor(p, o, View(), token);
      if actor.Err? {
        return Err(actor.error);
      }
      if !HasRole(users[actor.value], "super_admin") {
        return Err(Forbidden);
      }
      colonies := colonies[o.newId := NewColony(o.newId, o.pub, o.priv)];
      assert colonies[o.newId].outbox + [] == colonies[o.newId].outbox;
      AppendLedger(p, o, o.newId, ColonyCreated, actor.value);
      return Ok(o.newId);
    }

    method TrustPeer(p: Platform, o: Oracle, token: string, colonyId: Id, peer: Id) returns (r: Result<()>)
      modifies this
      ensures var plan := PlanTrustPeer(p, o, old(View()), token, colonyId, peer);
              && View() == Posted(p, o.now, old(View()), plan)
              && r == if plan.Ok? then Ok(()) else Err(plan.error)
    {
      hide Actor, Append, TrimSpace;
      if TrimSpace(peer) == "" {
        return Err(BadRequest);
      }
      var actor := Actor(p, o, View(), token);
      if actor.Err? {
        return Err(actor.error);
      }
      if colonyId !in colonies || peer !in colonies {
        return Err(NotFound);
      }
      if !CanManageColony(users[actor.value], colonyId) {
        return Err(Forbidden);
      }
      assert colonies[colonyId].outbox + [] == colonies[colonyId].outbox;
      colonies := colonies[colonyId := colonies[colonyId].(trusted := colonies[colonyId].trusted[peer := colonies[peer].pub])];
      AppendLedger(p, o, colonyId, PeerTrusted(peer), actor.value);
      return Ok(());
    }

    method CreateUser(p: Platform, o: Oracle, token: string, colonyId: Id, roles: seq<string>) returns (r: Result<Id>)
      modifies this
      ensures var plan := PlanCreateUser(p, o, old(View()), token, colonyId, roles);
              && View() == Posted(p, o.now, old(View()), plan)
              && r == if plan.Ok? then Ok(o.newId) else Err(plan.error)
    {
      hide Post, Actor;
      var actor := Actor(p, o, View(), token);
      if actor.Err? {
        return Err(actor.error);
      }
      if colonyId !in colonies {
        return Err(NotFound);
      }
      if !CanManageColony(users[actor.value], colonyId) {
        return Err(Forbidden);
      }
      if "super_admin" in roles && !HasRole(users[actor.value], "super_admin") {
        return Err(Forbidden);
      }
      RecordUser(p, o, colonyId, actor.value, User(colonyId, roles, o.pub, o.priv, true, false));
      return Ok(o.newId);
    }

    method RecordUser(p: Platform, o: Oracle, colony: Id, actor: Id, user: User)
      requires colony in colonies
      modifies this
      ensures View() == Post(p, o.now, old(View()),
                             Logged(colony, actor, UserCreated(o.newId)).(user := Some((o.newId, user)), account := Some((o.newId, 0))))
    {
      hide Post, Append;
      ghost var fx := Logged(colony, actor, UserCreated(o.newId)).(user := Some((o.newId, user)), account := Some((o.newId, 0)));
      ghost var goal := Post(p, o.now, View(), fx);
      PostPlain(p, o.now, View(), fx);
      assert colonies[colony].outbox + [] == colonies[colony].outbox;
      users := users[o.newId := user];
      SetBalance(colony, o.newId, 0);
      AppendLedger(p, o, colony, UserCreated(o.newId), actor);
      assert colonies == goal.colonies;
    }

    /** One request, whichever handler it goes to. */
    method Serve(p: Platform, o: Oracle, token: string, request: Request) returns (r: Result<()>)
      modifies this
      ensures var plan := Plan(p, o, old(View()), token, request);
              && r == (if plan.Ok? then Ok(()) else Err(plan.error))
              && View() == Posted(p, o.now, old(View()), plan)
    {
      hide Post, PlanCreateOffer, PlanAccept, PlanCancel, PlanExport, PlanMint, PlanSetPolicy, PlanProposeForceRefund, PlanDecide,
           PlanCreateUser, PlanCreateColony, PlanTrustPeer;
      match request {
        case CreateOffer(seller, buyer, asset, price, ttl) =>
          var x := this.CreateOffer(p, o, token, seller, buyer, asset, price, ttl);
          return if x.Ok? then Ok(()) else Err(x.error);
        case AcceptTrade(trade) =>
          var x := this.AcceptTrade(p, o, token, trade);
          return if x.Ok? then Ok(()) else Err(x.error);
        case CancelTrade(trade) =>
          var x := this.CancelTrade(p, o, token, trade);
          return if x.Ok? then Ok(()) else Err(x.error);
        case ExportBundle(from, to) =>
          var x := this.ExportBundle(p, o, token, from, to);
          return if x.Ok? then Ok(()) else Err(x.error);
        case Mint(colony, user, amount, allowPropose) =>
          var x := this.Mint(p, o, token, colony, user, amount, allowPropose);
          return if x.Ok? then Ok(()) else Err(x.error);
        case SetPolicy(colony, cap, dual) =>
          var x := this.SetPolicy(p, o, token, colony, cap, dual);
          return if x.Ok? then Ok(()) else Err(x.error);
        case ProposeForceRefund(trade) =>
          var x := this.ProposeForceRefund(p, o, token, trade);
          return if x.Ok? then Ok(()) else Err(x.error);
        case DecideApproval(action, approve) =>
          var x := this.DecideApproval(p, o, token, action, approve);
          return if x.Ok? then Ok(()) else Err(x.error);
        case CreateUser(colony, roles) =>
          var x := this.CreateUser(p, o, token, colony, roles);
          return if x.Ok? then Ok(()) else Err(x.error);
        case CreateColony =>
          var x := this.CreateColony(p, o, token);
          return if x.Ok? then Ok(()) else Err(x.error);
        case TrustPeer(colony, peer) =>
          r := this.TrustPeer(p, o, token, colony, peer);
      }
    }
  }
}
