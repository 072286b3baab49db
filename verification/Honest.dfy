/** Honest delivery: whatever the platform itself put in an outbox can always be imported later. */
module Honest {
  import opened Basics
  import opened TradeTable
  import opened Model
  import opened Handlers
  import opened Invariant
  import opened Preserve
  import opened Lawfulness
  import opened Runs

  // ---- what honest delivery needs from the libraries ---------------------------

  /** RFC 3339 text written by the platform reads back as the same second. */
  ghost predicate ClockText(p: Platform) {
    forall x :: p.parse(p.format(x)) == Some(x)
  }

  ghost predicate KeyPair(p: Platform, pub: string, priv: string) {
    forall m :: p.verify(pub, m, p.sign(priv, m))
  }

  ghost predicate KeysPaired(p: Platform, s: State) {
    && (forall c :: c in s.colonies ==> KeyPair(p, s.colonies[c].pub, s.colonies[c].priv))
    && (forall u :: u in s.users ==> KeyPair(p, s.users[u].pub, s.users[u].priv))
  }

  // ---- envelopes the platform made ---------------------------------------------

  predicate Route(t: Trade, e: Envelope, fromSeller: bool) {
    if fromSeller then e.from == t.sellerColony && e.to == t.buyerColony
    else e.from == t.buyerColony && e.to == t.sellerColony
  }

  /** The body says what the trade says, and the trade has got at least as far as the message. */
  ghost predicate Truthful(p: Platform, s: State, e: Envelope)
    requires e.body.Body? && e.body.trade in s.trades
  {
    var b, t := e.body, s.trades[e.body.trade];
    if e.kind == "offer" then
      && Route(t, e, true) && b.sellerColony == e.from && b.buyerColony == e.to
      && TrimSpace(b.asset) != "" && b.asset == t.asset && b.price == t.price && b.expiresAt == t.expiresAt
      && b.seller == t.seller && b.buyer == t.buyer && b.seller in s.users
      && b.sellerSig == p.sign(s.users[b.seller].priv, OfferSig(b.trade, b.asset, b.price, b.seller, b.sellerColony,
                               b.buyer, b.buyerColony, b.createdAt, b.expiresAt))
    else if e.kind == "acceptance" then
      && Route(t, e, false) && b.buyerColony == e.from && b.buyer == t.buyer && b.debit == t.price && b.buyer in s.users
      && b.buyerSig == p.sign(s.users[b.buyer].priv, AcceptanceSig(b.trade, b.buyer, b.buyerColony, b.debit, b.acceptedAt))
      && !Unaccepted(t.status) && AcceptedAfterExpiry(p, t, b.acceptedAt) == Ok(false)
    else if e.kind == "cancel_request" then
      && Route(t, e, false) && b.buyerColony == e.from && b.buyer == t.buyer && b.buyer in s.users
      && b.buyerSig == p.sign(s.users[b.buyer].priv, CancelSig(b.trade, b.buyer, b.buyerColony, b.requestedAt))
      && !Unaccepted(t.status)
    else if e.kind == "settlement" then
      && Route(t, e, true) && b.sellerColony == e.from && b.acceptedFrom == e.to && b.seller == t.seller
      && b.credit == t.price && Credited(t.status)
    else
      && e.kind == "refund"
      && Route(t, e, true) && b.sellerColony == e.from && b.buyerColony == e.to && b.buyer == t.buyer
      && b.refund == t.price && (t.status == RefundPendingExport || t.status == Refunded)
  }

  ghost predicate Authentic(p: Platform, s: State, e: Envelope) {
    && e.from in s.colonies && e.to in s.colonies
    && e.signature == p.sign(s.colonies[e.from].priv, EnvelopeSignable(e))
    && e.body.Body? && e.body.trade in s.trades
    && Truthful(p, s, e)
  }

  /** Every outbox holds only authentic envelopes of its own colony. */
  ghost predicate Mailed(p: Platform, s: State) {
    forall c, e :: c in s.colonies && e in s.colonies[c].outbox ==> e.from == c && Authentic(p, s, e)
  }

  lemma LateStatuses(st: Status, later: Status)
    requires Leads(st, later)
    ensures !Unaccepted(st) ==> !Unaccepted(later)
    ensures Credited(st) ==> Credited(later)
    ensures st == RefundPendingExport || st == Refunded ==> later == RefundPendingExport || later == Refunded
  {
    LeadsClimbs(st, later);
    TableRows();
    if Credited(st) && st != later {
      ClosedExcludes(TRADE_TRANSITIONS, {SettlementPendingExport, Completed}, st, Refunded);
    }
    if st in {RefundPendingExport, Refunded} && st != later {
      ClosedExcludes(TRADE_TRANSITIONS, {RefundPendingExport, Refunded}, st, Completed);
    }
  }

  /** What was true of an envelope when it was sent stays true. */
  lemma AuthenticStays(p: Platform, s: State, s': State, e: Envelope)
    requires Authentic(p, s, e) && Evolves(s, s')
    ensures Authentic(p, s', e)
  {
    var t, t' := s.trades[e.body.trade], s'.trades[e.body.trade];
    assert TradeEvolves(t, t');
    LateStatuses(t.status, t'.status);
    assert ColonyEvolves(s.colonies[e.from], s'.colonies[e.from]);
  }

  lemma KeysStay(p: Platform, s: State, s': State, o: Oracle)
    requires KeysPaired(p, s) && KeyPair(p, o.pub, o.priv) && Evolves(s, s')
    requires forall c :: c in s'.colonies && c !in s.colonies ==> s'.colonies[c].pub == o.pub && s'.colonies[c].priv == o.priv
    requires forall u :: u in s'.users && u !in s.users ==> s'.users[u].pub == o.pub && s'.users[u].priv == o.priv
    ensures KeysPaired(p, s')
  {
    forall c | c in s'.colonies ensures KeyPair(p, s'.colonies[c].pub, s'.colonies[c].priv) {
      if c in s.colonies {
        assert ColonyEvolves(s.colonies[c], s'.colonies[c]);
      }
    }
    forall u | u in s'.users ensures KeyPair(p, s'.users[u].pub, s'.users[u].priv) {
      if u in s.users {
        assert SameIdentity(s.users[u], s'.users[u]);
      }
    }
  }

  // ---- what each handler sends is authentic -------------------------------------

  /** The envelopes an effect emits are authentic as soon as it is posted. */
  ghost predicate SendsTruth(p: Platform, now: int, s: State, fx: Effect) {
    forall e :: e in fx.emit ==> e.from == fx.colony && Authentic(p, Post(p, now, s, fx), e)
  }

  /** Posting keeps every key, adds the effect's trade and its colony's keys. */
  lemma PostKeys(p: Platform, now: int, s: State, fx: Effect)
    requires fx.founded.None? && fx.user.None?
    ensures var s' := Post(p, now, s, fx);
            && s'.users == s.users && s'.trades == Put(s.trades, fx.trade)
            && s'.colonies.Keys == s.colonies.Keys
            && forall c :: c in s.colonies ==> s'.colonies[c].priv == s.colonies[c].priv
  {
  }

  lemma OfferTruth(p: Platform, o: Oracle, s: State, token: string, seller: Id, buyer: Id, asset: string, price: int64, ttl: int64)
    requires PlanCreateOffer(p, o, s, token, seller, buyer, asset, price, ttl).Ok?
    ensures SendsTruth(p, o.now, s, PlanCreateOffer(p, o, s, token, seller, buyer, asset, price, ttl).value)
  {
    hide Post, TrimSpace, TrimLeft, TrimRight, Wrap;
    var fx := PlanCreateOffer(p, o, s, token, seller, buyer, asset, price, ttl).value;
    var s' := Post(p, o.now, s, fx);
    PostKeys(p, o.now, s, fx);
    TrimIdempotent(asset);
    var e := fx.emit[0];
    assert s'.trades[o.newId] == fx.trade.value.1 && e.body.trade == o.newId;
    assert Truthful(p, s', e);
  }

  /** An acceptance that AcceptTrade allows is never judged late. */
  lemma AcceptedOnTime(p: Platform, now: int, t: Trade)
    requires ClockText(p) && !IsExpired(p, t, now)
    ensures AcceptedAfterExpiry(p, t, Stamp(p, now)) == Ok(false)
  {
    assert p.parse(p.format(now / SECOND)) == Some(now / SECOND);
  }

  lemma AcceptTruth(p: Platform, o: Oracle, s: State, token: string, t: Id)
    requires ClockText(p) && t in s.trades && TradeRow(s, s.trades[t]) && s.trades[t].sellerColony in s.colonies
    requires PlanAccept(p, o, s, token, t).Ok?
    ensures SendsTruth(p, o.now, s, PlanAccept(p, o, s, token, t).value)
  {
    hide Post, PlanAccept, Authentic;
    var fx := PlanAccept(p, o, s, token, t).value;
    AcceptShape(p, o, s, token, t);
    PostKeys(p, o.now, s, fx);
    AcceptanceIsTrue(p, o, s, Post(p, o.now, s, fx), t, fx.trade.value.1, fx.emit[0]);
  }

  /** What an acceptance sends and writes. */
  ghost predicate AcceptedAs(p: Platform, o: Oracle, s: State, t: Id, t': Trade, e: Envelope)
    requires t in s.trades
  {
    var row := s.trades[t];
    && row.buyer in s.users && s.users[row.buyer].colony in s.colonies && !IsExpired(p, row, o.now)
    && t' == row.(status := AcceptancePendingExport, acceptedAt := t'.acceptedAt, buyerSig := t'.buyerSig, acceptanceEnvelope := t'.acceptanceEnvelope)
    && var from, at := s.users[row.buyer].colony, Stamp(p, o.now);
       var sig := p.sign(s.users[row.buyer].priv, AcceptanceSig(t, row.buyer, from, row.price, at));
       e == Sealed(p, s.colonies[from].priv, e.id, "acceptance", from, row.sellerColony,
                   BLANK_BODY.(trade := t, buyer := row.buyer, buyerColony := from, debit := row.price, acceptedAt := at, buyerSig := sig), at)
  }

  lemma AcceptShape(p: Platform, o: Oracle, s: State, token: string, t: Id)
    requires PlanAccept(p, o, s, token, t).Ok?
    ensures var fx := PlanAccept(p, o, s, token, t).value;
            && t in s.trades && |fx.emit| == 1 && fx.emit[0].from == fx.colony && fx.founded.None? && fx.user.None?
            && fx.trade.Some? && fx.trade.value.0 == t && AcceptedAs(p, o, s, t, fx.trade.value.1, fx.emit[0])
  {
    hide Actor, IsExpired, TransitionAllowed, Wrap, Stamp;
  }

  lemma AcceptanceIsTrue(p: Platform, o: Oracle, s: State, s': State, t: Id, t': Trade, e: Envelope)
    requires ClockText(p) && t in s.trades && TradeRow(s, s.trades[t]) && s.trades[t].sellerColony in s.colonies
    requires AcceptedAs(p, o, s, t, t', e)
    requires s'.users == s.users && s'.trades == s.trades[t := t'] && s'.colonies.Keys == s.colonies.Keys
    requires forall c :: c in s.colonies ==> s'.colonies[c].priv == s.colonies[c].priv
    ensures Authentic(p, s', e)
  {
    hide IsExpired, Stamp, AcceptedAfterExpiry;
    AcceptedOnTime(p, o.now, s.trades[t]);
    SameExpiry(p, s.trades[t], t', e.body.acceptedAt);
  }

  lemma SameExpiry(p: Platform, t: Trade, t': Trade, at: string)
    requires t'.expiresAt == t.expiresAt
    ensures AcceptedAfterExpiry(p, t', at) == AcceptedAfterExpiry(p, t, at)
  {
  }

  lemma CancelTruth(p: Platform, o: Oracle, s: State, token: string, t: Id)
    requires t in s.trades && TradeRow(s, s.trades[t]) && s.trades[t].sellerColony in s.colonies
    requires PlanCancel(p, o, s, token, t).Ok?
    ensures SendsTruth(p, o.now, s, PlanCancel(p, o, s, token, t).value)
  {
    hide Post, Actor, TransitionAllowed, Stamp;
    PostKeys(p, o.now, s, PlanCancel(p, o, s, token, t).value);
  }

  lemma RefundTruth(p: Platform, o: Oracle, i: nat, s: State, source: Id, target: Id, t: Id, trigger: Envelope, reason: string)
    requires source in s.colonies && target in s.colonies && t in s.trades
    requires s.trades[t].sellerColony == target && s.trades[t].buyerColony == source
    requires DecideRefund(p, o, i, s, source, target, t, trigger, reason).Ok?
    ensures SendsTruth(p, o.now, s, DecideRefund(p, o, i, s, source, target, t, trigger, reason).value)
  {
    hide Post;
    PostKeys(p, o.now, s, DecideRefund(p, o, i, s, source, target, t, trigger, reason).value);
  }

  /** What a credit sends and writes. */
  ghost predicate CreditedAs(p: Platform, s: State, source: Id, target: Id, t: Id, t': Trade, e: Envelope)
    requires t in s.trades && target in s.colonies
  {
    var row := s.trades[t];
    && SameDeal(row, t') && t'.status == SettlementPendingExport
    && e.body.Body?
    && e == Sealed(p, s.colonies[target].priv, e.id, "settlement", target, source,
                   BLANK_BODY.(trade := t, seller := row.seller, sellerColony := target, credit := row.price,
                               acceptedFrom := source, settledAt := e.body.settledAt), e.createdAt)
  }

  lemma CreditShape(p: Platform, o: Oracle, i: nat, s: State, source: Id, target: Id, env: Envelope)
    requires source in s.colonies && target in s.colonies && env.body.Body? && env.body.trade in s.trades
    requires s.trades[env.body.trade].seller in s.colonies[target].accounts && Credit(p, o, i, s, source, target, env).Ok?
    ensures var fx := Credit(p, o, i, s, source, target, env).value;
            && |fx.emit| == 1 && fx.emit[0].from == fx.colony && fx.emit[0].body.Body? && fx.founded.None? && fx.user.None?
            && fx.trade.Some? && fx.trade.value.0 == env.body.trade
            && CreditedAs(p, s, source, target, env.body.trade, fx.trade.value.1, fx.emit[0])
  {
    hide AddChecked, TransitionAllowed, Stamp;
  }

  lemma CreditTruth(p: Platform, o: Oracle, i: nat, s: State, source: Id, target: Id, env: Envelope)
    requires source in s.colonies && target in s.colonies && env.body.Body? && env.body.trade in s.trades
    requires s.trades[env.body.trade].seller in s.colonies[target].accounts
    requires s.trades[env.body.trade].sellerColony == target && s.trades[env.body.trade].buyerColony == source
    requires Credit(p, o, i, s, source, target, env).Ok?
    ensures SendsTruth(p, o.now, s, Credit(p, o, i, s, source, target, env).value)
  {
    hide Post, Credit;
    var fx := Credit(p, o, i, s, source, target, env).value;
    CreditShape(p, o, i, s, source, target, env);
    PostKeys(p, o.now, s, fx);
  }

  lemma EnvelopeTruth(p: Platform, o: Oracle, i: nat, s: State, source: Id, target: Id, env: Envelope)
    requires source in s.colonies && target in s.colonies
    requires PlanEnvelope(p, o, i, s, source, target, env).Ok? && PlanEnvelope(p, o, i, s, source, target, env).value.Some?
    ensures SendsTruth(p, o.now, s, PlanEnvelope(p, o, i, s, source, target, env).value.value)
  {
    hide Post, SendsTruth, DecideRefund, Credit, AcceptedAfterExpiry;
    var id := env.body.trade;
    if env.kind == "acceptance" {
      var t := s.trades[id];
      if t.status != AcceptancePendingExport {
        RefundTruth(p, o, i, s, source, target, id, env, if t.status == Expired then EXPIRED_REASON else CANCELLED_REASON);
      } else if AcceptedAfterExpiry(p, t, env.body.acceptedAt).value {
        RefundTruth(p, o, i, s, source, target, id, env, LATE_REASON);
      } else {
        CreditTruth(p, o, i, s, source, target, env);
      }
    } else if env.kind == "cancel_request" {
      RefundTruth(p, o, i, s, source, target, id, env, CANCEL_REASON);
    } else {
      SilentTruth(p, o, i, s, source, target, env);
    }
  }

  lemma SilentTruth(p: Platform, o: Oracle, i: nat, s: State, source: Id, target: Id, env: Envelope)
    requires source in s.colonies && target in s.colonies && env.kind != "acceptance" && env.kind != "cancel_request"
    requires PlanEnvelope(p, o, i, s, source, target, env).Ok? && PlanEnvelope(p, o, i, s, source, target, env).value.Some?
    ensures SendsTruth(p, o.now, s, PlanEnvelope(p, o, i, s, source, target, env).value.value)
  {
    hide Post, Authentic, PlanImportOffer, PlanImportSettlement, PlanImportRefund;
    assert PlanEnvelope(p, o, i, s, source, target, env).value.value.emit == [];
  }

  // ---- imports of authentic envelopes succeed ------------------------------------

  predicate OkOrOverflow<T>(r: Result<T>) {
    r.Ok? || r.error == Overflow
  }

  lemma OfferImports(p: Platform, o: Oracle, s: State, env: Envelope)
    requires KeysPaired(p, s) && Authentic(p, s, env) && env.kind == "offer"
    requires TradeRow(s, s.trades[env.body.trade])
    ensures PlanImportOffer(p, s, env.from, env.to, env).Ok?
  {
    StepFacts(s.trades[env.body.trade].status);
    var u := s.users[env.body.seller];
    assert KeyPair(p, u.pub, u.priv);
    TableRows();
  }

  lemma AcceptanceImports(p: Platform, o: Oracle, i: nat, s: State, env: Envelope)
    requires KeysPaired(p, s) && Authentic(p, s, env) && env.kind == "acceptance"
    requires TradeRow(s, s.trades[env.body.trade]) && s.trades[env.body.trade].seller in s.colonies[env.to].accounts
    ensures OkOrOverflow(PlanImportAcceptance(p, o, i, s, env.from, env.to, env))
  {
    StepFacts(s.trades[env.body.trade].status);
    var u := s.users[env.body.buyer];
    assert KeyPair(p, u.pub, u.priv);
    TableRows();
  }

  lemma CancelImports(p: Platform, o: Oracle, i: nat, s: State, env: Envelope)
    requires KeysPaired(p, s) && Authentic(p, s, env) && env.kind == "cancel_request"
    requires TradeRow(s, s.trades[env.body.trade])
    ensures PlanImportCancel(p, o, i, s, env.from, env.to, env).Ok?
  {
    StepFacts(s.trades[env.body.trade].status);
    var u := s.users[env.body.buyer];
    assert KeyPair(p, u.pub, u.priv);
    TableRows();
  }

  lemma SettlementImports(p: Platform, o: Oracle, s: State, env: Envelope)
    requires Authentic(p, s, env) && env.kind == "settlement"
    ensures PlanImportSettlement(p, o, s, env.from, env.to, env).Ok?
  {
    StepFacts(s.trades[env.body.trade].status);
    TableRows();
  }

  lemma RefundImports(p: Platform, o: Oracle, s: State, env: Envelope)
    requires Authentic(p, s, env) && env.kind == "refund"
    requires s.trades[env.body.trade].buyer in s.colonies[env.to].accounts
    ensures OkOrOverflow(PlanImportRefund(p, o, s, env.from, env.to, env))
  {
    StepFacts(s.trades[env.body.trade].status);
    TableRows();
  }

  /** Any authentic envelope, at any time, is imported or skipped: only a 64-bit overflow can stop it. */
  lemma AuthenticImports(p: Platform, o: Oracle, i: nat, s: State, env: Envelope)
    requires Inv(p, s) && KeysPaired(p, s) && Authentic(p, s, env)
    ensures OkOrOverflow(PlanEnvelope(p, o, i, s, env.from, env.to, env))
  {
    var t := s.trades[env.body.trade];
    assert TradeRow(s, t);
    if env.kind == "offer" {
      OfferImports(p, o, s, env);
    } else if env.kind == "acceptance" {
      AcceptanceImports(p, o, i, s, env);
    } else if env.kind == "settlement" {
      SettlementImports(p, o, s, env);
    } else if env.kind == "cancel_request" {
      CancelImports(p, o, i, s, env);
    } else {
      RefundImports(p, o, s, env);
    }
  }

  /** A message slot of a bundle from `source` to `target` that the relay may deliver honestly. */
  ghost predicate HonestMessage(p: Platform, s: State, source: Id, target: Id, m: Option<Envelope>) {
    m.Some? ==> Authentic(p, s, m.value) && m.value.from == source && m.value.to == target
  }

  /** Importing founds no colony and enrols no user. */
  predicate SamePeople(s: State, s': State) {
    s'.users == s.users && s'.colonies.Keys == s.colonies.Keys
  }

  lemma MessageKeepsPeople(p: Platform, o: Oracle, i: nat, source: Id, target: Id, acc: Progress, m: Option<Envelope>)
    requires source in acc.state.colonies && target in acc.state.colonies
    requires ImportMessage(p, o, i, source, target, acc, m).Ok?
    ensures SamePeople(acc.state, ImportMessage(p, o, i, source, target, acc, m).value.state)
  {
    hide Inv, PlanEnvelope, Post;
    if m.Some? && m.value.id !in acc.state.colonies[target].processed {
      var step := PlanEnvelope(p, o, i, acc.state, source, target, m.value).value;
      if step.Some? {
        PostKeys(p, o.now, acc.state, step.value);
      }
    }
  }

  /** What the loop keeps: the invariant, the people, and the past. */
  ghost predicate LoopKeeps(p: Platform, s: State, s': State) {
    Good(p, s, s') && SamePeople(s, s')
  }

  lemma {:induction false} LoopGood(p: Platform, o: Oracle, s: State, source: Id, target: Id, messages: seq<Option<Envelope>>, n: nat)
    requires source in s.colonies && target in s.colonies && n <= |messages| && Inv(p, s)
    requires ImportUpTo(p, o, s, source, target, messages, n).Ok?
    ensures LoopKeeps(p, s, ImportUpTo(p, o, s, source, target, messages, n).value.state)
  {
    hide Inv, Evolves, ImportMessage;
    ImportGood(p, o, s, source, target, messages, n);
    if n > 0 {
      LoopGood(p, o, s, source, target, messages, n - 1);
      var acc := ImportUpTo(p, o, s, source, target, messages, n - 1).value;
      MessageKeepsPeople(p, o, n - 1, source, target, acc, messages[n - 1]);
    }
  }

  lemma PairsStay(p: Platform, s: State, s': State)
    requires KeysPaired(p, s) && Evolves(s, s') && SamePeople(s, s')
    ensures KeysPaired(p, s')
  {
    forall c | c in s'.colonies ensures KeyPair(p, s'.colonies[c].pub, s'.colonies[c].priv) {
      assert ColonyEvolves(s.colonies[c], s'.colonies[c]);
    }
  }

  lemma HonestTurn(p: Platform, o: Oracle, i: nat, s: State, source: Id, target: Id, acc: Progress, m: Option<Envelope>)
    requires LoopKeeps(p, s, acc.state) && KeysPaired(p, s)
    requires source in s.colonies && target in s.colonies && source in acc.state.colonies && target in acc.state.colonies
    requires HonestMessage(p, s, source, target, m)
    ensures OkOrOverflow(ImportMessage(p, o, i, source, target, acc, m))
  {
    hide Inv, PlanEnvelope, Evolves, Truthful;
    if m.Some? {
      var now := acc.state;
      AuthenticStays(p, s, now, m.value);
      PairsStay(p, s, now);
      assert KeyPair(p, now.colonies[source].pub, now.colonies[source].priv);
      AuthenticImports(p, o, i, now, m.value);
    }
  }

  lemma {:induction false} HonestLoop(p: Platform, o: Oracle, s: State, source: Id, target: Id, messages: seq<Option<Envelope>>, n: nat)
    requires Inv(p, s) && KeysPaired(p, s) && source in s.colonies && target in s.colonies && n <= |messages|
    requires forall i :: 0 <= i < |messages| ==> HonestMessage(p, s, source, target, messages[i])
    ensures OkOrOverflow(ImportUpTo(p, o, s, source, target, messages, n))
  {
    hide Inv, LoopKeeps, ImportMessage, KeysPaired, HonestMessage;
    if n > 0 {
      HonestLoop(p, o, s, source, target, messages, n - 1);
      if ImportUpTo(p, o, s, source, target, messages, n - 1).Ok? {
        LoopGood(p, o, s, source, target, messages, n - 1);
        var acc := ImportUpTo(p, o, s, source, target, messages, n - 1).value;
        HonestTurn(p, o, n - 1, s, source, target, acc, messages[n - 1]);
      }
    }
  }

  // ---- honest runs ----------------------------------------------------------------

  /** The invariant of runs in which key pairs are drawn as pairs; envelopes may still come from anyone. */
  ghost predicate Upright(p: Platform, s: State) {
    Inv(p, s) && KeysPaired(p, s) && Mailed(p, s)
  }

  ghost predicate NextUpright(p: Platform, s: State, s': State) {
    exists op: Op, o: Oracle :: Fresh(s, o) && KeyPair(p, o.pub, o.priv) && s' == After(p, o, s, op)
  }

  ghost predicate UprightRun(p: Platform, run: seq<State>) {
    && ClockText(p)
    && |run| > 0 && Start(run[0]) && KeysPaired(p, run[0])
    && forall i :: 0 < i < |run| ==> NextUpright(p, run[i - 1], run[i])
  }

  lemma {:induction false} KeptIsSubset(outbox: seq<Envelope>, to: Id)
    ensures forall e :: e in Kept(outbox, to) ==> e in outbox
  {
    if outbox != [] {
      KeptIsSubset(outbox[..|outbox| - 1], to);
    }
  }

  /** Whatever is in an outbox after a step was there before or has just been emitted. */
  lemma OutboxAfter(p: Platform, now: int, m: map<Id, Colony>, fx: Effect, c: Id, e: Envelope)
    requires c in PostColonies(p, now, m, fx) && e in PostColonies(p, now, m, fx)[c].outbox
    ensures c in m
    ensures e in m[c].outbox || (c == fx.colony && e in fx.emit)
  {
    if fx.drain.Some? {
      KeptIsSubset(m[c].outbox, fx.drain.value);
    }
  }

  lemma MailStep(p: Platform, now: int, s: State, fx: Effect)
    requires Mailed(p, s) && SendsTruth(p, now, s, fx) && Evolves(s, Post(p, now, s, fx))
    requires fx.founded.Some? ==> fx.founded.value.1.outbox == []
    ensures Mailed(p, Post(p, now, s, fx))
  {
    hide Evolves, Authentic, PostColonies;
    var s' := Post(p, now, s, fx);
    forall c, e | c in s'.colonies && e in s'.colonies[c].outbox ensures e.from == c && Authentic(p, s', e) {
      OutboxAfter(p, now, Put(s.colonies, fx.founded), fx, c, e);
      if !(c == fx.colony && e in fx.emit) {
        assert e in s.colonies[c].outbox;
        AuthenticStays(p, s, s', e);
      }
    }
  }

  lemma MailSkin(p: Platform, s: State, s': State)
    requires Mailed(p, s) && Evolves(s, s') && SamePeople(s, s')
    requires forall c :: c in s.colonies ==> s'.colonies[c].outbox == s.colonies[c].outbox
    ensures Mailed(p, s')
  {
    forall c, e | c in s'.colonies && e in s'.colonies[c].outbox ensures e.from == c && Authentic(p, s', e) {
      AuthenticStays(p, s, s', e);
    }
  }

  /** What each request sends is authentic. */
  lemma RequestTruth(p: Platform, o: Oracle, s: State, token: string, request: Request)
    requires Rows(s) && ClockText(p) && Plan(p, o, s, token, request).Ok?
    ensures SendsTruth(p, o.now, s, Plan(p, o, s, token, request).value)
  {
    hide SendsTruth, Post, Rows;
    match request {
      case CreateOffer(seller, buyer, asset, price, ttl) => OfferTruth(p, o, s, token, seller, buyer, asset, price, ttl);
      case AcceptTrade(t) => TradeHomes(s, t); AcceptTruth(p, o, s, token, t);
      case CancelTrade(t) => TradeHomes(s, t); CancelTruth(p, o, s, token, t);
      case _ => QuietTruth(p, o, s, token, request);
    }
  }

  lemma QuietTruth(p: Platform, o: Oracle, s: State, token: string, request: Request)
    requires !request.CreateOffer? && !request.AcceptTrade? && !request.CancelTrade?
    requires Plan(p, o, s, token, request).Ok?
    ensures SendsTruth(p, o.now, s, Plan(p, o, s, token, request).value)
  {
    hide Post, Authentic, Actor, AddChecked, TrimSpace, Picked, Wrapped, Stamp, EffectiveMintCap, TransitionAllowed, CanManageColony, CanRelay, HasRole, ValidatePolicy;
    assert Plan(p, o, s, token, request).value.emit == [];
  }

  /** New rows carry the keys just drawn. */
  lemma RequestKeys(p: Platform, o: Oracle, s: State, token: string, request: Request)
    requires Inv(p, s) && Fresh(s, o) && Plan(p, o, s, token, request).Ok?
    ensures var fx := Plan(p, o, s, token, request).value;
            && (fx.founded.Some? ==> fx.founded.value.1.pub == o.pub && fx.founded.value.1.priv == o.priv
                                     && fx.founded.value.1.outbox == [])
            && (fx.user.Some? ==> fx.user.value.1.pub == o.pub && fx.user.value.1.priv == o.priv)
  {
    if !request.CreateColony? && !request.CreateUser? {
      hide Plan, Inv, Lawful, Sound;
      InvIsSound(p, s);
      RequestLawful(p, o, s, token, request);
      LawfulActs(p, s, Plan(p, o, s, token, request).value);
    } else {
      hide Inv, Actor, Stamp, CanManageColony, CanRelay, HasRole, ValidatePolicy;
    }
  }

  /** Posting adds no colony and no user but the effect's own. */
  lemma PostPeople(p: Platform, now: int, s: State, fx: Effect)
    ensures var s' := Post(p, now, s, fx);
            && s'.users == Put(s.users, fx.user)
            && s'.colonies.Keys == Put(s.colonies, fx.founded).Keys
            && forall c :: c in s'.colonies && c !in s.colonies ==>
                 fx.founded.Some? && s'.colonies[c].pub == fx.founded.value.1.pub && s'.colonies[c].priv == fx.founded.value.1.priv
  {
  }

  lemma RequestUpright(p: Platform, o: Oracle, s: State, token: string, request: Request)
    requires Upright(p, s) && ClockText(p) && Fresh(s, o) && KeyPair(p, o.pub, o.priv) && Plan(p, o, s, token, request).Ok?
    ensures Upright(p, Post(p, o.now, s, Plan(p, o, s, token, request).value))
  {
    hide Inv, Evolves, Plan, Post, Mailed, SendsTruth;
    var fx := Plan(p, o, s, token, request).value;
    RequestGood(p, o, s, token, request);
    InvHasRows(p, s);
    RequestTruth(p, o, s, token, request);
    RequestKeys(p, o, s, token, request);
    PostPeople(p, o.now, s, fx);
    MailStep(p, o.now, s, fx);
    KeysStay(p, s, Post(p, o.now, s, fx), o);
  }

  lemma MessageUpright(p: Platform, o: Oracle, i: nat, source: Id, target: Id, acc: Progress, m: Option<Envelope>)
    requires source in acc.state.colonies && target in acc.state.colonies
    requires Inv(p, acc.state) && Mailed(p, acc.state)
    requires ImportMessage(p, o, i, source, target, acc, m).Ok?
    ensures Mailed(p, ImportMessage(p, o, i, source, target, acc, m).value.state)
  {
    hide Inv, Evolves, PlanEnvelope, Post, Mailed, SendsTruth, Lawful, Sound, Skin, SamePeople, MarkProcessed;
    var s := acc.state;
    if m.Some? && m.value.id !in s.colonies[target].processed {
      var step := PlanEnvelope(p, o, i, s, source, target, m.value).value;
      var mid := s;
      if step.Some? {
        InvIsSound(p, s);
        EnvelopeLawful(p, o, i, s, source, target, m.value);
        EnvelopeTruth(p, o, i, s, source, target, m.value);
        PostEvolves(p, o.now, s, step.value);
        LawfulActs(p, s, step.value);
        MailStep(p, o.now, s, step.value);
        mid := Post(p, o.now, s, step.value);
      }
      MarkIsSkin(mid, target, m.value.id);
      SkinEvolves(mid, MarkProcessed(mid, target, m.value.id));
      MarkPeople(mid, target, m.value.id);
      MailSkin(p, mid, MarkProcessed(mid, target, m.value.id));
    }
  }

  lemma MarkPeople(s: State, target: Id, id: Id)
    ensures SamePeople(s, MarkProcessed(s, target, id))
    ensures forall c :: c in s.colonies ==> MarkProcessed(s, target, id).colonies[c].outbox == s.colonies[c].outbox
  {
  }

  lemma {:induction false} LoopMailed(p: Platform, o: Oracle, s: State, source: Id, target: Id, messages: seq<Option<Envelope>>, n: nat)
    requires source in s.colonies && target in s.colonies && n <= |messages| && Inv(p, s) && Mailed(p, s)
    requires ImportUpTo(p, o, s, source, target, messages, n).Ok?
    ensures Mailed(p, ImportUpTo(p, o, s, source, target, messages, n).value.state)
  {
    hide Inv, Evolves, ImportMessage, Mailed;
    if n > 0 {
      LoopMailed(p, o, s, source, target, messages, n - 1);
      ImportGood(p, o, s, source, target, messages, n - 1);
      MessageUpright(p, o, n - 1, source, target, ImportUpTo(p, o, s, source, target, messages, n - 1).value, messages[n - 1]);
    }
  }

  /** An effect that sends nothing and brings in nobody. */
  lemma SilentUpright(p: Platform, now: int, s: State, fx: Effect)
    requires Upright(p, s) && Lawful(p, s, fx) && fx.emit == []
    ensures Upright(p, Post(p, now, s, fx)) && Evolves(s, Post(p, now, s, fx)) && SamePeople(s, Post(p, now, s, fx))
  {
    hide Inv, Evolves, Lawful, Post, Mailed;
    LawfulGood(p, now, s, fx);
    LawfulActs(p, s, fx);
    MailStep(p, now, s, fx);
    PostPeople(p, now, s, fx);
    PairsStay(p, s, Post(p, now, s, fx));
  }

  lemma BundleUpright(p: Platform, o: Oracle, s: State, token: string, colony: Id, id: Id, b: Bundle)
    requires Upright(p, s) && ImportBundle(p, o, s, token, colony, id, b).Ok?
    ensures Upright(p, ImportBundle(p, o, s, token, colony, id, b).value.0)
  {
    hide Inv, Evolves, ImportUpTo, Mailed, Lawful, KeysPaired, Post;
    var actorId := CheckImport(p, o, s, token, colony, b).value;
    LoopGood(p, o, s, b.from, colony, b.messages, |b.messages|);
    LoopMailed(p, o, s, b.from, colony, b.messages, |b.messages|);
    var acc := ImportUpTo(p, o, s, b.from, colony, b.messages, |b.messages|).value;
    PairsStay(p, s, acc.state);
    var fx := ImportClosing(colony, actorId, id, b, acc.imported, acc.skipped);
    ClosingLawful(p, acc.state, colony, actorId, id, b, acc.imported, acc.skipped);
    SilentUpright(p, o.now, acc.state, fx);
  }

  lemma {:induction false} SweepUpright(p: Platform, now: int, s: State, order: seq<Id>)
    requires Upright(p, s)
    ensures Upright(p, Sweep(p, now, s, order))
  {
    if order != [] {
      var mid, last := Sweep(p, now, s, order[..|order| - 1]), order[|order| - 1];
      SweepUpright(p, now, s, order[..|order| - 1]);
      ExpireUpright(p, now, mid, last);
    }
  }

  lemma ExpireUpright(p: Platform, now: int, s: State, t: Id)
    requires Upright(p, s)
    ensures PlanExpire(p, now, s, t).Some? ==> Upright(p, Post(p, now, s, PlanExpire(p, now, s, t).value))
  {
    hide Post, Lawful, Mailed, KeysPaired, Accounting, Conserved, Mirrored, AllChained, Replays, Outcomes, SupplyBounds, DualControl;
    if PlanExpire(p, now, s, t).Some? {
      assert TradeRow(s, s.trades[t]);
      InvIsSound(p, s);
      ExpireLawful(p, now, s, t);
      SilentUpright(p, now, s, PlanExpire(p, now, s, t).value);
    }
  }

  lemma AdminChange(p: Platform, s: State, users: map<Id, User>, sessions: map<string, Session>)
    requires Upright(p, s) && users.Keys == s.users.Keys
    requires forall u :: u in s.users ==> SameIdentity(s.users[u], users[u])
    ensures Upright(p, s.(users := users, sessions := sessions))
  {
    hide Inv, Authentic, Evolves;
    var s1 := s.(users := users, sessions := sessions);
    assert Skin(s, s1);
    SkinKeepsInv(p, s, s1);
    SkinEvolves(s, s1);
    forall c, e | c in s1.colonies && e in s1.colonies[c].outbox ensures e.from == c && Authentic(p, s1, e) {
      AuthenticStays(p, s, s1, e);
    }
    forall u | u in s1.users ensures KeyPair(p, s1.users[u].pub, s1.users[u].priv) {
      assert SameIdentity(s.users[u], s1.users[u]);
    }
  }

  lemma AdminUpright(p: Platform, o: Oracle, s: State, op: Op)
    requires Upright(p, s) && op.Admin? && AdminAllowed(s, op)
    ensures Upright(p, Exec(p, o, s, op).value)
  {
    hide Inv, Evolves, Lawful, Post, Mailed, KeysPaired;
    var s1 := s.(users := op.users, sessions := op.sessions);
    AdminChange(p, s, op.users, op.sessions);
    if op.note.Some? {
      var fx := Logged(op.note.value.0, op.note.value.1, op.note.value.2);
      QuietEntryLawful(p, s1, fx);
      SilentUpright(p, o.now, s1, fx);
    }
  }

  lemma StepUpright(p: Platform, o: Oracle, s: State, op: Op)
    requires Upright(p, s) && ClockText(p) && Fresh(s, o) && KeyPair(p, o.pub, o.priv)
    ensures Upright(p, After(p, o, s, op))
  {
    hide Upright;
    if Exec(p, o, s, op).Ok? {
      match op {
        case Act(token, request) => RequestUpright(p, o, s, token, request);
        case Import(token, colony, id, b) => BundleUpright(p, o, s, token, colony, id, b);
        case SweepExpired(order) => SweepUpright(p, o.now, s, order);
        case Admin(_, _, _) => AdminUpright(p, o, s, op);
      }
    }
  }

  lemma {:induction false} EveryStateIsUpright(p: Platform, run: seq<State>, i: nat)
    requires UprightRun(p, run) && i < |run|
    ensures Upright(p, run[i])
  {
    if i == 0 {
      StartGood(p, run[0]);
    } else {
      EveryStateIsUpright(p, run, i - 1);
      assert NextUpright(p, run[i - 1], run[i]);
      var op, o :| Fresh(run[i - 1], o) && KeyPair(p, o.pub, o.priv) && run[i] == After(p, o, run[i - 1], op);
      StepUpright(p, o, run[i - 1], op);
    }
  }

  lemma UprightIsRun(p: Platform, run: seq<State>)
    requires UprightRun(p, run)
    ensures Run(p, run)
  {
    forall i | 0 < i < |run| ensures Next(p, run[i - 1], run[i]) {
      assert NextUpright(p, run[i - 1], run[i]);
    }
  }

  /** `e` has been in its colony's outbox at some time up to step `i`. */
  ghost predicate WasSent(run: seq<State>, i: nat, e: Envelope)
    requires i < |run|
  {
    exists j, c :: 0 <= j <= i && c in run[j].colonies && e in run[j].colonies[c].outbox
  }

  lemma SentIsAuthentic(p: Platform, run: seq<State>, i: nat, e: Envelope)
    requires UprightRun(p, run) && i < |run| && WasSent(run, i, e)
    ensures Authentic(p, run[i], e)
  {
    hide Authentic, Evolves, Run;
    var j, c :| 0 <= j <= i && c in run[j].colonies && e in run[j].colonies[c].outbox;
    EveryStateIsUpright(p, run, j);
    UprightIsRun(p, run);
    PastIsKept(p, run, j, i);
    AuthenticStays(p, run[j], run[i], e);
  }

  /**
   * Main theorem: a bundle of envelopes the platform itself sent at any time, in any order, any
   * number of times, delivered by an actor who may import it between trusting colonies, is imported;
   * the one possible failure is a 64-bit overflow.
   */
  lemma HonestDeliveryNeverFails(p: Platform, run: seq<State>, i: nat, o: Oracle, token: string, colony: Id, id: Id, b: Bundle)
    requires UprightRun(p, run) && i < |run|
    requires CheckImport(p, o, run[i], token, colony, b).Ok?
    requires forall k :: 0 <= k < |b.messages| && b.messages[k].Some? ==>
               && WasSent(run, i, b.messages[k].value)
               && b.messages[k].value.from == b.from && b.messages[k].value.to == colony
    ensures OkOrOverflow(ImportBundle(p, o, run[i], token, colony, id, b))
  {
    hide Inv, ImportUpTo, Authentic, UprightRun, KeysPaired, Mailed, WasSent;
    EveryStateIsUpright(p, run, i);
    forall k | 0 <= k < |b.messages| ensures HonestMessage(p, run[i], b.from, colony, b.messages[k]) {
      if b.messages[k].Some? {
        SentIsAuthentic(p, run, i, b.messages[k].value);
      }
    }
    HonestLoop(p, o, run[i], b.from, colony, b.messages, |b.messages|);
  }
}
