/** What each request does, told from the request: exactly when it succeeds and exactly what it changes. */
module Promises {
  import opened Basics
  import opened TradeTable
  import opened Model
  import opened Handlers
  import opened Invariant
  import opened Runs
  import opened Rights

  // ---- one entry in one colony -------------------------------------------------------

  /** Colony `id` is now `c` and one more entry; no other colony changed. */
  predicate Entered(p: Platform, o: Oracle, s: State, s': State, id: Id, c: Colony, actor: Id, payload: Payload) {
    && id in s.colonies && id in s'.colonies && s'.colonies == s.colonies[id := s'.colonies[id]]
    && var x := s'.colonies[id];
       && x == c.(ledger := x.ledger, nextSeq := x.nextSeq, lastHash := x.lastHash)
       && |x.ledger| == |c.ledger| + 1 && x.ledger[..|c.ledger|] == c.ledger
       && var e := x.ledger[|c.ledger|]; e.actor == actor && e.payload == payload && e.time == Stamp(p, o.now)
  }

  lemma PostEnters(p: Platform, o: Oracle, s: State, fx: Effect)
    requires fx.colony in s.colonies && fx.founded.None? && fx.claim.None?
    ensures var s' := Post(p, o.now, s, fx);
            && Entered(p, o, s, s', fx.colony, Touch(s.colonies[fx.colony], fx), fx.actor, fx.payload)
            && s' == s.(colonies := s'.colonies, trades := Put(s.trades, fx.trade), actions := Put(s.actions, fx.action),
                        users := Put(s.users, fx.user), bundles := Put(s.bundles, fx.bundle))
  {
    hide HashLedgerEntry, Touch, Stamp;
  }

  lemma SentNothing(c: Colony)
    ensures c.outbox + [] == c.outbox && c.(outbox := c.outbox + []) == c
  {
  }

  /** A letter of one colony to another, written and signed now. */
  function Letter(p: Platform, o: Oracle, s: State, kind: string, from: Id, to: Id, b: Body): Envelope
    requires from in s.colonies
  {
    var id, at := o.envelopeId(0), Stamp(p, o.now);
    Envelope(id, kind, from, to, b, at, p.sign(s.colonies[from].priv, EnvelopeSig(id, kind, from, to, b, at)))
  }

  // ---- offers ------------------------------------------------------------------------

  /** How long an offer lives: the default, or the seconds asked for, as 64-bit nanoseconds. */
  function Lifetime(ttlSeconds: int64): int {
    if ttlSeconds == 0 then 7 * DAY else Wrap(ttlSeconds * SECOND)
  }

  predicate OfferAllowed(p: Platform, o: Oracle, s: State, token: string, seller: Id, buyer: Id, asset: string, price: int64, ttlSeconds: int64) {
    var caller := Caller(s, token);
    && TrimSpace(asset) != "" && 0 < price <= MAX_AMOUNT
    && 60 * SECOND <= Lifetime(ttlSeconds) <= 90 * DAY
    && SignedIn(p, o, s, token) && MayTrade(s, caller) && (caller == seller || IsSuper(s, caller))
    && seller in s.users && buyer in s.users && seller != buyer
    && s.users[seller].colony != "" && s.users[buyer].colony != "" && s.users[seller].colony != s.users[buyer].colony
  }

  /** The offer that was asked for. */
  function AskedOffer(p: Platform, o: Oracle, s: State, seller: Id, buyer: Id, asset: string, price: int64, ttlSeconds: int64): Body
    requires seller in s.users && buyer in s.users
  {
    var from, to := s.users[seller].colony, s.users[buyer].colony;
    var createdAt, expiresAt := Stamp(p, o.now), Stamp(p, o.now + Lifetime(ttlSeconds));
    BLANK_BODY.(trade := o.newId, asset := TrimSpace(asset), price := price, seller := seller, sellerColony := from, buyer := buyer,
                buyerColony := to, createdAt := createdAt, expiresAt := expiresAt,
                sellerSig := p.sign(s.users[seller].priv, OfferSig(o.newId, TrimSpace(asset), price, seller, from, buyer, to, createdAt, expiresAt)))
  }

  function OfferLetter(p: Platform, o: Oracle, s: State, b: Body): Envelope
    requires b.Body? && b.sellerColony in s.colonies
  {
    Letter(p, o, s, "offer", b.sellerColony, b.buyerColony, b)
  }

  /** The row a new offer gets. */
  function OfferRow(b: Body, envelope: Id): Trade
    requires b.Body?
  {
    Trade(b.asset, b.price, b.seller, b.buyer, b.sellerColony, b.buyerColony, OfferPendingExport, envelope, "", "", "", "",
          b.sellerSig, "", b.createdAt, "", "", "", b.expiresAt, "")
  }

  /** The offer is a row and a letter; otherwise only the seller's ledger changed. */
  predicate Offered(p: Platform, o: Oracle, s: State, s': State, caller: Id, b: Body) {
    && b.Body? && b.sellerColony in s.colonies
    && var from, e := s.colonies[b.sellerColony], OfferLetter(p, o, s, b);
       && s' == s.(trades := s.trades[o.newId := OfferRow(b, e.id)], colonies := s'.colonies)
       && Entered(p, o, s, s', b.sellerColony, from.(outbox := from.outbox + [e]), caller,
                  OfferCreated(o.newId, b.price, b.buyer, e.id, b.expiresAt))
  }

  lemma OfferPlanned(p: Platform, o: Oracle, s: State, token: string, seller: Id, buyer: Id, asset: string, price: int64, ttlSeconds: int64)
    requires Rows(s)
    ensures Plan(p, o, s, token, CreateOffer(seller, buyer, asset, price, ttlSeconds)).Ok?
            <==> OfferAllowed(p, o, s, token, seller, buyer, asset, price, ttlSeconds)
  {
    hide Actor, SignedIn, TrimSpace, Wrap, Stamp, Sealed, OfferEffect;
    CallersAreSignedIn(p, o, s, token);
  }

  lemma OfferEffected(p: Platform, o: Oracle, s: State, token: string, seller: Id, buyer: Id, asset: string, price: int64, ttlSeconds: int64)
    requires Plan(p, o, s, token, CreateOffer(seller, buyer, asset, price, ttlSeconds)).Ok?
    ensures seller in s.users && buyer in s.users
    ensures var fx, b := Plan(p, o, s, token, CreateOffer(seller, buyer, asset, price, ttlSeconds)).value,
                         AskedOffer(p, o, s, seller, buyer, asset, price, ttlSeconds);
            && b.sellerColony in s.colonies
            && var e := OfferLetter(p, o, s, b);
               fx == Logged(b.sellerColony, Caller(s, token), OfferCreated(o.newId, price, buyer, e.id, b.expiresAt))
                     .(emit := [e], trade := Some((o.newId, OfferRow(b, e.id))))
  {
    hide Actor, SignedIn, TrimSpace, Wrap, Stamp;
    CallersAreSignedIn(p, o, s, token);
  }

  /** An offer is made exactly for its seller or a super admin, and the row and the one letter sent are the offer asked for. */
  lemma OffersAreAsAsked(p: Platform, o: Oracle, s: State, token: string, seller: Id, buyer: Id, asset: string, price: int64, ttlSeconds: int64)
    requires Inv(p, s)
    ensures var r := Exec(p, o, s, Act(token, CreateOffer(seller, buyer, asset, price, ttlSeconds)));
            && (r.Ok? <==> OfferAllowed(p, o, s, token, seller, buyer, asset, price, ttlSeconds))
            && (r.Ok? ==> Offered(p, o, s, r.value, Caller(s, token), AskedOffer(p, o, s, seller, buyer, asset, price, ttlSeconds)))
  {
    hide Inv, Plan, Post, OfferAllowed, OfferLetter, OfferRow, Entered, Caller, TrimSpace, Stamp, Lifetime;
    InvHasRows(p, s);
    OfferPlanned(p, o, s, token, seller, buyer, asset, price, ttlSeconds);
    var plan := Plan(p, o, s, token, CreateOffer(seller, buyer, asset, price, ttlSeconds));
    if plan.Ok? {
      OfferEffected(p, o, s, token, seller, buyer, asset, price, ttlSeconds);
      PostEnters(p, o, s, plan.value);
    }
  }

  /** The lifetime is the one asked for, and within the limits, exactly for 60 to 7776000 seconds: a longer one may wrap around into them. */
  lemma LifetimeIsAsAsked(ttlSeconds: int64)
    ensures 60 * SECOND <= Lifetime(ttlSeconds) <= 90 * DAY && Lifetime(ttlSeconds) == ttlSeconds * SECOND <==> 60 <= ttlSeconds <= 7776000
  {
    if MIN_INT64 <= ttlSeconds * SECOND <= MAX_INT64 {
    } else {
      hide Wrap;
    }
  }

  /** A request for an offer of about 584 years is accepted, and lives for a minute. */
  lemma LongestOfferLivesAMinute()
    ensures 60 * SECOND <= Lifetime(18446744134) < 61 * SECOND
  {
  }

  // ---- acceptances -----------------------------------------------------------------------

  /** The offer has an expiry, and it has passed. */
  predicate Lapsed(p: Platform, now: int, t: Trade) {
    t.expiresAt != "" && TimeIsPast(p, now, t.expiresAt)
  }

  predicate OpenNow(p: Platform, o: Oracle, s: State, t: Id) {
    t in s.trades && s.trades[t].status == OfferReceived && !Lapsed(p, o.now, s.trades[t])
  }

  /** The buyer, or a super admin, with the trader role and at least the price. */
  predicate AcceptAllowed(p: Platform, o: Oracle, s: State, token: string, t: Id) {
    && SignedIn(p, o, s, token) && OpenNow(p, o, s, t)
    && var caller, row := Caller(s, token), s.trades[t];
       && MayTrade(s, caller) && (caller == row.buyer || IsSuper(s, caller))
       && row.buyerColony in s.colonies && row.buyer in s.colonies[row.buyerColony].accounts
       && s.colonies[row.buyerColony].accounts[row.buyer] >= row.price
  }

  /** The acceptance the buyer signs now. */
  function AcceptanceOf(p: Platform, o: Oracle, s: State, t: Id): Body
    requires t in s.trades && s.trades[t].buyer in s.users
  {
    var row, at := s.trades[t], Stamp(p, o.now);
    BLANK_BODY.(trade := t, buyer := row.buyer, buyerColony := row.buyerColony, debit := row.price, acceptedAt := at,
                buyerSig := p.sign(s.users[row.buyer].priv, AcceptanceSig(t, row.buyer, row.buyerColony, row.price, at)))
  }

  /** The buyer pays the price, the acceptance is queued, and the row remembers both. */
  predicate Accepted(p: Platform, o: Oracle, s: State, s': State, caller: Id, t: Id) {
    && t in s.trades && s.trades[t].buyer in s.users && s.trades[t].buyerColony in s.colonies
    && s.trades[t].buyer in s.colonies[s.trades[t].buyerColony].accounts
    && var row, c, b := s.trades[t], s.colonies[s.trades[t].buyerColony], AcceptanceOf(p, o, s, t);
       var e, paid := Letter(p, o, s, "acceptance", row.buyerColony, row.sellerColony, b), c.accounts[row.buyer] - row.price;
       && MIN_INT64 <= paid <= MAX_INT64
       && s' == s.(trades := s.trades[t := row.(status := AcceptancePendingExport, acceptedAt := b.acceptedAt, buyerSig := b.buyerSig,
                                                acceptanceEnvelope := e.id)],
                   colonies := s'.colonies)
       && Entered(p, o, s, s', row.buyerColony, c.(accounts := c.accounts[row.buyer := paid], outbox := c.outbox + [e]), caller,
                  TradeAccepted(t, row.price, paid, e.id))
  }

  lemma AcceptPlanned(p: Platform, o: Oracle, s: State, token: string, t: Id)
    requires Rows(s) && (t in s.trades ==> TradeRow(s, s.trades[t]))
    ensures Plan(p, o, s, token, AcceptTrade(t)).Ok? <==> AcceptAllowed(p, o, s, token, t)
  {
    hide Rows, Actor, SignedIn, Wrap, Stamp, Sealed, AcceptanceEffect;
    CallersAreSignedIn(p, o, s, token);
    if t in s.trades {
      TradeHomes(s, t);
      TableRows();
    }
  }

  lemma AcceptEffected(p: Platform, o: Oracle, s: State, token: string, t: Id)
    requires Plan(p, o, s, token, AcceptTrade(t)).Ok? && t in s.trades && TradeRow(s, s.trades[t])
    ensures s.trades[t].buyerColony in s.colonies && s.trades[t].buyer in s.colonies[s.trades[t].buyerColony].accounts
    ensures var fx, row, b := Plan(p, o, s, token, AcceptTrade(t)).value, s.trades[t], AcceptanceOf(p, o, s, t);
            var e := Letter(p, o, s, "acceptance", row.buyerColony, row.sellerColony, b);
            var paid := s.colonies[row.buyerColony].accounts[row.buyer] - row.price;
            && MIN_INT64 <= paid <= MAX_INT64
            && fx == Logged(row.buyerColony, Caller(s, token), TradeAccepted(t, row.price, paid, e.id))
                     .(account := Some((row.buyer, paid)), emit := [e],
                       trade := Some((t, row.(status := AcceptancePendingExport, acceptedAt := b.acceptedAt, buyerSig := b.buyerSig,
                                              acceptanceEnvelope := e.id))))
  {
    hide Actor, SignedIn, IsExpired, Stamp, TransitionAllowed;
    CallersAreSignedIn(p, o, s, token);
  }

  /** An open offer is accepted exactly by its buyer or a super admin who can pay, a balance of the very price being enough. */
  lemma AcceptancesAreAsAsked(p: Platform, o: Oracle, s: State, token: string, t: Id)
    requires Inv(p, s)
    ensures var r := Exec(p, o, s, Act(token, AcceptTrade(t)));
            && (r.Ok? <==> AcceptAllowed(p, o, s, token, t))
            && (r.Ok? ==> Accepted(p, o, s, r.value, Caller(s, token), t))
  {
    hide Inv, Rows, Plan, Post, AcceptAllowed, AcceptanceOf, Letter, Entered, Caller;
    InvHasRows(p, s);
    if t in s.trades {
      TradeHomes(s, t);
    }
    AcceptPlanned(p, o, s, token, t);
    var plan := Plan(p, o, s, token, AcceptTrade(t));
    if plan.Ok? {
      AllowedKnows(p, o, s, token, t);
      AcceptEffected(p, o, s, token, t);
      PostEnters(p, o, s, plan.value);
    }
  }

  lemma AllowedKnows(p: Platform, o: Oracle, s: State, token: string, t: Id)
    requires AcceptAllowed(p, o, s, token, t)
    ensures t in s.trades
  {
  }

  // ---- cancelling ------------------------------------------------------------------------

  predicate CancelAllowed(p: Platform, o: Oracle, s: State, token: string, t: Id) {
    var caller := Caller(s, token);
    && SignedIn(p, o, s, token) && MayTrade(s, caller) && t in s.trades
    && match s.trades[t].status
       case OfferPendingExport | OfferReceived => caller == s.trades[t].seller || IsSuper(s, caller)
       case AcceptancePendingExport => caller == s.trades[t].buyer || IsSuper(s, caller)
       case _ => false
  }

  /** An unaccepted offer is closed; of a paid one only the wish to cancel is signed and sent. */
  predicate CancelledOrAsked(p: Platform, o: Oracle, s: State, s': State, caller: Id, t: Id) {
    && t in s.trades
    && var row := s.trades[t];
       if row.status == AcceptancePendingExport then
         && row.buyer in s.users && row.buyerColony in s.colonies
         && var c, at := s.colonies[row.buyerColony], Stamp(p, o.now);
            var b := BLANK_BODY.(trade := t, buyer := row.buyer, buyerColony := row.buyerColony, requestedAt := at,
                                 buyerSig := p.sign(s.users[row.buyer].priv, CancelSig(t, row.buyer, row.buyerColony, at)));
            var e := Letter(p, o, s, "cancel_request", row.buyerColony, row.sellerColony, b);
            && s' == s.(trades := s.trades[t := row.(cancelEnvelope := e.id)], colonies := s'.colonies)
            && Entered(p, o, s, s', row.buyerColony, c.(outbox := c.outbox + [e]), caller, CancelRequested(t, e.id))
       else
         && row.sellerColony in s.colonies
         && s' == s.(trades := s.trades[t := row.(status := Cancelled)], colonies := s'.colonies)
         && Entered(p, o, s, s', row.sellerColony, s.colonies[row.sellerColony], caller, OfferCancelled(t))
  }

  lemma CancelPlanned(p: Platform, o: Oracle, s: State, token: string, t: Id)
    requires Rows(s) && (t in s.trades ==> TradeRow(s, s.trades[t]))
    ensures Plan(p, o, s, token, CancelTrade(t)).Ok? <==> CancelAllowed(p, o, s, token, t)
  {
    hide Rows, Actor, SignedIn, Stamp, Sealed, CancelEffect, CloseEffect;
    CallersAreSignedIn(p, o, s, token);
    if t in s.trades {
      TradeHomes(s, t);
      TableRows();
    }
  }

  lemma CancelEffected(p: Platform, o: Oracle, s: State, token: string, t: Id)
    requires Plan(p, o, s, token, CancelTrade(t)).Ok? && t in s.trades && TradeRow(s, s.trades[t])
    requires s.trades[t].buyerColony in s.colonies && s.trades[t].sellerColony in s.colonies
    ensures CancelledOrAsked(p, o, s, Post(p, o.now, s, Plan(p, o, s, token, CancelTrade(t)).value), Caller(s, token), t)
  {
    hide Actor, SignedIn, Stamp, TransitionAllowed, Post, Entered, Caller;
    CallersAreSignedIn(p, o, s, token);
    PostEnters(p, o, s, Plan(p, o, s, token, CancelTrade(t)).value);
    SentNothing(s.colonies[s.trades[t].sellerColony]);
  }

  /** Only its seller closes an open offer, only its buyer asks to cancel a paid one, a super admin either; nobody anything else. */
  lemma CancelsAreAsAsked(p: Platform, o: Oracle, s: State, token: string, t: Id)
    requires Inv(p, s)
    ensures var r := Exec(p, o, s, Act(token, CancelTrade(t)));
            && (r.Ok? <==> CancelAllowed(p, o, s, token, t))
            && (r.Ok? ==> CancelledOrAsked(p, o, s, r.value, Caller(s, token), t))
  {
    hide Inv, Rows, Plan, Post, CancelledOrAsked, Caller;
    InvHasRows(p, s);
    if t in s.trades {
      TradeHomes(s, t);
    }
    CancelPlanned(p, o, s, token, t);
    if Plan(p, o, s, token, CancelTrade(t)).Ok? {
      CancelEffected(p, o, s, token, t);
    }
  }

  // ---- exporting -------------------------------------------------------------------------

  predicate ExportAllowed(p: Platform, o: Oracle, s: State, token: string, from: Id, to: Id) {
    from != "" && to != "" && SignedIn(p, o, s, token) && MayRelay(s, Caller(s, token), from) && from in s.colonies && to in s.colonies
  }

  /** `part` stands at the places `at` of `whole`, in order, and these are all the letters that are for `to`, or all that are not. */
  ghost predicate StandsAt(whole: seq<Envelope>, part: seq<Envelope>, at: seq<nat>, to: Id, meant: bool) {
    && |at| == |part| && (forall i, j :: 0 <= i < j < |at| ==> at[i] < at[j])
    && (forall i :: 0 <= i < |at| ==> at[i] < |whole| && part[i] == whole[at[i]])
    && (forall k :: 0 <= k < |whole| ==> ((whole[k].to == to) == meant <==> k in at))
  }

  ghost predicate Portion(whole: seq<Envelope>, part: seq<Envelope>, to: Id, meant: bool) {
    exists at: seq<nat> :: StandsAt(whole, part, at, to, meant)
  }

  /** The letters of a bundle without a gap. */
  function Letters(messages: seq<Option<Envelope>>): seq<Envelope>
    requires forall i :: 0 <= i < |messages| ==> messages[i].Some?
  {
    seq(|messages|, i requires 0 <= i < |messages| => messages[i].value)
  }

  /** The bundle took exactly the letters for `to`, in their order, and left exactly the others, in theirs; none is lost or doubled. */
  ghost predicate Exported(p: Platform, o: Oracle, s: State, s': State, caller: Id, from: Id, to: Id) {
    && from in s.colonies && from in s'.colonies && o.newId in s'.bundles
    && var was, left, b := s.colonies[from].outbox, s'.colonies[from].outbox, s'.bundles[o.newId];
       && b.from == from && b.to == to && b.exportedAt == Stamp(p, o.now)
       && (forall i :: 0 <= i < |b.messages| ==> b.messages[i].Some?)
       && Portion(was, Letters(b.messages), to, true) && Portion(was, left, to, false)
       && multiset(was) == multiset(left) + multiset(Letters(b.messages))
       && s' == s.(bundles := s.bundles[o.newId := b], colonies := s'.colonies)
       && Entered(p, o, s, s', from, s.colonies[from].(outbox := left), caller, BundleExported(o.newId, to, |b.messages|))
  }

  lemma PlaceAppended(whole: seq<Envelope>, part: seq<Envelope>, at: seq<nat>, to: Id, meant: bool, e: Envelope)
    requires StandsAt(whole, part, at, to, meant)
    ensures if (e.to == to) == meant then StandsAt(whole + [e], part + [e], at + [|whole|], to, meant)
            else StandsAt(whole + [e], part, at, to, meant)
  {
  }

  lemma NothingStands(to: Id, meant: bool)
    ensures StandsAt([], [], [], to, meant) && Picked([], to) == Kept([], to) == []
  {
  }

  lemma LastLetter(rest: seq<Envelope>, e: Envelope, to: Id)
    ensures Picked(rest + [e], to) == if e.to == to then Picked(rest, to) + [e] else Picked(rest, to)
    ensures Kept(rest + [e], to) == if e.to == to then Kept(rest, to) else Kept(rest, to) + [e]
  {
    assert (rest + [e])[..|rest|] == rest;
    assert Picked(rest, to) + [] == Picked(rest, to) && Kept(rest, to) + [] == Kept(rest, to);
  }

  lemma {:induction false} PickedStands(outbox: seq<Envelope>, to: Id) returns (at: seq<nat>)
    ensures StandsAt(outbox, Picked(outbox, to), at, to, true)
  {
    hide StandsAt, Picked;
    if outbox == [] {
      at := [];
      NothingStands(to, true);
    } else {
      var rest, e := outbox[..|outbox| - 1], outbox[|outbox| - 1];
      assert rest + [e] == outbox;
      at := PickedStands(rest, to);
      PlaceAppended(rest, Picked(rest, to), at, to, true, e);
      LastLetter(rest, e, to);
      at := if e.to == to then at + [|rest|] else at;
    }
  }

  lemma {:induction false} KeptStands(outbox: seq<Envelope>, to: Id) returns (at: seq<nat>)
    ensures StandsAt(outbox, Kept(outbox, to), at, to, false)
  {
    hide StandsAt, Kept;
    if outbox == [] {
      at := [];
      NothingStands(to, false);
    } else {
      var rest, e := outbox[..|outbox| - 1], outbox[|outbox| - 1];
      assert rest + [e] == outbox;
      at := KeptStands(rest, to);
      PlaceAppended(rest, Kept(rest, to), at, to, false, e);
      LastLetter(rest, e, to);
      at := if e.to == to then at else at + [|rest|];
    }
  }

  lemma {:induction false} NothingIsLost(outbox: seq<Envelope>, to: Id)
    ensures multiset(outbox) == multiset(Kept(outbox, to)) + multiset(Picked(outbox, to))
  {
    hide Kept, Picked;
    if outbox == [] {
      NothingStands(to, true);
    } else {
      var rest, e := outbox[..|outbox| - 1], outbox[|outbox| - 1];
      assert rest + [e] == outbox;
      NothingIsLost(rest, to);
      LastLetter(rest, e, to);
    }
  }

  lemma ExportPlanned(p: Platform, o: Oracle, s: State, token: string, from: Id, to: Id)
    ensures var plan := Plan(p, o, s, token, ExportBundle(from, to));
            && (plan.Ok? <==> ExportAllowed(p, o, s, token, from, to))
            && (plan.Ok? ==>
                  var picked := Picked(s.colonies[from].outbox, to);
                  plan.value == Logged(from, Caller(s, token), BundleExported(o.newId, to, |picked|))
                                .(drain := Some(to), bundle := Some((o.newId, Bundle(from, to, Stamp(p, o.now), Wrapped(picked))))))
  {
    hide Actor, SignedIn, Picked, Wrapped, Stamp;
    CallersAreSignedIn(p, o, s, token);
  }

  lemma WrappedLetters(picked: seq<Envelope>)
    ensures var messages := Wrapped(picked);
            |messages| == |picked| && (forall i :: 0 <= i < |messages| ==> messages[i].Some?) && Letters(messages) == picked
  {
  }

  /** An export hands out exactly the letters for its destination and keeps exactly the others. */
  lemma ExportsAreAsAsked(p: Platform, o: Oracle, s: State, token: string, from: Id, to: Id)
    ensures var r := Exec(p, o, s, Act(token, ExportBundle(from, to)));
            && (r.Ok? <==> ExportAllowed(p, o, s, token, from, to))
            && (r.Ok? ==> Exported(p, o, s, r.value, Caller(s, token), from, to))
  {
    hide Plan, Post, Entered, Caller, Picked, Kept, Wrapped, Letters, SignedIn, MayRelay, StandsAt, Stamp;
    ExportPlanned(p, o, s, token, from, to);
    var plan := Plan(p, o, s, token, ExportBundle(from, to));
    if plan.Ok? {
      var was := s.colonies[from].outbox;
      PostEnters(p, o, s, plan.value);
      WrappedLetters(Picked(was, to));
      NothingIsLost(was, to);
      var at := PickedStands(was, to);
      var rest := KeptStands(was, to);
      assert Kept(was, to) + [] == Kept(was, to);
      EnteredOutbox(p, o, s, Post(p, o.now, s, plan.value), from, Touch(s.colonies[from], plan.value), plan.value.actor, plan.value.payload);
    }
  }

  lemma EnteredOutbox(p: Platform, o: Oracle, s: State, s': State, id: Id, c: Colony, actor: Id, payload: Payload)
    requires Entered(p, o, s, s', id, c, actor, payload)
    ensures s'.colonies[id].outbox == c.outbox
  {
  }
}
