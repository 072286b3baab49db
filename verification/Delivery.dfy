/** Exactly which honest deliveries fail: those whose credits do not fit the claims between the two colonies. */
module Delivery {
  import opened Basics
  import opened TradeTable
  import opened Model
  import opened Handlers
  import opened Invariant
  import opened Preserve
  import opened Runs
  import opened Theorems
  import opened Authority
  import opened Honest
  import opened ScopedImports

  // ---- one envelope --------------------------------------------------------------

  /** The seller colony's claims on the buyer colony. */
  function ClaimsOn(s: State, target: Id, source: Id): int64
    requires target in s.colonies
  {
    Get(s.colonies[target].netClaims, source)
  }

  predicate IsEscrowedAcceptance(s: State, env: Envelope)
    requires env.body.Body? && env.body.trade in s.trades
  {
    env.kind == "acceptance" && s.trades[env.body.trade].status == AcceptancePendingExport
  }

  /** The effect settles `t`, with the given new claims or none. */
  predicate SettlesTo(s: State, env: Envelope, fx: Effect, claims: Option<int>)
    requires env.body.Body? && env.body.trade in s.trades
  {
    && fx.founded.None? && fx.colony == env.to
    && fx.trade.Some? && fx.trade.value.0 == env.body.trade && fx.trade.value.1.status != AcceptancePendingExport
    && fx.trade.value.1.status != OfferPendingExport
    && (claims.Some? ==> fx.claim.Some? && fx.claim.value.peer == env.from && fx.claim.value.claims == claims.value)
    && (claims.None? ==> fx.claim.None?)
  }

  /** What an authentic envelope does to the escrow of its trade and to the claims. */
  ghost predicate Delivered(p: Platform, o: Oracle, i: nat, s: State, env: Envelope)
    requires env.from in s.colonies && env.to in s.colonies && env.body.Body? && env.body.trade in s.trades
  {
    var r := PlanEnvelope(p, o, i, s, env.from, env.to, env);
    var t, claims := s.trades[env.body.trade], ClaimsOn(s, env.to, env.from);
    if IsEscrowedAcceptance(s, env) then
      if claims + t.price <= MAX_INT64 then r.Ok? && r.value.Some? && SettlesTo(s, env, r.value.value, Some(claims + t.price))
      else r == Err(Overflow)
    else
      && r.Ok? && (r.value.Some? ==> SettlesTo(s, env, r.value.value, None))
      && (t.status == AcceptancePendingExport ==> (r.value.Some? <==> env.kind == "cancel_request"))
  }

  lemma CreditDelivered(p: Platform, o: Oracle, i: nat, s: State, env: Envelope)
    requires env.from in s.colonies && env.to in s.colonies && env.body.Body? && env.body.trade in s.trades
    requires IsEscrowedAcceptance(s, env) && s.trades[env.body.trade].seller in s.colonies[env.to].accounts
    requires AddChecked(s.colonies[env.to].accounts[s.trades[env.body.trade].seller], s.trades[env.body.trade].price).Ok?
    requires Get(s.colonies[env.from].netObligations, env.to) == ClaimsOn(s, env.to, env.from) >= 0 && s.trades[env.body.trade].price > 0
    ensures var r, t, claims := Credit(p, o, i, s, env.from, env.to, env), s.trades[env.body.trade], ClaimsOn(s, env.to, env.from);
            if claims + t.price <= MAX_INT64 then r.Ok? && SettlesTo(s, env, r.value, Some(claims + t.price)) else r == Err(Overflow)
  {
    hide Stamp, Sealed;
    TableRows();
  }

  lemma PairOf(p: Platform, s: State, u: Id)
    requires KeysPaired(p, s) && u in s.users
    ensures KeyPair(p, s.users[u].pub, s.users[u].priv)
  {
    hide KeyPair;
  }

  lemma ClaimsMatch(p: Platform, s: State, a: Id, b: Id)
    requires Inv(p, s) && a in s.colonies && b in s.colonies
    ensures Get(s.colonies[b].netObligations, a) == ClaimsOn(s, a, b) == Sum(s.trades, Owed(a, b)) >= 0
  {
    hide Accounting, Conserved, AllChained, Replays, Outcomes, SupplyBounds, DualControl, Homes, ClaimRows;
    assert MirrorOf(s, a, b);
    forall t | t in s.trades ensures Owed(a, b)(s.trades[t]) >= 0 {
      assert TradeRow(s, s.trades[t]);
    }
    SumNonNegative(s.trades, Owed(a, b));
  }

  lemma AcceptanceDelivered(p: Platform, o: Oracle, i: nat, s: State, env: Envelope)
    requires Inv(p, s) && KeysPaired(p, s) && Authentic(p, s, env) && env.kind == "acceptance" && Minted(s) <= MAX_INT64
    ensures Delivered(p, o, i, s, env)
  {
    hide Inv, KeysPaired, Delivered, DecideRefund, Credit, SettlesTo, Rows, AcceptedAfterExpiry, StepOf;
    var t := s.trades[env.body.trade];
    InvHasRows(p, s);
    TradeHomes(s, env.body.trade);
    PairOf(p, s, env.body.buyer);
    if t.status == AcceptancePendingExport {
      EscrowAdditionsFit(p, s, env.to, t.seller, env.body.trade);
      ClaimsMatch(p, s, env.to, env.from);
      CreditDelivered(p, o, i, s, env);
    }
    AcceptanceLeads(p, o, i, s, env);
    DeliveredByCredit(p, o, i, s, env);
  }

  /** An authentic acceptance is credited when its trade is escrowed, and skipped otherwise. */
  lemma AcceptanceLeads(p: Platform, o: Oracle, i: nat, s: State, env: Envelope)
    requires Authentic(p, s, env) && env.kind == "acceptance" && TradeRow(s, s.trades[env.body.trade])
    requires KeyPair(p, s.users[env.body.buyer].pub, s.users[env.body.buyer].priv)
    requires s.trades[env.body.trade].seller in s.colonies[env.to].accounts
    ensures var r := PlanEnvelope(p, o, i, s, env.from, env.to, env);
            if s.trades[env.body.trade].status == AcceptancePendingExport then
              var c := Credit(p, o, i, s, env.from, env.to, env); r == if c.Ok? then Ok(Some(c.value)) else Err(c.error)
            else r == Ok(None)
  {
    hide Credit, DecideRefund, StepOf, AcceptedAfterExpiry;
    StepFacts(s.trades[env.body.trade].status);
  }

  lemma DeliveredByCredit(p: Platform, o: Oracle, i: nat, s: State, env: Envelope)
    requires env.from in s.colonies && env.to in s.colonies && env.body.Body? && env.body.trade in s.trades && env.kind == "acceptance"
    requires s.trades[env.body.trade].seller in s.colonies[env.to].accounts
    requires var r := PlanEnvelope(p, o, i, s, env.from, env.to, env);
             var t, claims, c := s.trades[env.body.trade], ClaimsOn(s, env.to, env.from), Credit(p, o, i, s, env.from, env.to, env);
             if t.status == AcceptancePendingExport then
               && r == (if c.Ok? then Ok(Some(c.value)) else Err(c.error))
               && if claims + t.price <= MAX_INT64 then c.Ok? && SettlesTo(s, env, c.value, Some(claims + t.price)) else c == Err(Overflow)
             else r == Ok(None)
    ensures Delivered(p, o, i, s, env)
  {
    hide PlanEnvelope, Credit, SettlesTo;
  }

  lemma OfferDelivered(p: Platform, o: Oracle, i: nat, s: State, env: Envelope)
    requires Authentic(p, s, env) && env.kind == "offer" && KeysPaired(p, s) && TradeRow(s, s.trades[env.body.trade])
    ensures Delivered(p, o, i, s, env)
  {
    hide TrimSpace, StepOf, KeysPaired, Truthful;
    OfferImports(p, o, s, env);
    StepFacts(s.trades[env.body.trade].status);
  }

  lemma CancelDelivered(p: Platform, o: Oracle, i: nat, s: State, env: Envelope)
    requires Authentic(p, s, env) && env.kind == "cancel_request" && KeysPaired(p, s) && TradeRow(s, s.trades[env.body.trade])
    ensures Delivered(p, o, i, s, env)
  {
    hide StepOf, KeysPaired, Truthful, Stamp, Sealed;
    CancelImports(p, o, i, s, env);
    StepFacts(s.trades[env.body.trade].status);
  }

  lemma SettlementDelivered(p: Platform, o: Oracle, i: nat, s: State, env: Envelope)
    requires Authentic(p, s, env) && env.kind == "settlement"
    ensures Delivered(p, o, i, s, env)
  {
    hide StepOf;
    SettlementImports(p, o, s, env);
    StepFacts(s.trades[env.body.trade].status);
  }

  lemma RefundDelivered(p: Platform, o: Oracle, i: nat, s: State, env: Envelope)
    requires Inv(p, s) && Authentic(p, s, env) && env.kind == "refund" && Minted(s) <= MAX_INT64
    ensures Delivered(p, o, i, s, env)
  {
    hide Inv, StepOf, Rows, Stamp;
    var t := s.trades[env.body.trade];
    InvHasRows(p, s);
    TradeHomes(s, env.body.trade);
    StepFacts(t.status);
    TableRows();
    if t.status == RefundPendingExport {
      EscrowAdditionsFit(p, s, env.to, t.buyer, env.body.trade);
    }
  }

  /** An authentic envelope fails exactly when it is an acceptance whose price the claims have no room for. */
  lemma EnvelopeDelivered(p: Platform, o: Oracle, i: nat, s: State, env: Envelope)
    requires Inv(p, s) && KeysPaired(p, s) && Authentic(p, s, env) && Minted(s) <= MAX_INT64
    ensures Delivered(p, o, i, s, env)
  {
    hide Inv, KeysPaired, Delivered, Rows;
    InvHasRows(p, s);
    TradeHomes(s, env.body.trade);
    if env.kind == "offer" {
      OfferDelivered(p, o, i, s, env);
    } else if env.kind == "acceptance" {
      AcceptanceDelivered(p, o, i, s, env);
    } else if env.kind == "settlement" {
      SettlementDelivered(p, o, i, s, env);
    } else if env.kind == "cancel_request" {
      CancelDelivered(p, o, i, s, env);
    } else {
      RefundDelivered(p, o, i, s, env);
    }
  }

  // ---- a bundle of them ------------------------------------------------------------

  predicate Settling(m: Option<Envelope>, t: Id) {
    About(m, t) && (m.value.kind == "acceptance" || m.value.kind == "cancel_request")
  }

  /** One of the first `n` messages settles trade `t` and is not skipped. */
  ghost predicate SettledBy(t: Id, processed: set<Id>, messages: seq<Option<Envelope>>, n: nat)
    requires n <= |messages|
  {
    exists j :: 0 <= j < n && Settling(messages[j], t) && !Skipped(processed, messages, j)
  }

  /** Message `k` is the acceptance of an escrowed trade, and the first message to settle it. */
  ghost predicate Credits(s: State, target: Id, messages: seq<Option<Envelope>>, k: nat)
    requires target in s.colonies && k < |messages|
  {
    var m, processed := messages[k], s.colonies[target].processed;
    && m.Some? && m.value.body.Body? && m.value.body.trade in s.trades && IsEscrowedAcceptance(s, m.value)
    && !Skipped(processed, messages, k) && !SettledBy(m.value.body.trade, processed, messages, k)
  }

  /** The prices the first `n` messages credit. */
  ghost function CreditsUpTo(s: State, target: Id, messages: seq<Option<Envelope>>, n: nat): int
    requires target in s.colonies && n <= |messages|
  {
    if n == 0 then 0
    else
      CreditsUpTo(s, target, messages, n - 1)
      + if Credits(s, target, messages, n - 1) then s.trades[messages[n - 1].value.body.trade].price else 0
  }

  /** Which trades are still escrowed, what was processed and what is claimed after `n` messages. */
  ghost predicate AfterMessages(s: State, st: State, source: Id, target: Id, messages: seq<Option<Envelope>>, n: nat)
    requires n <= |messages|
  {
    && target in s.colonies && target in st.colonies
    && st.colonies[target].processed == s.colonies[target].processed + IdsUpTo(messages, n)
    && (forall t :: t in s.trades ==>
          t in st.trades && st.trades[t].price == s.trades[t].price
          && (st.trades[t].status == AcceptancePendingExport <==>
                s.trades[t].status == AcceptancePendingExport && !SettledBy(t, s.colonies[target].processed, messages, n)))
    && ClaimsOn(st, target, source) == ClaimsOn(s, target, source) + CreditsUpTo(s, target, messages, n)
  }

  lemma SettledNext(t: Id, processed: set<Id>, messages: seq<Option<Envelope>>, n: nat)
    requires 0 < n <= |messages|
    ensures SettledBy(t, processed, messages, n)
            <==> SettledBy(t, processed, messages, n - 1) || (Settling(messages[n - 1], t) && !Skipped(processed, messages, n - 1))
  {
    hide Skipped, Settling;
  }

  lemma IdsNext(messages: seq<Option<Envelope>>, n: nat)
    requires 0 < n <= |messages|
    ensures IdsUpTo(messages, n) == IdsUpTo(messages, n - 1) + if messages[n - 1].Some? then {messages[n - 1].value.id} else {}
  {
  }

  /** A message that is nil or skipped changes nothing the deliveries depend on. */
  lemma SkipAfter(s: State, st: State, source: Id, target: Id, messages: seq<Option<Envelope>>, n: nat)
    requires 0 < n <= |messages| && AfterMessages(s, st, source, target, messages, n - 1)
    requires messages[n - 1].Some? ==> messages[n - 1].value.id in st.colonies[target].processed
    ensures AfterMessages(s, st, source, target, messages, n) && !Credits(s, target, messages, n - 1)
  {
    hide IdsUpTo, SettledBy, About;
    IdsNext(messages, n);
    forall t ensures SettledBy(t, s.colonies[target].processed, messages, n) <==> SettledBy(t, s.colonies[target].processed, messages, n - 1) {
      SettledNext(t, s.colonies[target].processed, messages, n);
      NilSettlesNothing(messages[n - 1], t);
    }
  }

  lemma NilSettlesNothing(m: Option<Envelope>, t: Id)
    ensures m.None? ==> !Settling(m, t)
  {
  }

  lemma PostedClaims(p: Platform, now: int, s: State, fx: Effect, target: Id, source: Id)
    requires target in s.colonies && fx.colony == target && fx.founded.None? && (fx.claim.Some? ==> fx.claim.value.peer == source)
    ensures var s' := Post(p, now, s, fx);
            && target in s'.colonies && s'.colonies[target].processed == s.colonies[target].processed
            && ClaimsOn(s', target, source) == if fx.claim.Some? then fx.claim.value.claims else ClaimsOn(s, target, source)
  {
    hide HashLedgerEntry;
  }

  lemma MarkedClaims(s: State, target: Id, source: Id, id: Id)
    requires target in s.colonies
    ensures var s' := MarkProcessed(s, target, id);
            && target in s'.colonies && s'.colonies[target].processed == s.colonies[target].processed + {id}
            && ClaimsOn(s', target, source) == ClaimsOn(s, target, source) && s'.trades == s.trades
  {
  }

  /** What a delivered message does to its trade and to the claims, once it is marked as processed. */
  ghost predicate Turned(s: State, s': State, source: Id, target: Id, env: Envelope)
    requires env.body.Body? && env.body.trade in s.trades && target in s.colonies
  {
    && target in s'.colonies && s'.colonies[target].processed == s.colonies[target].processed + {env.id}
    && ClaimsOn(s', target, source)
       == ClaimsOn(s, target, source) + (if IsEscrowedAcceptance(s, env) then s.trades[env.body.trade].price else 0)
    && (forall t :: t in s.trades && t != env.body.trade ==> t in s'.trades && s'.trades[t].status == s.trades[t].status)
    && env.body.trade in s'.trades
    && (s'.trades[env.body.trade].status == AcceptancePendingExport <==>
          s.trades[env.body.trade].status == AcceptancePendingExport && env.kind != "acceptance" && env.kind != "cancel_request")
  }

  lemma DeliveredTurns(p: Platform, o: Oracle, i: nat, s: State, env: Envelope)
    requires env.from in s.colonies && env.to in s.colonies && env.body.Body? && env.body.trade in s.trades
    requires Delivered(p, o, i, s, env) && PlanEnvelope(p, o, i, s, env.from, env.to, env).Ok?
    ensures var step := PlanEnvelope(p, o, i, s, env.from, env.to, env).value;
            var mid := if step.Some? then Post(p, o.now, s, step.value) else s;
            Turned(s, MarkProcessed(mid, env.to, env.id), env.from, env.to, env)
  {
    hide PlanEnvelope, PostColonies, MarkProcessed;
    var step := PlanEnvelope(p, o, i, s, env.from, env.to, env).value;
    MarkedClaims(s, env.to, env.from, env.id);
    if step.Some? {
      PostedClaims(p, o.now, s, step.value, env.to, env.from);
      MarkedClaims(Post(p, o.now, s, step.value), env.to, env.from, env.id);
    }
  }

  /** The next message credits exactly when its trade is still escrowed. */
  lemma CreditsNow(s: State, st: State, source: Id, target: Id, messages: seq<Option<Envelope>>, n: nat)
    requires 0 < n <= |messages| && AfterMessages(s, st, source, target, messages, n - 1) && messages[n - 1].Some?
    requires var env := messages[n - 1].value;
             env.id !in st.colonies[target].processed && env.body.Body? && env.body.trade in s.trades && env.body.trade in st.trades
    ensures var env := messages[n - 1].value;
            CreditsUpTo(s, target, messages, n)
            == CreditsUpTo(s, target, messages, n - 1) + (if IsEscrowedAcceptance(st, env) then st.trades[env.body.trade].price else 0)
  {
    hide IdsUpTo, SettledBy;
  }

  /** A turned message puts the loop one message further. */
  lemma TurnAfter(s: State, st: State, st': State, source: Id, target: Id, messages: seq<Option<Envelope>>, n: nat)
    requires 0 < n <= |messages| && AfterMessages(s, st, source, target, messages, n - 1) && messages[n - 1].Some?
    requires var env := messages[n - 1].value;
             && env.id !in st.colonies[target].processed && env.body.Body? && env.body.trade in s.trades && env.body.trade in st.trades
             && Turned(st, st', source, target, env)
    requires forall t :: t in s.trades ==> t in st'.trades && st'.trades[t].price == s.trades[t].price
    ensures AfterMessages(s, st', source, target, messages, n)
  {
    hide IdsUpTo, SettledBy, Credits, CreditsUpTo;
    CreditsNow(s, st, source, target, messages, n);
    IdsNext(messages, n);
    var processed := s.colonies[target].processed;
    assert !Skipped(processed, messages, n - 1);
    forall t ensures SettledBy(t, processed, messages, n)
                     <==> SettledBy(t, processed, messages, n - 1) || Settling(messages[n - 1], t) {
      SettledNext(t, processed, messages, n);
    }
  }

  lemma SameMinted(s: State, s': State)
    requires NobodyMints(s, s') && s'.colonies.Keys == s.colonies.Keys
    ensures Minted(s') == Minted(s)
  {
    SumAgreeMaps(s.colonies, s'.colonies, ColonyMinted);
  }

  /** After `n` messages the supply and every deal are as they were. */
  lemma LoopStays(p: Platform, o: Oracle, s: State, source: Id, target: Id, messages: seq<Option<Envelope>>, n: nat)
    requires source in s.colonies && target in s.colonies && n <= |messages| && Inv(p, s) && ImportUpTo(p, o, s, source, target, messages, n).Ok?
    ensures var st := ImportUpTo(p, o, s, source, target, messages, n).value.state;
            && LoopKeeps(p, s, st) && Minted(st) == Minted(s)
            && forall t :: t in s.trades ==> t in st.trades && st.trades[t].price == s.trades[t].price
  {
    hide Inv, ImportUpTo, NobodyPays, NobodyMints, Minted;
    var st := ImportUpTo(p, o, s, source, target, messages, n).value.state;
    LoopGood(p, o, s, source, target, messages, n);
    LoopPaysNobody(p, o, s, source, target, messages, n);
    SameMinted(s, st);
    forall t | t in s.trades ensures t in st.trades && st.trades[t].price == s.trades[t].price {
      assert TradeEvolves(s.trades[t], st.trades[t]);
    }
  }

  lemma DeliveredOk(p: Platform, o: Oracle, i: nat, s: State, env: Envelope)
    requires env.from in s.colonies && env.to in s.colonies && env.body.Body? && env.body.trade in s.trades && Delivered(p, o, i, s, env)
    ensures PlanEnvelope(p, o, i, s, env.from, env.to, env).Ok?
            <==> (IsEscrowedAcceptance(s, env) ==> ClaimsOn(s, env.to, env.from) + s.trades[env.body.trade].price <= MAX_INT64)
  {
    hide PlanEnvelope;
  }

  /** What was honest at the start is honest now. */
  lemma HonestNow(p: Platform, s: State, st: State, env: Envelope)
    requires KeysPaired(p, s) && Authentic(p, s, env) && LoopKeeps(p, s, st)
    ensures Inv(p, st) && KeysPaired(p, st) && Authentic(p, st, env)
    ensures env.body.Body? && env.body.trade in s.trades && env.body.trade in st.trades
  {
    hide Inv, Evolves, KeyPair, Truthful;
    AuthenticStays(p, s, st, env);
    PairsStay(p, s, st);
  }

  /** An honest message that is looked at turns the loop, and fails exactly when its credit does not fit. */
  lemma MessageTurns(p: Platform, o: Oracle, i: nat, acc: Progress, env: Envelope)
    requires env.from in acc.state.colonies && env.to in acc.state.colonies && env.id !in acc.state.colonies[env.to].processed
    requires env.body.Body? && env.body.trade in acc.state.trades
    requires Inv(p, acc.state) && KeysPaired(p, acc.state) && Authentic(p, acc.state, env) && Minted(acc.state) <= MAX_INT64
    ensures var r := ImportMessage(p, o, i, env.from, env.to, acc, Some(env));
            && (r.Ok? <==> (IsEscrowedAcceptance(acc.state, env) ==>
                              ClaimsOn(acc.state, env.to, env.from) + acc.state.trades[env.body.trade].price <= MAX_INT64))
            && (r.Ok? ==> Turned(acc.state, r.value.state, env.from, env.to, env))
  {
    hide Inv, PlanEnvelope, Post, MarkProcessed, Truthful, Delivered, Turned, IsEscrowedAcceptance, ClaimsOn, Minted;
    var st := acc.state;
    assert KeyPair(p, st.colonies[env.from].pub, st.colonies[env.from].priv);
    EnvelopeDelivered(p, o, i, st, env);
    DeliveredOk(p, o, i, st, env);
    if PlanEnvelope(p, o, i, st, env.from, env.to, env).Ok? {
      DeliveredTurns(p, o, i, st, env);
    }
  }

  /** The loop over an honest bundle gets past `n` messages exactly when what they credit fits the claims. */
  lemma {:induction false} DeliveryLoop(p: Platform, o: Oracle, s: State, source: Id, target: Id, messages: seq<Option<Envelope>>, n: nat)
    requires Inv(p, s) && KeysPaired(p, s) && source in s.colonies && target in s.colonies && n <= |messages| && Minted(s) <= MAX_INT64
    requires forall i :: 0 <= i < |messages| ==> HonestMessage(p, s, source, target, messages[i])
    ensures var r := ImportUpTo(p, o, s, source, target, messages, n);
            && (r.Ok? <==> ClaimsOn(s, target, source) + CreditsUpTo(s, target, messages, n) <= MAX_INT64)
            && (r.Ok? ==> AfterMessages(s, r.value.state, source, target, messages, n))
  {
    hide Inv, ImportMessage, AfterMessages, LoopKeeps, KeysPaired, HonestMessage, CreditsUpTo, Minted, ClaimsOn;
    if n == 0 {
      DeliveryStarts(s, source, target, messages);
    } else {
      DeliveryLoop(p, o, s, source, target, messages, n - 1);
      CreditsGrow(p, s, target, messages, n);
      var acc := ImportUpTo(p, o, s, source, target, messages, n - 1);
      if acc.Ok? {
        LoopStays(p, o, s, source, target, messages, n - 1);
        if ImportUpTo(p, o, s, source, target, messages, n).Ok? {
          LoopStays(p, o, s, source, target, messages, n);
        }
        DeliveryTurn(p, o, s, acc.value, source, target, messages, n);
      }
    }
  }

  lemma DeliveryStarts(s: State, source: Id, target: Id, messages: seq<Option<Envelope>>)
    requires target in s.colonies
    ensures AfterMessages(s, s, source, target, messages, 0) && CreditsUpTo(s, target, messages, 0) == 0
  {
  }

  lemma CreditsGrow(p: Platform, s: State, target: Id, messages: seq<Option<Envelope>>, n: nat)
    requires Inv(p, s) && target in s.colonies && 0 < n <= |messages|
    ensures CreditsUpTo(s, target, messages, n - 1) <= CreditsUpTo(s, target, messages, n)
  {
    hide Inv, Rows, SettledBy, Skipped, TradeRow;
    InvHasRows(p, s);
    if Credits(s, target, messages, n - 1) {
      TradeHomes(s, messages[n - 1].value.body.trade);
      PriceIsPositive(s, messages[n - 1].value.body.trade);
    }
  }

  lemma PriceIsPositive(s: State, t: Id)
    requires t in s.trades && TradeRow(s, s.trades[t])
    ensures s.trades[t].price > 0
  {
  }

  /** One turn of the loop: it fails exactly when this message's credit does not fit. */
  lemma DeliveryTurn(p: Platform, o: Oracle, s: State, acc: Progress, source: Id, target: Id, messages: seq<Option<Envelope>>, n: nat)
    requires 0 < n <= |messages| && Inv(p, s) && KeysPaired(p, s) && Minted(s) <= MAX_INT64
    requires source in s.colonies && target in s.colonies && source in acc.state.colonies && target in acc.state.colonies
    requires LoopKeeps(p, s, acc.state) && Minted(acc.state) == Minted(s) && AfterMessages(s, acc.state, source, target, messages, n - 1)
    requires HonestMessage(p, s, source, target, messages[n - 1])
    requires ClaimsOn(s, target, source) + CreditsUpTo(s, target, messages, n - 1) <= MAX_INT64
    requires var r := ImportMessage(p, o, n - 1, source, target, acc, messages[n - 1]);
             r.Ok? ==> forall t :: t in s.trades ==> t in r.value.state.trades && r.value.state.trades[t].price == s.trades[t].price
    ensures var r := ImportMessage(p, o, n - 1, source, target, acc, messages[n - 1]);
            && (r.Ok? <==> ClaimsOn(s, target, source) + CreditsUpTo(s, target, messages, n) <= MAX_INT64)
            && (r.Ok? ==> AfterMessages(s, r.value.state, source, target, messages, n))
  {
    hide Inv, ImportMessage, KeysPaired, AfterMessages, LoopKeeps, Credits, CreditsUpTo, Authentic, Turned, Minted, IsEscrowedAcceptance, ClaimsOn;
    var m, st := messages[n - 1], acc.state;
    if m.None? || m.value.id in st.colonies[target].processed {
      SkipAfter(s, st, source, target, messages, n);
      SkippedTurn(p, o, s, acc, source, target, messages, n);
    } else {
      HonestNow(p, s, st, m.value);
      MessageTurns(p, o, n - 1, acc, m.value);
      CreditsNow(s, st, source, target, messages, n);
      ClaimsSoFar(s, st, source, target, messages, n - 1);
      var r := ImportMessage(p, o, n - 1, source, target, acc, m);
      if r.Ok? {
        TurnAfter(s, st, r.value.state, source, target, messages, n);
      }
    }
  }

  lemma SkippedTurn(p: Platform, o: Oracle, s: State, acc: Progress, source: Id, target: Id, messages: seq<Option<Envelope>>, n: nat)
    requires 0 < n <= |messages| && source in acc.state.colonies && target in acc.state.colonies && target in s.colonies
    requires var m := messages[n - 1]; m.Some? ==> m.value.from == source && m.value.to == target && m.value.id in acc.state.colonies[target].processed
    requires !Credits(s, target, messages, n - 1)
    ensures var r := ImportMessage(p, o, n - 1, source, target, acc, messages[n - 1]); r.Ok? && r.value.state == acc.state
    ensures CreditsUpTo(s, target, messages, n) == CreditsUpTo(s, target, messages, n - 1)
  {
    hide PlanEnvelope, Credits;
  }

  lemma ClaimsSoFar(s: State, st: State, source: Id, target: Id, messages: seq<Option<Envelope>>, n: nat)
    requires n <= |messages| && AfterMessages(s, st, source, target, messages, n)
    ensures target in s.colonies && target in st.colonies
    ensures ClaimsOn(st, target, source) == ClaimsOn(s, target, source) + CreditsUpTo(s, target, messages, n)
  {
    hide SettledBy, IdsUpTo;
  }

  /**
   * Main theorem: while the supply fits 64 bits, a bundle of envelopes the platform itself sent, delivered at any
   * time, in any order, any number of times, is imported if and only if the prices it credits fit the claims.
   */
  lemma HonestDeliveryExactly(p: Platform, run: seq<State>, i: nat, o: Oracle, token: string, colony: Id, id: Id, b: Bundle)
    requires UprightRun(p, run) && i < |run| && Minted(run[i]) <= MAX_INT64
    requires CheckImport(p, o, run[i], token, colony, b).Ok?
    requires forall k :: 0 <= k < |b.messages| && b.messages[k].Some? ==>
               && WasSent(run, i, b.messages[k].value)
               && b.messages[k].value.from == b.from && b.messages[k].value.to == colony
    ensures ImportBundle(p, o, run[i], token, colony, id, b).Ok?
            <==> ClaimsOn(run[i], colony, b.from) + CreditsUpTo(run[i], colony, b.messages, |b.messages|) <= MAX_INT64
  {
    hide Inv, ImportUpTo, Authentic, UprightRun, KeysPaired, Mailed, WasSent, Minted, ClaimsOn, CreditsUpTo, Post, CheckImport;
    EveryStateIsUpright(p, run, i);
    forall k | 0 <= k < |b.messages| ensures HonestMessage(p, run[i], b.from, colony, b.messages[k]) {
      if b.messages[k].Some? {
        SentIsAuthentic(p, run, i, b.messages[k].value);
      }
    }
    DeliveryLoop(p, o, run[i], b.from, colony, b.messages, |b.messages|);
  }
}
