/** The trade with the empty id: discovery drops it, so the part and the whole may differ about it, and exactly when. */
module BlankTrades {
  import opened Basics
  import opened TradeTable
  import opened Model
  import opened Handlers
  import opened Invariant
  import opened Runs
  import opened Scopes
  import opened ScopedImports
  import opened ScopedRequests

  lemma NeverFound(p: Platform, s: State, sc: Scope, dbNow: int)
    ensures "" !in Discover(p, s, sc, dbNow).trades
  {
    hide SessionUsers, Deciding, Trading;
  }

  lemma BlankHomes(s: State)
    requires Rows(s) && "" in s.trades
    ensures var t := s.trades[""];
            && t.buyer in s.users && s.users[t.buyer].colony == t.buyerColony && t.buyerColony in s.colonies
            && t.buyer in s.colonies[t.buyerColony].accounts
            && t.seller in s.users && t.sellerColony in s.colonies && t.seller in s.colonies[t.sellerColony].accounts
  {
    hide Homes, ClaimRows;
    TradeHomes(s, "");
  }

  // ---- requests -----------------------------------------------------------------

  /** A request about the trade with the empty id. */
  predicate AboutBlank(request: Request) {
    request in {AcceptTrade(""), CancelTrade(""), ProposeForceRefund("")}
  }

  /** The request gets as far as reading a trade with the empty id, and what it reads decides its answer. */
  predicate Blanked(p: Platform, o: Oracle, s: State, token: string, request: Request) {
    && "" in s.trades
    && if request.DecideApproval? then
         && request.approve && request.action in s.actions && s.actions[request.action].kind == ForceRefundAction
         && s.actions[request.action].trade == "" && IsEscrowed(s.trades[""].status)
         && PlanDecide(p, o, s, token, request.action, false).Ok?
       else AboutBlank(request) && Actor(p, o, s, token).Ok?
  }

  lemma BlankIsNotLoaded(p: Platform, o: Oracle, s: State, dbNow: int, token: string, request: Request)
    requires AboutBlank(request) && dbNow < o.wall && "" !in s.users
    ensures var part := Load(s, Discover(p, s, ScopeOf(token, request), dbNow));
            var actor := Actor(p, o, s, token);
            Plan(p, o, part, token, request) == Err(if actor.Err? then actor.error else NotFound)
  {
    hide Actor, Discover;
    var sc := ScopeOf(token, request);
    var f := Discover(p, s, sc, dbNow);
    ActorDiscovered(p, o, s, sc, dbNow, token);
    ActorSees(p, o, f, Load(s, f), s, token);
    NeverFound(p, s, sc, dbNow);
  }

  lemma BlankIsRead(p: Platform, o: Oracle, s: State, token: string, request: Request)
    requires Rows(s) && AboutBlank(request)
    ensures var r := Plan(p, o, s, token, request);
            if Actor(p, o, s, token).Err? then r == Err(Actor(p, o, s, token).error)
            else r == Err(NotFound) <==> "" !in s.trades
  {
    hide Actor, IsExpired, Wrap, Sealed, Stamp, HasRole, CanManageColony, TransitionAllowed, Rows;
    if "" in s.trades {
      BlankHomes(s);
    }
  }

  /** Rejecting an action passes exactly the checks that approving it passes first. */
  lemma ChecksFirst(p: Platform, o: Oracle, s: State, token: string, a: Id)
    ensures var rejected, approved := PlanDecide(p, o, s, token, a, false), PlanDecide(p, o, s, token, a, true);
            && (rejected.Err? ==> approved == rejected)
            && (rejected.Ok? ==>
                  && a in s.actions && s.actions[a].colony in s.colonies && Actor(p, o, s, token).Ok?
                  && var fx := ApproveEffect(p, o, s, s.actions[a], Actor(p, o, s, token).value);
                     if fx.Err? then approved == Err(fx.error) else approved.Ok?)
  {
    hide Actor, ApproveEffect, Past;
  }

  lemma BlankRefund(p: Platform, o: Oracle, s: State, pa: Action, actor: Id)
    requires Rows(s) && pa.colony in s.colonies && pa.kind == ForceRefundAction && pa.trade == ""
    ensures ApproveEffect(p, o, s, pa, actor) == Err(Conflict) <==> "" !in s.trades || !IsEscrowed(s.trades[""].status)
  {
    hide Rows, AddChecked;
    if "" in s.trades {
      BlankHomes(s);
      TableRows();
    }
  }

  lemma BlankIsNotApproved(p: Platform, o: Oracle, s: State, pa: Action, actor: Id)
    requires pa.colony in s.colonies && pa.kind == ForceRefundAction && pa.trade == "" && "" !in s.trades
    ensures ApproveEffect(p, o, s, pa, actor) == Err(Conflict)
  {
  }

  /** Approving a force refund of the trade with the empty id is refused on the part. */
  lemma BlankDecision(p: Platform, o: Oracle, s: State, dbNow: int, token: string, a: Id)
    requires Inv(p, s) && NoBlankIds(s) && dbNow < o.wall && Fresh(s, o)
    requires a in s.actions && s.actions[a].kind == ForceRefundAction && s.actions[a].trade == ""
    ensures var part := Load(s, Discover(p, s, ScopeOf(token, DecideApproval(a, true)), dbNow));
            && (Plan(p, o, part, token, DecideApproval(a, true)) == Plan(p, o, s, token, DecideApproval(a, true))
                <==> !Blanked(p, o, s, token, DecideApproval(a, true)))
            && Plan(p, o, part, token, DecideApproval(a, true)).Err?
  {
    hide Inv, NoBlankIds, Fresh, PlanDecide, Load, Discover, Actor, ApproveEffect, Rows;
    var part := Load(s, Discover(p, s, ScopeOf(token, DecideApproval(a, true)), dbNow));
    assert ScopeOf(token, DecideApproval(a, true)) == ScopeOf(token, DecideApproval(a, false));
    ScopedRequest(p, o, s, dbNow, token, DecideApproval(a, false));
    InvHasRows(p, s);
    ChecksFirst(p, o, s, token, a);
    ChecksFirst(p, o, part, token, a);
    BlankNotInPart(p, s, ScopeOf(token, DecideApproval(a, true)), dbNow);
    if PlanDecide(p, o, s, token, a, false).Ok? {
      SameAction(p, s, ScopeOf(token, DecideApproval(a, true)), dbNow, a);
      BlankRefund(p, o, s, s.actions[a], Actor(p, o, s, token).value);
      BlankIsNotApproved(p, o, part, s.actions[a], Actor(p, o, part, token).value);
    }
  }

  lemma BlankNotInPart(p: Platform, s: State, sc: Scope, dbNow: int)
    ensures "" !in Load(s, Discover(p, s, sc, dbNow)).trades
  {
    hide Discover, LoadColony;
    NeverFound(p, s, sc, dbNow);
  }

  lemma SameAction(p: Platform, s: State, sc: Scope, dbNow: int, a: Id)
    requires a in Load(s, Discover(p, s, sc, dbNow)).actions
    ensures a in s.actions && Load(s, Discover(p, s, sc, dbNow)).actions[a] == s.actions[a]
  {
    hide Discover, LoadColony;
  }

  /** Every request is answered on the part as on the whole, unless its answer hangs on a trade with the empty id. */
  lemma RequestAgreesExactly(p: Platform, o: Oracle, s: State, dbNow: int, token: string, request: Request)
    requires Inv(p, s) && NoBlankIds(s) && dbNow < o.wall && Fresh(s, o)
    ensures var part := Load(s, Discover(p, s, ScopeOf(token, request), dbNow));
            var here, there := Plan(p, o, part, token, request), Plan(p, o, s, token, request);
            && (here == there <==> !Blanked(p, o, s, token, request))
            && (Blanked(p, o, s, token, request) ==> here.Err?)
            && (there.Ok? && !Blanked(p, o, s, token, request) ==>
                  Merge(s, Post(p, o.now, part, there.value)) == KeepBundles(s, Post(p, o.now, s, there.value)))
  {
    hide Inv, Fresh, Plan, Load, Discover, Post, Merge, KeepBundles, Actor, Rows, ScopeOf, PlanDecide;
    InvHasRows(p, s);
    if NamesTrade(s, request) {
      ScopedRequest(p, o, s, dbNow, token, request);
    } else if request.DecideApproval? {
      BlankDecision(p, o, s, dbNow, token, request.action);
    } else {
      BlankIsNotLoaded(p, o, s, dbNow, token, request);
      BlankIsRead(p, o, s, token, request);
    }
  }

  // ---- envelopes ------------------------------------------------------------------

  /** The envelope's handler gets as far as looking its trade up. */
  predicate LooksUp(p: Platform, s: State, source: Id, target: Id, env: Envelope) {
    && env.body.Body?
    && var b := env.body;
       if env.kind == "offer" then
         && b.sellerColony == source && b.buyerColony == target && ValidAmount(b.price) && TrimSpace(b.asset) != ""
         && b.seller in s.users && b.buyer in s.users && s.users[b.seller].colony == source && s.users[b.buyer].colony == target
         && p.verify(s.users[b.seller].pub, OfferSig(b.trade, b.asset, b.price, b.seller, b.sellerColony, b.buyer, b.buyerColony,
                                                     b.createdAt, b.expiresAt), b.sellerSig)
       else if env.kind == "acceptance" then
         && b.buyerColony == source && b.buyer in s.users && s.users[b.buyer].colony == source
         && p.verify(s.users[b.buyer].pub, AcceptanceSig(b.trade, b.buyer, b.buyerColony, b.debit, b.acceptedAt), b.buyerSig)
       else if env.kind == "cancel_request" then
         && b.buyerColony == source && b.buyer in s.users && s.users[b.buyer].colony == source
         && p.verify(s.users[b.buyer].pub, CancelSig(b.trade, b.buyer, b.buyerColony, b.requestedAt), b.buyerSig)
       else env.kind == "settlement" || env.kind == "refund"
  }

  /** The users a payload names are seen alike. */
  predicate SamePayers(part: State, full: State, env: Envelope) {
    env.body.Body? ==> Same(part.users, full.users, env.body.seller) && Same(part.users, full.users, env.body.buyer)
  }

  /** Before the trade is looked up, only the payload and its users count. */
  lemma StopsEarly(p: Platform, o: Oracle, i: nat, part: State, full: State, source: Id, target: Id, env: Envelope)
    requires source in part.colonies && target in part.colonies && source in full.colonies && target in full.colonies
    requires SamePayers(part, full, env) && !LooksUp(p, full, source, target, env)
    ensures PlanEnvelope(p, o, i, part, source, target, env) == PlanEnvelope(p, o, i, full, source, target, env)
    ensures PlanEnvelope(p, o, i, full, source, target, env).Err?
  {
    hide TrimSpace, StepOf, Step, Handlers.DecideRefund, Credit, AcceptedAfterExpiry;
  }

  /** Where no trade has the id, every envelope but an offer is answered "not found", and an offer makes the trade. */
  lemma UnknownTrade(p: Platform, o: Oracle, i: nat, s: State, source: Id, target: Id, env: Envelope)
    requires source in s.colonies && target in s.colonies && LooksUp(p, s, source, target, env) && env.body.trade !in s.trades
    ensures var r := PlanEnvelope(p, o, i, s, source, target, env);
            if env.kind == "offer" then r.Ok? && r.value.Some? else r == Err(NotFound)
  {
    hide TrimSpace, StepOf, Step, Handlers.DecideRefund, Credit, AcceptedAfterExpiry;
  }

  /** Where the trade exists, "not found" is never the answer, and an offer that was received is not received again. */
  lemma KnownTrade(p: Platform, o: Oracle, i: nat, s: State, source: Id, target: Id, env: Envelope)
    requires Rows(s) && source in s.colonies && target in s.colonies && LooksUp(p, s, source, target, env)
    requires env.body.trade in s.trades && s.trades[env.body.trade].status != OfferPendingExport
    ensures var r := PlanEnvelope(p, o, i, s, source, target, env);
            if env.kind == "offer" then r.Err? || r.value.None? else r != Err(NotFound)
  {
    hide Rows, LooksUp, PlanImportOffer, PlanImportAcceptance, PlanImportSettlement, PlanImportCancel, PlanImportRefund;
    KnownKinds(p, s, source, target, env);
    TradeHomes(s, env.body.trade);
    if env.kind == "offer" {
      KnownOffer(p, s, source, target, env);
    } else if env.kind == "acceptance" {
      KnownAcceptance(p, o, i, s, source, target, env);
    } else if env.kind == "cancel_request" {
      KnownCancel(p, o, i, s, source, target, env);
    } else if env.kind == "refund" {
      KnownRefund(p, o, s, source, target, env);
    } else {
      KnownSettlement(p, o, s, source, target, env);
    }
  }

  lemma KnownKinds(p: Platform, s: State, source: Id, target: Id, env: Envelope)
    requires LooksUp(p, s, source, target, env)
    ensures env.body.Body? && env.kind in {"offer", "acceptance", "cancel_request", "settlement", "refund"}
  {
    hide TrimSpace;
  }

  lemma KnownOffer(p: Platform, s: State, source: Id, target: Id, env: Envelope)
    requires env.kind == "offer" && env.body.Body? && env.body.trade in s.trades && s.trades[env.body.trade].status != OfferPendingExport
    ensures var r := PlanImportOffer(p, s, source, target, env); r.Err? || r.value.None?
  {
    hide TrimSpace, StepOf;
    StepFacts(s.trades[env.body.trade].status);
  }

  lemma KnownAcceptance(p: Platform, o: Oracle, i: nat, s: State, source: Id, target: Id, env: Envelope)
    requires source in s.colonies && target in s.colonies && env.kind == "acceptance" && LooksUp(p, s, source, target, env)
    requires env.body.Body? && env.body.trade in s.trades && TradeRow(s, s.trades[env.body.trade])
    requires var t := s.trades[env.body.trade]; t.sellerColony in s.colonies && t.seller in s.colonies[t.sellerColony].accounts
    ensures PlanImportAcceptance(p, o, i, s, source, target, env) != Err(NotFound)
  {
    hide TrimSpace, StepOf, Handlers.DecideRefund, Credit, AcceptedAfterExpiry;
    DecidesOrOverflows(p, o, i, s, source, target, env);
  }

  lemma KnownCancel(p: Platform, o: Oracle, i: nat, s: State, source: Id, target: Id, env: Envelope)
    requires source in s.colonies && target in s.colonies && env.kind == "cancel_request" && LooksUp(p, s, source, target, env)
    requires env.body.Body? && env.body.trade in s.trades
    ensures PlanImportCancel(p, o, i, s, source, target, env) != Err(NotFound)
  {
    hide TrimSpace, StepOf, Handlers.DecideRefund;
    RefundConflicts(p, o, i, s, source, target, env);
  }

  lemma KnownRefund(p: Platform, o: Oracle, s: State, source: Id, target: Id, env: Envelope)
    requires env.body.Body? && env.body.trade in s.trades
    requires var t := s.trades[env.body.trade]; t.buyerColony in s.colonies && t.buyer in s.colonies[t.buyerColony].accounts
    ensures PlanImportRefund(p, o, s, source, target, env) != Err(NotFound)
  {
    hide StepOf, TransitionAllowed, AddChecked;
  }

  lemma KnownSettlement(p: Platform, o: Oracle, s: State, source: Id, target: Id, env: Envelope)
    requires env.body.Body? && env.body.trade in s.trades
    ensures PlanImportSettlement(p, o, s, source, target, env) != Err(NotFound)
  {
    hide StepOf, TransitionAllowed;
  }

  lemma RefundConflicts(p: Platform, o: Oracle, i: nat, s: State, source: Id, target: Id, env: Envelope)
    requires target in s.colonies && env.body.Body? && env.body.trade in s.trades
    ensures forall reason: string :: Handlers.DecideRefund(p, o, i, s, source, target, env.body.trade, env, reason) != Err(NotFound)
  {
    hide TransitionAllowed;
  }

  lemma DecidesOrOverflows(p: Platform, o: Oracle, i: nat, s: State, source: Id, target: Id, env: Envelope)
    requires source in s.colonies && target in s.colonies && env.body.Body? && env.body.trade in s.trades
    ensures forall reason: string :: Handlers.DecideRefund(p, o, i, s, source, target, env.body.trade, env, reason) != Err(NotFound)
    ensures s.trades[env.body.trade].seller in s.colonies[target].accounts ==> Credit(p, o, i, s, source, target, env) != Err(NotFound)
    ensures AcceptedAfterExpiry(p, s.trades[env.body.trade], env.body.acceptedAt) != Err(NotFound)
  {
    hide TransitionAllowed;
  }

  /** An envelope is answered on the part as on the whole unless it looks up an existing trade with the empty id. */
  lemma EnvelopeAgreesExactly(p: Platform, o: Oracle, i: nat, f: Found, part: State, s: State, source: Id, target: Id, env: Envelope)
    requires Rows(s) && Sees(f, part, s) && Closed(f, s) && "" !in part.trades && ("" in s.trades ==> s.trades[""].status != OfferPendingExport)
    requires source in part.colonies && target in part.colonies && Knows(f.colonies, source) && Knows(f.colonies, target)
    requires env.id in f.envelopes
    requires env.body.Body? ==> Knows(f.users, env.body.seller) && Knows(f.users, env.body.buyer) && Knows(f.trades, env.body.trade)
    ensures source in s.colonies && target in s.colonies
    ensures PlanEnvelope(p, o, i, part, source, target, env) == PlanEnvelope(p, o, i, s, source, target, env)
            <==> !(LooksUp(p, s, source, target, env) && env.body.trade == "" && "" in s.trades)
  {
    hide PlanEnvelope, LooksUp, Rows, Closed;
    assert SeesColony(f, part.colonies[source], s.colonies[source]) && SeesColony(f, part.colonies[target], s.colonies[target]);
    if env.body.Body? && env.body.trade == "" && "" in s.trades {
      if LooksUp(p, s, source, target, env) {
        LooksUpAlike(p, part, s, source, target, env);
        UnknownTrade(p, o, i, part, source, target, env);
        KnownTrade(p, o, i, s, source, target, env);
      } else {
        StopsEarly(p, o, i, part, s, source, target, env);
      }
    } else {
      var g := Widened(f, s);
      WidenedCloses(f, s);
      WidenedSees(f, part, s);
      EnvelopeSees(p, o, i, g, part, s, source, target, env);
      LooksUpBody(p, s, source, target, env);
    }
  }

  lemma LooksUpBody(p: Platform, s: State, source: Id, target: Id, env: Envelope)
    ensures LooksUp(p, s, source, target, env) ==> env.body.Body?
  {
  }

  lemma LooksUpAlike(p: Platform, part: State, s: State, source: Id, target: Id, env: Envelope)
    requires SamePayers(part, s, env)
    ensures LooksUp(p, part, source, target, env) <==> LooksUp(p, s, source, target, env)
  {
    hide TrimSpace;
  }

  lemma WidenedSees(f: Found, part: State, s: State)
    requires Sees(f, part, s) && "" !in part.trades
    ensures Sees(Widened(f, s), part, s)
  {
    forall c | Knows(f.colonies, c) && c in part.colonies ensures SeesColony(Widened(f, s), part.colonies[c], s.colonies[c]) {
      assert SeesColony(f, part.colonies[c], s.colonies[c]);
    }
  }
}
