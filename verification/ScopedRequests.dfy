/** Every other request on the rows its scope discovers. */
module ScopedRequests {
  import opened Basics
  import opened TradeTable
  import opened Model
  import opened Handlers
  import opened Invariant
  import opened Runs
  import opened Scopes
  import opened ScopedImports
  import opened Simulation

  // ---- the other requests ---------------------------------------------------------------------------

  /** The scope each handler passes to the store. */
  function ScopeOf(token: string, request: Request): Scope {
    var blank := Scope([token], [], [], [], [], [], false);
    match request
    case CreateOffer(seller, buyer, _, _, _) => blank.(users := [seller, buyer], userColonies := true)
    case AcceptTrade(t) => blank.(trades := [t])
    case CancelTrade(t) => blank.(trades := [t])
    case ExportBundle(from, to) => blank.(colonies := [from, to])
    case Mint(colony, user, _, _) => blank.(colonies := [colony], users := [user])
    case SetPolicy(colony, _, _) => blank.(colonies := [colony])
    case ProposeForceRefund(t) => blank.(trades := [t])
    case DecideApproval(a, _) => blank.(actions := [a])
    case CreateUser(colony, _) => blank.(colonies := [colony])
    case CreateColony => blank
    case TrustPeer(colony, peer) => blank.(colonies := [colony, peer])
  }

  /** The colonies, trades and users a request may look at were found. */
  ghost predicate Ready(p: Platform, o: Oracle, f: Found, s: State, token: string, request: Request) {
    && ActorFound(p, o, f, s, token) && Closed(f, s) && (forall t :: t in s.trades ==> TradeRow(s, s.trades[t]))
    && match request
       case CreateOffer(seller, buyer, _, _, _) =>
         && Knows(f.users, seller) && Knows(f.users, buyer)
         && (seller in s.users ==> Knows(f.colonies, s.users[seller].colony)) && (buyer in s.users ==> Knows(f.colonies, s.users[buyer].colony))
       case AcceptTrade(t) => t in f.trades
       case CancelTrade(t) => t in f.trades
       case ExportBundle(from, to) => Knows(f.colonies, from) && Knows(f.colonies, to)
       case Mint(colony, user, _, _) => Knows(f.colonies, colony) && Knows(f.users, user)
       case SetPolicy(colony, _, _) => Knows(f.colonies, colony)
       case ProposeForceRefund(t) => t in f.trades
       case DecideApproval(a, approve) =>
         Knows(f.actions, a) && (approve && a in s.actions && s.actions[a].kind == ForceRefundAction ==> s.actions[a].trade in f.trades)
       case CreateUser(colony, _) => Knows(f.colonies, colony)
       case CreateColony => true
       case TrustPeer(colony, peer) => Knows(f.colonies, colony) && Knows(f.colonies, peer)
  }

  /** The request does not ask for the trade with the empty id. */
  predicate NamesTrade(s: State, request: Request) {
    match request
    case AcceptTrade(t) => t != ""
    case CancelTrade(t) => t != ""
    case ProposeForceRefund(t) => t != ""
    case DecideApproval(a, approve) => approve && a in s.actions && s.actions[a].kind == ForceRefundAction ==> s.actions[a].trade != ""
    case _ => true
  }

  lemma OwnersFound(p: Platform, s: State, sc: Scope, dbNow: int, u: Id)
    requires sc.userColonies && Knows(Ids(sc.users), u) && u in s.users && "" !in s.users
    ensures Knows(Discover(p, s, sc, dbNow).colonies, s.users[u].colony)
  {
    hide Deciding, Trading, SessionUsers;
  }

  lemma RequestReady(p: Platform, o: Oracle, s: State, dbNow: int, token: string, request: Request)
    requires Inv(p, s) && NoBlankIds(s) && dbNow < o.wall && NamesTrade(s, request)
    ensures Ready(p, o, Discover(p, s, ScopeOf(token, request), dbNow), s, token, request)
  {
    hide Discover, Closed, ActorFound, Accounting, Conserved, Mirrored, AllChained, Replays, Outcomes, SupplyBounds, DualControl, Homes, ClaimRows, TradeRow;
    var sc := ScopeOf(token, request);
    ScopeFound(p, s, sc, dbNow);
    ActorDiscovered(p, o, s, sc, dbNow, token);
    DiscoverCloses(p, s, sc, dbNow);
    if request.DecideApproval? && request.action in s.actions {
      ActionLeads(Discover(p, s, sc, dbNow), s, request.action);
    }
    if request.CreateOffer? {
      if request.seller in s.users {
        OwnersFound(p, s, sc, dbNow, request.seller);
      }
      if request.buyer in s.users {
        OwnersFound(p, s, sc, dbNow, request.buyer);
      }
    }
  }

  lemma ColonySeen(f: Found, part: State, full: State, c: Id)
    requires Sees(f, part, full) && Knows(f.colonies, c)
    ensures c in part.colonies <==> c in full.colonies
    ensures c in full.colonies ==>
              && part.colonies[c] == full.colonies[c].(accounts := part.colonies[c].accounts, processed := part.colonies[c].processed, ledger := part.colonies[c].ledger)
              && (forall u :: Knows(f.users, u) ==> Same(part.colonies[c].accounts, full.colonies[c].accounts, u))
  {
  }

  lemma TradeSeen(f: Found, part: State, full: State, t: Id)
    requires Sees(f, part, full) && Closed(f, full) && t in f.trades
    ensures Same(part.trades, full.trades, t)
    ensures t in full.trades ==>
              var row := full.trades[t];
              && Same(part.users, full.users, row.seller) && Same(part.users, full.users, row.buyer)
              && ClosedTrade(f, row)
  {
    hide SeesColonies;
  }

  /** The trade a request names, its parties and the buyer's colony are seen alike. */
  ghost predicate SeesTrade(f: Found, part: State, full: State, t: Id) {
    && Same(part.trades, full.trades, t)
    && (t in full.trades ==>
          var row := full.trades[t];
          && Same(part.users, full.users, row.seller) && Same(part.users, full.users, row.buyer)
          && (row.buyerColony in part.colonies <==> row.buyerColony in full.colonies)
          && (row.buyerColony in full.colonies ==>
                && part.colonies[row.buyerColony].priv == full.colonies[row.buyerColony].priv
                && Same(part.colonies[row.buyerColony].accounts, full.colonies[row.buyerColony].accounts, row.buyer)))
  }

  lemma TradeSeenAlike(f: Found, part: State, full: State, t: Id)
    requires Sees(f, part, full) && Closed(f, full) && t in f.trades
    ensures SeesTrade(f, part, full, t)
  {
    hide Sees, Closed;
    TradeSeen(f, part, full, t);
    if t in full.trades {
      ColonySeen(f, part, full, full.trades[t].buyerColony);
    }
  }

  lemma AcceptSees(p: Platform, o: Oracle, f: Found, part: State, full: State, token: string, t: Id)
    requires SeesTrade(f, part, full, t) && Actor(p, o, part, token) == Actor(p, o, full, token)
    requires var r := Actor(p, o, full, token); r.Ok? ==> r.value in part.users && part.users[r.value] == full.users[r.value]
    requires t in full.trades ==> TradeRow(full, full.trades[t])
    ensures PlanAccept(p, o, part, token, t) == PlanAccept(p, o, full, token, t)
  {
    hide Actor, IsExpired, Advance, Wrap, Stamp;
  }

  lemma CloseSees(p: Platform, o: Oracle, f: Found, part: State, full: State, token: string, t: Id)
    requires SeesTrade(f, part, full, t) && Actor(p, o, part, token) == Actor(p, o, full, token)
    requires var r := Actor(p, o, full, token); r.Ok? ==> r.value in part.users && part.users[r.value] == full.users[r.value]
    requires t in full.trades ==> TradeRow(full, full.trades[t])
    ensures PlanCancel(p, o, part, token, t) == PlanCancel(p, o, full, token, t)
    ensures PlanProposeForceRefund(p, o, part, token, t) == PlanProposeForceRefund(p, o, full, token, t)
  {
    hide Actor, Advance, Stamp;
  }

  lemma TradeRequestSees(p: Platform, o: Oracle, f: Found, part: State, full: State, token: string, request: Request)
    requires Sees(f, part, full) && Ready(p, o, f, full, token, request)
    requires request.AcceptTrade? || request.CancelTrade? || request.ProposeForceRefund?
    ensures Plan(p, o, part, token, request) == Plan(p, o, full, token, request)
  {
    hide Sees, Closed, SeesTrade, TradeRow, Actor, ActorFound, PlanAccept, PlanCancel, PlanProposeForceRefund;
    PeopleSeen(f, part, full);
    ActorSees(p, o, f, part, full, token);
    TradeSeenAlike(f, part, full, request.trade);
    AcceptSees(p, o, f, part, full, token, request.trade);
    CloseSees(p, o, f, part, full, token, request.trade);
  }

  lemma SupplyRequestSees(p: Platform, o: Oracle, f: Found, part: State, full: State, token: string, request: Request)
    requires Sees(f, part, full) && Ready(p, o, f, full, token, request) && (request.Mint? || request.SetPolicy?)
    ensures Plan(p, o, part, token, request) == Plan(p, o, full, token, request)
  {
    hide Sees, Closed, Actor, ActorFound, AddChecked;
    PeopleSeen(f, part, full);
    ActorSees(p, o, f, part, full, token);
    ColonySeen(f, part, full, request.colony);
    if request.Mint? {
      UserSeen(f, part, full, request.user);
    }
  }

  lemma ColonyRequestSees(p: Platform, o: Oracle, f: Found, part: State, full: State, token: string, request: Request)
    requires Sees(f, part, full) && Ready(p, o, f, full, token, request)
    requires request.CreateUser? || request.CreateColony? || request.TrustPeer? || request.ExportBundle?
    ensures Plan(p, o, part, token, request) == Plan(p, o, full, token, request)
  {
    hide Sees, Closed, Actor, ActorFound, Picked;
    PeopleSeen(f, part, full);
    ActorSees(p, o, f, part, full, token);
    match request
    case CreateUser(colony, _) => ColonySeen(f, part, full, colony);
    case TrustPeer(colony, peer) => ColonySeen(f, part, full, colony); ColonySeen(f, part, full, peer);
    case ExportBundle(from, to) => ColonySeen(f, part, full, from); ColonySeen(f, part, full, to);
    case _ =>
  }

  lemma UserSeen(f: Found, part: State, full: State, u: Id)
    requires Sees(f, part, full) && Knows(f.users, u)
    ensures Same(part.users, full.users, u)
  {
    hide SeesColonies;
  }

  lemma OfferRequestSees(p: Platform, o: Oracle, f: Found, part: State, full: State, token: string, request: Request)
    requires Sees(f, part, full) && Ready(p, o, f, full, token, request) && request.CreateOffer?
    ensures Plan(p, o, part, token, request) == Plan(p, o, full, token, request)
  {
    hide Sees, Closed, Actor, ActorFound, TrimSpace, Wrap;
    PeopleSeen(f, part, full);
    ActorSees(p, o, f, part, full, token);
    UserSeen(f, part, full, request.seller);
    UserSeen(f, part, full, request.buyer);
    if request.seller in full.users {
      ColonySeen(f, part, full, full.users[request.seller].colony);
    }
    if request.buyer in full.users {
      ColonySeen(f, part, full, full.users[request.buyer].colony);
    }
  }

  lemma ExecuteSees(p: Platform, o: Oracle, f: Found, part: State, full: State, pa: Action, actor: Id)
    requires Sees(f, part, full) && Closed(f, full) && pa.colony in part.colonies && pa.colony in full.colonies
    requires Knows(f.colonies, pa.colony) && Knows(f.users, pa.user)
    requires pa.kind == ForceRefundAction ==> pa.trade in f.trades
    ensures ApproveEffect(p, o, part, pa, actor) == ApproveEffect(p, o, full, pa, actor)
  {
    hide Sees, Closed, AddChecked, Advance;
    ColonySeen(f, part, full, pa.colony);
    UserSeen(f, part, full, pa.user);
    if pa.kind == ForceRefundAction {
      TradeSeen(f, part, full, pa.trade);
      if pa.trade in full.trades {
        ColonySeen(f, part, full, full.trades[pa.trade].buyerColony);
      }
    }
  }

  lemma DecideRequestSees(p: Platform, o: Oracle, f: Found, part: State, full: State, token: string, request: Request)
    requires Sees(f, part, full) && Ready(p, o, f, full, token, request) && request.DecideApproval?
    ensures Plan(p, o, part, token, request) == Plan(p, o, full, token, request)
  {
    hide Sees, Closed, Actor, ActorFound, Past, ApproveEffect;
    PeopleSeen(f, part, full);
    ActorSees(p, o, f, part, full, token);
    ActionSeen(f, part, full, request.action);
    if request.action in full.actions {
      var pa := full.actions[request.action];
      ActionLeads(f, full, request.action);
      ColonySeen(f, part, full, pa.colony);
      if request.approve && pa.colony in full.colonies && Actor(p, o, full, token).Ok? {
        ExecuteSees(p, o, f, part, full, pa, Actor(p, o, full, token).value);
      }
    }
  }

  lemma ActionLeads(f: Found, s: State, a: Id)
    requires Closed(f, s) && Knows(f.actions, a) && a in s.actions
    ensures var pa := s.actions[a]; Knows(f.colonies, pa.colony) && Knows(f.trades, pa.trade) && Knows(f.users, pa.user)
  {
  }

  lemma ActionSeen(f: Found, part: State, full: State, a: Id)
    requires Sees(f, part, full) && Knows(f.actions, a)
    ensures Same(part.actions, full.actions, a)
  {
    hide SeesColonies;
  }

  lemma RequestSees(p: Platform, o: Oracle, f: Found, part: State, full: State, token: string, request: Request)
    requires Sees(f, part, full) && Ready(p, o, f, full, token, request)
    ensures Plan(p, o, part, token, request) == Plan(p, o, full, token, request)
  {
    hide Plan, Ready, Sees;
    match request
    case AcceptTrade(_) => TradeRequestSees(p, o, f, part, full, token, request);
    case CancelTrade(_) => TradeRequestSees(p, o, f, part, full, token, request);
    case ProposeForceRefund(_) => TradeRequestSees(p, o, f, part, full, token, request);
    case CreateOffer(_, _, _, _, _) => OfferRequestSees(p, o, f, part, full, token, request);
    case DecideApproval(_, _) => DecideRequestSees(p, o, f, part, full, token, request);
    case Mint(_, _, _, _) => SupplyRequestSees(p, o, f, part, full, token, request);
    case SetPolicy(_, _, _) => SupplyRequestSees(p, o, f, part, full, token, request);
    case _ => ColonyRequestSees(p, o, f, part, full, token, request);
  }

  /** The colony an effect logs in was found, or is the one it founds. */
  predicate LogsFound(o: Oracle, f: Found, fx: Effect) {
    && fx.claim.None?
    && (fx.founded.None? ==> Knows(f.colonies, fx.colony))
    && (fx.founded.Some? ==> fx.founded.value.0 == o.newId == fx.colony)
  }

  lemma DecisionColony(p: Platform, o: Oracle, f: Found, s: State, token: string, request: Request)
    requires Ready(p, o, f, s, token, request) && request.DecideApproval? && Plan(p, o, s, token, request).Ok?
    ensures LogsFound(o, f, Plan(p, o, s, token, request).value)
  {
    hide Actor, ActorFound, Closed, AddChecked, Past, TransitionAllowed;
    ActionLeads(f, s, request.action);
    var pa := s.actions[request.action];
    if request.approve && pa.kind == ForceRefundAction && pa.trade in s.trades {
      TradeLeads(f, s, pa.trade);
    }
  }

  lemma TradeColony(p: Platform, o: Oracle, f: Found, s: State, token: string, request: Request)
    requires Ready(p, o, f, s, token, request) && Plan(p, o, s, token, request).Ok?
    requires request.AcceptTrade? || request.CancelTrade? || request.ProposeForceRefund?
    ensures LogsFound(o, f, Plan(p, o, s, token, request).value)
  {
    hide Actor, ActorFound, Closed, IsExpired, Wrap, TransitionAllowed, Sealed;
    TradeLeads(f, s, request.trade);
  }

  lemma RequestColony(p: Platform, o: Oracle, f: Found, s: State, token: string, request: Request)
    requires Ready(p, o, f, s, token, request) && Plan(p, o, s, token, request).Ok?
    ensures LogsFound(o, f, Plan(p, o, s, token, request).value)
  {
    if request.DecideApproval? {
      hide Plan, Ready, LogsFound;
      DecisionColony(p, o, f, s, token, request);
    } else if request.AcceptTrade? || request.CancelTrade? || request.ProposeForceRefund? {
      hide Plan, Ready, LogsFound;
      TradeColony(p, o, f, s, token, request);
    } else if request.CreateOffer? {
      hide Plan, Ready, LogsFound;
      OfferColony(p, o, f, s, token, request);
    } else {
      hide Plan, Ready, LogsFound;
      PolicyColony(p, o, f, s, token, request);
    }
  }

  lemma OfferColony(p: Platform, o: Oracle, f: Found, s: State, token: string, request: Request)
    requires Ready(p, o, f, s, token, request) && request.CreateOffer? && Plan(p, o, s, token, request).Ok?
    ensures LogsFound(o, f, Plan(p, o, s, token, request).value)
  {
    hide Actor, ActorFound, Closed, TradeRow, TrimSpace, Wrap, Sealed, Stamp;
  }

  lemma PolicyColony(p: Platform, o: Oracle, f: Found, s: State, token: string, request: Request)
    requires Ready(p, o, f, s, token, request) && Plan(p, o, s, token, request).Ok?
    requires request.Mint? || request.SetPolicy? || request.CreateUser? || request.CreateColony? || request.TrustPeer? || request.ExportBundle?
    ensures LogsFound(o, f, Plan(p, o, s, token, request).value)
  {
    hide Actor, ActorFound, Closed, TradeRow, AddChecked, Picked, Wrapped, TrimSpace, Stamp, EffectiveMintCap;
  }

  lemma TradeLeads(f: Found, s: State, t: Id)
    requires Closed(f, s) && t in f.trades && t in s.trades && TradeRow(s, s.trades[t])
    ensures ClosedTrade(f, s.trades[t])
    ensures s.users[s.trades[t].buyer].colony == s.trades[t].buyerColony
  {
  }

  /** Every request gives the same answer on the discovered rows, and writing those back gives the same state. */
  lemma ScopedRequest(p: Platform, o: Oracle, s: State, dbNow: int, token: string, request: Request)
    requires Inv(p, s) && NoBlankIds(s) && dbNow < o.wall && Fresh(s, o) && NamesTrade(s, request)
    ensures var part := Load(s, Discover(p, s, ScopeOf(token, request), dbNow));
            var plan := Plan(p, o, s, token, request);
            && Plan(p, o, part, token, request) == plan
            && (plan.Ok? ==> Merge(s, Post(p, o.now, part, plan.value)) == KeepBundles(s, Post(p, o.now, s, plan.value)))
  {
    hide Inv, NoBlankIds, NamesTrade, Discover, ScopeOf, Sees, Merge, KeepBundles, Plan, Post, Ready, LogsFound, Within, Load, Fresh;
    var f := Discover(p, s, ScopeOf(token, request), dbNow);
    var part := Load(s, f);
    LoadSees(p, s, f);
    LoadMerges(s, f);
    KeepNothing(s);
    RequestReady(p, o, s, dbNow, token, request);
    RequestSees(p, o, f, part, s, token, request);
    var plan := Plan(p, o, s, token, request);
    if plan.Ok? {
      RequestColony(p, o, f, s, token, request);
      RequestWithin(o, s, f, plan.value);
      PostMerges(p, o.now, s, part, s, plan.value);
    }
  }

  lemma RequestWithin(o: Oracle, s: State, f: Found, fx: Effect)
    requires Sees(f, Load(s, f), s) && Fresh(s, o) && LogsFound(o, f, fx)
    ensures Within(s, Load(s, f), s, fx)
  {
    hide LoadColony;
    if fx.founded.None? && fx.colony in s.colonies {
      SeesOutbox(f, Load(s, f), s, fx.colony);
    }
  }
}
