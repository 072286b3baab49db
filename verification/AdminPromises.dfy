/** The same for supply, policy, dual control, colonies and users. */
module AdminPromises {
  import opened Basics
  import opened TradeTable
  import opened Model
  import opened Handlers
  import opened Invariant
  import opened Lawfulness
  import opened Runs
  import opened Rights
  import opened Promises

  /** A proposal somebody else may decide for three days. */
  function Proposal(p: Platform, o: Oracle, proposer: Id, kind: ActionKind, colony: Id): Action {
    Action(kind, colony, "", "", 0, None, None, proposer, Stamp(p, o.now), Stamp(p, o.now + 3 * DAY), Pending, "", "")
  }

  function CapInForce(c: Colony): int {
    if c.mintCap > 0 then c.mintCap else DEFAULT_MINT_CAP
  }

  /** The caller manages the colony. */
  predicate ManagedBy(p: Platform, o: Oracle, s: State, token: string, colony: Id) {
    SignedIn(p, o, s, token) && MayManage(s, Caller(s, token), colony)
  }

  // ---- minting -------------------------------------------------------------------------

  predicate MintGranted(p: Platform, o: Oracle, s: State, token: string, colony: Id, user: Id, amount: int64, allowPropose: bool) {
    && 0 < amount <= MAX_AMOUNT && ManagedBy(p, o, s, token, colony)
    && colony in s.colonies && user in s.colonies[colony].accounts
    && var c := s.colonies[colony];
       && c.mintedTotal + amount <= CapInForce(c)
       && if c.dual then allowPropose else c.accounts[user] + amount <= MAX_INT64
  }

  /** Without dual control the account and the supply rise by the amount; under it they stay and a proposal for the amount appears. */
  predicate MintedAsAsked(p: Platform, o: Oracle, s: State, s': State, caller: Id, colony: Id, user: Id, amount: int64) {
    && colony in s.colonies && user in s.colonies[colony].accounts
    && var c := s.colonies[colony];
       if c.dual then
         && s' == s.(actions := s.actions[o.newId := Proposal(p, o, caller, MintAction, colony).(user := user, amount := amount)],
                     colonies := s'.colonies)
         && Entered(p, o, s, s', colony, c, caller, MintProposed(o.newId, user, amount))
       else
         var total, balance := c.mintedTotal + amount, c.accounts[user] + amount;
         && total <= MAX_INT64 && balance <= MAX_INT64 && MIN_INT64 <= total && MIN_INT64 <= balance
         && s' == s.(colonies := s'.colonies)
         && Entered(p, o, s, s', colony, c.(mintedTotal := total, accounts := c.accounts[user := balance]), caller,
                    FundsMinted(user, amount, balance, total, ""))
  }

  lemma SupplyFits(p: Platform, s: State, c: Id)
    requires Inv(p, s) && c in s.colonies
    ensures 0 <= s.colonies[c].mintedTotal <= CapInForce(s.colonies[c]) <= DEFAULT_MINT_CAP
    ensures forall u :: u in s.colonies[c].accounts ==> u in s.users && s.colonies[c].accounts[u] >= 0
  {
    hide Conserved, Mirrored, AllChained, Replays, Outcomes, DualControl, TradeRow, ClaimRows;
    assert SupplyBound(s.colonies[c]);
    forall u | u in s.colonies[c].accounts ensures u in s.users && s.colonies[c].accounts[u] >= 0 {
      assert Lives(s, u, c) && AccountExact(s, c, u);
    }
  }

  lemma MintPlanned(p: Platform, o: Oracle, s: State, token: string, colony: Id, user: Id, amount: int64, allowPropose: bool)
    requires colony in s.colonies ==> 0 <= s.colonies[colony].mintedTotal <= DEFAULT_MINT_CAP
    requires colony in s.colonies ==> forall u :: u in s.colonies[colony].accounts ==> u in s.users && s.colonies[colony].accounts[u] >= 0
    ensures Plan(p, o, s, token, Mint(colony, user, amount, allowPropose)).Ok? <==> MintGranted(p, o, s, token, colony, user, amount, allowPropose)
  {
    hide Actor, SignedIn, Stamp;
    CallersAreSignedIn(p, o, s, token);
  }

  lemma MintEffected(p: Platform, o: Oracle, s: State, token: string, colony: Id, user: Id, amount: int64, allowPropose: bool)
    requires Plan(p, o, s, token, Mint(colony, user, amount, allowPropose)).Ok?
    ensures MintedAsAsked(p, o, s, Post(p, o.now, s, Plan(p, o, s, token, Mint(colony, user, amount, allowPropose)).value), Caller(s, token), colony, user, amount)
  {
    hide Actor, SignedIn, Stamp, Post, Entered, Caller, EffectiveMintCap;
    CallersAreSignedIn(p, o, s, token);
    PostEnters(p, o, s, Plan(p, o, s, token, Mint(colony, user, amount, allowPropose)).value);
    SentNothing(s.colonies[colony]);
  }

  /** A mint is granted exactly under the cap to a manager, and creates exactly the amount asked for, or proposes exactly it. */
  lemma MintsAreAsAsked(p: Platform, o: Oracle, s: State, token: string, colony: Id, user: Id, amount: int64, allowPropose: bool)
    requires Inv(p, s)
    ensures var r := Exec(p, o, s, Act(token, Mint(colony, user, amount, allowPropose)));
            && (r.Ok? <==> MintGranted(p, o, s, token, colony, user, amount, allowPropose))
            && (r.Ok? ==> MintedAsAsked(p, o, s, r.value, Caller(s, token), colony, user, amount))
  {
    hide Inv, Plan, Post, MintGranted, MintedAsAsked, Caller;
    if colony in s.colonies {
      SupplyFits(p, s, colony);
    }
    MintPlanned(p, o, s, token, colony, user, amount, allowPropose);
    if Plan(p, o, s, token, Mint(colony, user, amount, allowPropose)).Ok? {
      MintEffected(p, o, s, token, colony, user, amount, allowPropose);
    }
  }

  // ---- policy --------------------------------------------------------------------------

  predicate CapValid(c: Colony, cap: Option<int64>) {
    cap.Some? ==> 0 < cap.value <= DEFAULT_MINT_CAP && c.mintedTotal <= cap.value
  }

  predicate PolicyGranted(p: Platform, o: Oracle, s: State, token: string, colony: Id, cap: Option<int64>, dual: Option<bool>) {
    && (cap.Some? || dual.Some?) && SignedIn(p, o, s, token) && IsSuper(s, Caller(s, token))
    && colony in s.colonies && CapValid(s.colonies[colony], cap)
  }

  /** The colony under the values asked for; what was not asked for stays. */
  function UnderPolicy(c: Colony, cap: Option<int64>, dual: Option<bool>): Colony {
    c.(mintCap := if cap.Some? then cap.value else c.mintCap, dual := if dual.Some? then dual.value else c.dual)
  }

  /** Without dual control the policy is in force at once; under it nothing changes and a proposal of the values appears. */
  predicate PolicySet(p: Platform, o: Oracle, s: State, s': State, caller: Id, colony: Id, cap: Option<int64>, dual: Option<bool>) {
    && colony in s.colonies
    && var c, c' := s.colonies[colony], UnderPolicy(s.colonies[colony], cap, dual);
       if c.dual then
         && s' == s.(actions := s.actions[o.newId := Proposal(p, o, caller, PolicyAction, colony).(cap := cap, dual := dual)],
                     colonies := s'.colonies)
         && Entered(p, o, s, s', colony, c, caller, PolicyProposed(o.newId))
       else
         && CapInForce(c') <= MAX_INT64
         && s' == s.(colonies := s'.colonies)
         && Entered(p, o, s, s', colony, c', caller, PolicyChanged(CapInForce(c'), c'.dual, ""))
  }

  lemma PolicyPlanned(p: Platform, o: Oracle, s: State, token: string, colony: Id, cap: Option<int64>, dual: Option<bool>)
    ensures Plan(p, o, s, token, SetPolicy(colony, cap, dual)).Ok? <==> PolicyGranted(p, o, s, token, colony, cap, dual)
  {
    hide Actor, SignedIn, Stamp;
    CallersAreSignedIn(p, o, s, token);
  }

  lemma PolicyEffected(p: Platform, o: Oracle, s: State, token: string, colony: Id, cap: Option<int64>, dual: Option<bool>)
    requires Plan(p, o, s, token, SetPolicy(colony, cap, dual)).Ok?
    ensures PolicySet(p, o, s, Post(p, o.now, s, Plan(p, o, s, token, SetPolicy(colony, cap, dual)).value), Caller(s, token), colony, cap, dual)
  {
    hide Actor, SignedIn, Stamp, Post, Entered, Caller;
    CallersAreSignedIn(p, o, s, token);
    PostEnters(p, o, s, Plan(p, o, s, token, SetPolicy(colony, cap, dual)).value);
    SentNothing(s.colonies[colony]);
  }

  /** A policy is set by a super admin: at once without dual control, as a proposal under it, and to the very values asked for. */
  lemma PoliciesAreAsAsked(p: Platform, o: Oracle, s: State, token: string, colony: Id, cap: Option<int64>, dual: Option<bool>)
    ensures var r := Exec(p, o, s, Act(token, SetPolicy(colony, cap, dual)));
            && (r.Ok? <==> PolicyGranted(p, o, s, token, colony, cap, dual))
            && (r.Ok? ==> PolicySet(p, o, s, r.value, Caller(s, token), colony, cap, dual))
  {
    hide Plan, Post, PolicyGranted, PolicySet, Caller;
    PolicyPlanned(p, o, s, token, colony, cap, dual);
    if Plan(p, o, s, token, SetPolicy(colony, cap, dual)).Ok? {
      PolicyEffected(p, o, s, token, colony, cap, dual);
    }
  }

  // ---- force refunds -------------------------------------------------------------------

  predicate Paid(t: Trade) {
    t.status == AcceptancePendingExport || t.status == RefundPendingExport
  }

  /** Only an action and an entry appear; the action asks for the trade's price in the buyer's colony. */
  predicate ForceRefundAsked(p: Platform, o: Oracle, s: State, s': State, caller: Id, t: Id) {
    && t in s.trades && s.trades[t].buyerColony in s.colonies
    && var row := s.trades[t];
       && s' == s.(actions := s.actions[o.newId := Proposal(p, o, caller, ForceRefundAction, row.buyerColony).(trade := t, amount := row.price)],
                   colonies := s'.colonies)
       && Entered(p, o, s, s', row.buyerColony, s.colonies[row.buyerColony], caller, ForceRefundProposed(o.newId, t))
  }

  /** A force refund of a paid trade is proposed exactly by a manager of the buyer's colony. */
  lemma ForceRefundsAreProposed(p: Platform, o: Oracle, s: State, token: string, t: Id)
    requires Inv(p, s)
    ensures var r := Exec(p, o, s, Act(token, ProposeForceRefund(t)));
            && (r.Ok? <==> t in s.trades && Paid(s.trades[t]) && ManagedBy(p, o, s, token, s.trades[t].buyerColony))
            && (r.Ok? ==> ForceRefundAsked(p, o, s, r.value, Caller(s, token), t))
  {
    hide Inv, Rows, Actor, SignedIn, Stamp, Post, Entered, Caller;
    CallersAreSignedIn(p, o, s, token);
    InvHasRows(p, s);
    if t in s.trades {
      TradeHomes(s, t);
      var plan := Plan(p, o, s, token, ProposeForceRefund(t));
      if plan.Ok? {
        PostEnters(p, o, s, plan.value);
        SentNothing(s.colonies[s.trades[t].buyerColony]);
      }
    }
  }

  // ---- deciding proposals ----------------------------------------------------------------

  /** Another manager of the colony, while the proposal is pending and has not expired. */
  predicate MayDecideNow(p: Platform, o: Oracle, s: State, token: string, a: Id) {
    && a in s.actions
    && var pa := s.actions[a];
       && pa.status == Pending && ManagedBy(p, o, s, token, pa.colony) && Caller(s, token) != pa.proposedBy
       && p.parse(pa.expiresAt).Some? && o.now <= p.parse(pa.expiresAt).value * SECOND
  }

  /** What was proposed can still be done. */
  predicate StillPossible(s: State, pa: Action)
    requires pa.colony in s.colonies
  {
    var c := s.colonies[pa.colony];
    match pa.kind
    case MintAction =>
      pa.user in c.accounts && c.mintedTotal + pa.amount <= CapInForce(c) && c.accounts[pa.user] + pa.amount <= MAX_INT64
    case PolicyAction => CapValid(c, pa.cap)
    case ForceRefundAction =>
      pa.trade in s.trades && Paid(s.trades[pa.trade])
      && s.trades[pa.trade].buyer in c.accounts && c.accounts[s.trades[pa.trade].buyer] + s.trades[pa.trade].price <= MAX_INT64
  }

  function DecidedBy(p: Platform, o: Oracle, pa: Action, caller: Id, status: ActionStatus): Action {
    pa.(status := status, decidedBy := caller, decidedAt := Stamp(p, o.now))
  }

  /** The proposal is rejected, and nothing but that is written down. */
  predicate RejectedOnly(p: Platform, o: Oracle, s: State, s': State, caller: Id, a: Id) {
    && a in s.actions && s.actions[a].colony in s.colonies
    && var pa := s.actions[a];
       && s' == s.(actions := s.actions[a := DecidedBy(p, o, pa, caller, Rejected)], colonies := s'.colonies)
       && Entered(p, o, s, s', pa.colony, s.colonies[pa.colony], caller, ApprovalRejected(a, pa.kind))
  }

  /** The proposal is approved and done as proposed. */
  predicate ApprovedAndDone(p: Platform, o: Oracle, s: State, s': State, caller: Id, a: Id) {
    && a in s.actions && s.actions[a].colony in s.colonies && StillPossible(s, s.actions[a])
    && var pa, c := s.actions[a], s.colonies[s.actions[a].colony];
       && var decided := s.actions[a := DecidedBy(p, o, pa, caller, Approved)];
          match pa.kind
          case MintAction =>
            var total, balance := c.mintedTotal + pa.amount, c.accounts[pa.user] + pa.amount;
            && MIN_INT64 <= total <= MAX_INT64 && MIN_INT64 <= balance
            && s' == s.(actions := decided, colonies := s'.colonies)
            && Entered(p, o, s, s', pa.colony, c.(mintedTotal := total, accounts := c.accounts[pa.user := balance]), pa.proposedBy,
                       FundsMinted(pa.user, pa.amount, balance, total, caller))
          case PolicyAction =>
            var c' := UnderPolicy(c, pa.cap, pa.dual);
            && CapInForce(c') <= MAX_INT64
            && s' == s.(actions := decided, colonies := s'.colonies)
            && Entered(p, o, s, s', pa.colony, c', pa.proposedBy, PolicyChanged(CapInForce(c'), c'.dual, caller))
          case ForceRefundAction =>
            var row := s.trades[pa.trade];
            var balance := c.accounts[row.buyer] + row.price;
            && MIN_INT64 <= balance
            && s' == s.(actions := decided, colonies := s'.colonies,
                        trades := s.trades[pa.trade := row.(status := Refunded, refundedAt := Stamp(p, o.now))])
            && Entered(p, o, s, s', pa.colony, c.(accounts := c.accounts[row.buyer := balance]), caller,
                       TradeForceRefunded(pa.trade, row.price, balance, pa.proposedBy, caller))
  }

  /** What the invariant says of one proposal, as far as deciding it needs. */
  predicate ProposalSound(s: State, pa: Action) {
    && pa.colony in s.colonies
    && (pa.kind == MintAction ==>
          && 0 < pa.amount <= MAX_AMOUNT && pa.user in s.colonies[pa.colony].accounts && pa.user in s.users
          && 0 <= s.colonies[pa.colony].mintedTotal <= DEFAULT_MINT_CAP && 0 <= s.colonies[pa.colony].accounts[pa.user])
    && (pa.kind == ForceRefundAction ==>
          && pa.trade in s.trades
          && var row := s.trades[pa.trade];
             && row.buyerColony == pa.colony && row.price > 0
             && row.buyer in s.colonies[pa.colony].accounts && 0 <= s.colonies[pa.colony].accounts[row.buyer])
  }

  lemma ProposalsAreSound(p: Platform, s: State, a: Id)
    requires Inv(p, s) && a in s.actions
    ensures ProposalSound(s, s.actions[a])
  {
    hide Accounting, Conserved, Mirrored, AllChained, Replays, Outcomes, SupplyBounds, Homes, ClaimRows;
    var pa := s.actions[a];
    assert ActionRow(p, s, pa);
    SupplyFits(p, s, pa.colony);
    if pa.kind == ForceRefundAction {
      InvHasRows(p, s);
      TradeHomes(s, pa.trade);
    }
  }

  lemma RejectionPlanned(p: Platform, o: Oracle, s: State, token: string, a: Id)
    requires a in s.actions ==> s.actions[a].colony in s.colonies
    ensures var plan := Plan(p, o, s, token, DecideApproval(a, false));
            && (plan.Ok? <==> MayDecideNow(p, o, s, token, a))
            && (plan.Ok? ==> RejectedOnly(p, o, s, Post(p, o.now, s, plan.value), Caller(s, token), a))
  {
    hide Actor, SignedIn, Stamp, Post, Entered, Caller, ApproveEffect;
    CallersAreSignedIn(p, o, s, token);
    var plan := Plan(p, o, s, token, DecideApproval(a, false));
    if plan.Ok? {
      PostEnters(p, o, s, plan.value);
      SentNothing(s.colonies[s.actions[a].colony]);
    }
  }

  lemma ApprovalPossible(p: Platform, o: Oracle, s: State, pa: Action, caller: Id)
    requires ProposalSound(s, pa)
    ensures ApproveEffect(p, o, s, pa, caller).Ok? <==> StillPossible(s, pa)
  {
    hide Stamp;
    TableRows();
  }

  lemma ApprovalPlanned(p: Platform, o: Oracle, s: State, token: string, a: Id)
    requires a in s.actions ==> ProposalSound(s, s.actions[a])
    ensures Plan(p, o, s, token, DecideApproval(a, true)).Ok? <==> MayDecideNow(p, o, s, token, a) && StillPossible(s, s.actions[a])
  {
    hide Actor, SignedIn, Stamp, ApproveEffect, StillPossible;
    CallersAreSignedIn(p, o, s, token);
    if a in s.actions && Actor(p, o, s, token).Ok? {
      ApprovalPossible(p, o, s, s.actions[a], Actor(p, o, s, token).value);
    }
  }

  lemma ApprovalEffected(p: Platform, o: Oracle, s: State, token: string, a: Id)
    requires Plan(p, o, s, token, DecideApproval(a, true)).Ok? && a in s.actions && ProposalSound(s, s.actions[a])
    requires StillPossible(s, s.actions[a])
    ensures ApprovedAndDone(p, o, s, Post(p, o.now, s, Plan(p, o, s, token, DecideApproval(a, true)).value), Caller(s, token), a)
  {
    hide Actor, SignedIn, Stamp, Post, Entered, Caller, TransitionAllowed, CanManageColony, Past, IsEscrowed;
    CallersAreSignedIn(p, o, s, token);
    PostEnters(p, o, s, Plan(p, o, s, token, DecideApproval(a, true)).value);
    SentNothing(s.colonies[s.actions[a].colony]);
  }

  /** A proposal is decided exactly by another manager in time; rejecting it does nothing else, approving it does what it says if that is still possible. */
  lemma DecisionsAreAsAsked(p: Platform, o: Oracle, s: State, token: string, a: Id, approve: bool)
    requires Inv(p, s)
    ensures a in s.actions ==> s.actions[a].colony in s.colonies
    ensures var r := Exec(p, o, s, Act(token, DecideApproval(a, approve)));
            && (r.Ok? <==> MayDecideNow(p, o, s, token, a) && (approve ==> StillPossible(s, s.actions[a])))
            && (r.Ok? ==> if approve then ApprovedAndDone(p, o, s, r.value, Caller(s, token), a)
                          else RejectedOnly(p, o, s, r.value, Caller(s, token), a))
  {
    hide Inv, Plan, Post, ApprovedAndDone, RejectedOnly, StillPossible, Caller, ManagedBy;
    if a in s.actions {
      ProposalsAreSound(p, s, a);
    }
    RejectionPlanned(p, o, s, token, a);
    ApprovalPlanned(p, o, s, token, a);
    if approve && Plan(p, o, s, token, DecideApproval(a, true)).Ok? {
      ApprovalEffected(p, o, s, token, a);
    }
  }

  // ---- colonies, peers and users ---------------------------------------------------------

  /** A colony with nothing in it that trusts itself. */
  function BlankColony(id: Id, pub: string, priv: string): Colony {
    Colony(pub, priv, map[id := pub], map[], {}, [], [], 0, "", map[], map[], 0, 0, false)
  }

  /** Only a super admin founds a colony, and it starts with its own key trusted and one entry. */
  lemma ColoniesAreAsAsked(p: Platform, o: Oracle, s: State, token: string)
    ensures var r := Exec(p, o, s, Act(token, CreateColony));
            && (r.Ok? <==> SignedIn(p, o, s, token) && IsSuper(s, Caller(s, token)))
            && (r.Ok? && o.newId !in s.colonies ==>
                  var s', c := r.value, BlankColony(o.newId, o.pub, o.priv);
                  && s' == s.(colonies := s'.colonies)
                  && Entered(p, o, s.(colonies := s.colonies[o.newId := c]), s', o.newId, c, Caller(s, token), ColonyCreated))
  {
    hide Actor, SignedIn, Stamp, Post, Entered, Caller;
    CallersAreSignedIn(p, o, s, token);
    var plan := Plan(p, o, s, token, CreateColony);
    if plan.Ok? && o.newId !in s.colonies {
      var c := BlankColony(o.newId, o.pub, o.priv);
      FoundingSplits(p, o.now, s, plan.value);
      PostEnters(p, o, s.(colonies := s.colonies[o.newId := c]), plan.value.(founded := None));
      SentNothing(c);
    }
  }

  /** A manager of the colony, and nobody else, pins a peer's current key. */
  lemma PeersAreTrustedAsAsked(p: Platform, o: Oracle, s: State, token: string, colony: Id, peer: Id)
    ensures var r := Exec(p, o, s, Act(token, TrustPeer(colony, peer)));
            && (r.Ok? <==> TrimSpace(peer) != "" && colony in s.colonies && peer in s.colonies && ManagedBy(p, o, s, token, colony))
            && (r.Ok? ==>
                  var s', c := r.value, s.colonies[colony];
                  && s' == s.(colonies := s'.colonies)
                  && Entered(p, o, s, s', colony, c.(trusted := c.trusted[peer := s.colonies[peer].pub]), Caller(s, token), PeerTrusted(peer)))
  {
    hide Actor, SignedIn, Stamp, Post, Entered, Caller, TrimSpace;
    CallersAreSignedIn(p, o, s, token);
    var plan := Plan(p, o, s, token, TrustPeer(colony, peer));
    if plan.Ok? {
      PostEnters(p, o, s, plan.value);
      SentNothing(s.colonies[colony]);
    }
  }

  /** A manager enrols a user with an empty account in the colony; only a super admin makes a super admin. */
  lemma UsersAreAsAsked(p: Platform, o: Oracle, s: State, token: string, colony: Id, roles: seq<string>)
    ensures var r := Exec(p, o, s, Act(token, CreateUser(colony, roles)));
            && (r.Ok? <==> colony in s.colonies && ManagedBy(p, o, s, token, colony)
                           && ("super_admin" in roles ==> IsSuper(s, Caller(s, token))))
            && (r.Ok? ==>
                  var s', c := r.value, s.colonies[colony];
                  && s' == s.(users := s.users[o.newId := User(colony, roles, o.pub, o.priv, true, false)], colonies := s'.colonies)
                  && Entered(p, o, s, s', colony, c.(accounts := c.accounts[o.newId := 0]), Caller(s, token), UserCreated(o.newId)))
  {
    hide Actor, SignedIn, Stamp, Post, Entered, Caller;
    CallersAreSignedIn(p, o, s, token);
    var plan := Plan(p, o, s, token, CreateUser(colony, roles));
    if plan.Ok? {
      PostEnters(p, o, s, plan.value);
      SentNothing(s.colonies[colony]);
    }
  }
}
