/** Over every operation: who may change a policy or a trade, and to what. */
module Mandates {
  import opened Basics
  import opened TradeTable
  import opened Model
  import opened Handlers
  import opened Invariant
  import opened Runs
  import opened Rights
  import opened Promises
  import opened AdminPromises
  import opened Provenance
  import opened Evidence

  // ---- sweeps ------------------------------------------------------------------------------

  /** An offer nobody accepted before it lapsed. */
  predicate LapsedOffer(p: Platform, now: int, t: Trade) {
    (t.status == OfferPendingExport || t.status == OfferReceived) && Lapsed(p, now, t)
  }

  /** The lapsed offers of a colony that a sweep comes to. */
  function LapsedOf(p: Platform, now: int, s: State, order: seq<Id>, c: Id): set<Id> {
    set t | t in order && t in s.trades && s.trades[t].sellerColony == c && LapsedOffer(p, now, s.trades[t])
  }

  /** Exactly the lapsed offers in `order` are closed. */
  predicate OffersClosed(p: Platform, now: int, s: State, trades: map<Id, Trade>, order: seq<Id>) {
    && trades.Keys == s.trades.Keys
    && forall t :: t in s.trades ==>
         trades[t] == if t in order && LapsedOffer(p, now, s.trades[t]) then s.trades[t].(status := Expired) else s.trades[t]
  }

  /** The colony's ledger is `n` entries longer; nothing else of it changed. */
  predicate OnlyEntries(a: Colony, b: Colony, n: nat) {
    && b == a.(ledger := b.ledger, nextSeq := b.nextSeq, lastHash := b.lastHash)
    && a.ledger <= b.ledger && |b.ledger| == |a.ledger| + n
  }

  /** Each closed offer is one entry in the ledger of its seller's colony. */
  ghost predicate EntriesWritten(p: Platform, now: int, s: State, colonies: map<Id, Colony>, order: seq<Id>) {
    && colonies.Keys == s.colonies.Keys
    && forall c :: c in s.colonies ==> OnlyEntries(s.colonies[c], colonies[c], |LapsedOf(p, now, s, order, c)|)
  }

  /** Exactly the lapsed offers in `order` are closed, each with one entry, and nothing else changes. */
  ghost predicate SweepDone(p: Platform, now: int, s: State, s': State, order: seq<Id>) {
    && s' == s.(trades := s'.trades, colonies := s'.colonies)
    && OffersClosed(p, now, s, s'.trades, order) && EntriesWritten(p, now, s, s'.colonies, order)
  }

  lemma ExpiresExactly(p: Platform, now: int, s: State, t: Id)
    ensures PlanExpire(p, now, s, t).Some? <==> t in s.trades && LapsedOffer(p, now, s.trades[t])
  {
  }

  lemma ExpiredHasLapsed(p: Platform, now: int, t: Trade)
    ensures !LapsedOffer(p, now, t.(status := Expired))
  {
  }

  lemma NothingLapses(p: Platform, now: int, s: State, c: Id)
    ensures LapsedOf(p, now, s, [], c) == {}
  {
  }

  lemma OneMoreLapsed(p: Platform, now: int, s: State, order: seq<Id>, t: Id, c: Id)
    ensures LapsedOf(p, now, s, order + [t], c) ==
            LapsedOf(p, now, s, order, c)
            + if t in s.trades && s.trades[t].sellerColony == c && LapsedOffer(p, now, s.trades[t]) then {t} else {}
    ensures |LapsedOf(p, now, s, order + [t], c)| == |LapsedOf(p, now, s, order, c)|
            + if t !in order && t in s.trades && s.trades[t].sellerColony == c && LapsedOffer(p, now, s.trades[t]) then 1 else 0
  {
    hide LapsedOffer;
    var before, after := LapsedOf(p, now, s, order, c), LapsedOf(p, now, s, order + [t], c);
    if t in s.trades && s.trades[t].sellerColony == c && LapsedOffer(p, now, s.trades[t]) {
      assert after == before + {t};
    } else {
      assert after == before;
    }
  }

  lemma ExpiryPosts(p: Platform, now: int, s: State, t: Id)
    requires PlanExpire(p, now, s, t).Some? && s.trades[t].sellerColony in s.colonies
    ensures var s', c := Post(p, now, s, PlanExpire(p, now, s, t).value), s.trades[t].sellerColony;
            && s' == s.(trades := s.trades[t := s.trades[t].(status := Expired)], colonies := s.colonies[c := s'.colonies[c]])
            && OnlyEntries(s.colonies[c], s'.colonies[c], 1)
  {
    hide Due, HashLedgerEntry, Stamp;
    assert s.colonies[s.trades[t].sellerColony].outbox + [] == s.colonies[s.trades[t].sellerColony].outbox;
  }

  lemma EntriesAdd(a: Colony, b: Colony, c: Colony, i: nat, j: nat)
    requires OnlyEntries(a, b, i) && OnlyEntries(b, c, j)
    ensures OnlyEntries(a, c, i + j)
  {
  }

  lemma NobodyWrites(p: Platform, now: int, s: State)
    ensures EntriesWritten(p, now, s, s.colonies, [])
  {
    hide LapsedOf;
    forall c | c in s.colonies ensures OnlyEntries(s.colonies[c], s.colonies[c], |LapsedOf(p, now, s, [], c)|) {
      NothingLapses(p, now, s, c);
    }
  }

  /** The offer the sweep comes to next is closed if it lapsed, unless it was before. */
  lemma OffersCloseOn(p: Platform, now: int, s: State, mid: State, order: seq<Id>, t: Id)
    requires OffersClosed(p, now, s, mid.trades, order)
    ensures PlanExpire(p, now, mid, t).Some? <==> t !in order && t in s.trades && LapsedOffer(p, now, s.trades[t])
    ensures OffersClosed(p, now, s, if PlanExpire(p, now, mid, t).Some? then mid.trades[t := mid.trades[t].(status := Expired)] else mid.trades, order + [t])
  {
    hide PlanExpire, LapsedOffer;
    ExpiresExactly(p, now, mid, t);
    if t in s.trades {
      ExpiredHasLapsed(p, now, s.trades[t]);
    }
  }

  lemma EntriesGoOn(p: Platform, now: int, s: State, mid: map<Id, Colony>, last: map<Id, Colony>, order: seq<Id>, t: Id, closed: bool)
    requires EntriesWritten(p, now, s, mid, order)
    requires closed <==> t !in order && t in s.trades && LapsedOffer(p, now, s.trades[t])
    requires if closed then s.trades[t].sellerColony in mid && s.trades[t].sellerColony in last
                            && last == mid[s.trades[t].sellerColony := last[s.trades[t].sellerColony]]
                            && OnlyEntries(mid[s.trades[t].sellerColony], last[s.trades[t].sellerColony], 1)
             else last == mid
    ensures EntriesWritten(p, now, s, last, order + [t])
  {
    hide LapsedOf, LapsedOffer, OnlyEntries;
    forall c | c in s.colonies ensures OnlyEntries(s.colonies[c], last[c], |LapsedOf(p, now, s, order + [t], c)|) {
      OneMoreLapsed(p, now, s, order, t, c);
      if closed && c == s.trades[t].sellerColony {
        EntriesAdd(s.colonies[c], mid[c], last[c], |LapsedOf(p, now, s, order, c)|, 1);
      }
    }
  }

  lemma {:induction false} SweepCloses(p: Platform, now: int, s: State, order: seq<Id>)
    requires forall t :: t in s.trades ==> s.trades[t].sellerColony in s.colonies
    ensures SweepDone(p, now, s, Sweep(p, now, s, order), order)
  {
    hide Post, PlanExpire, LapsedOf, LapsedOffer, OnlyEntries, EntriesWritten;
    if order == [] {
      NobodyWrites(p, now, s);
    } else {
      var rest, t := order[..|order| - 1], order[|order| - 1];
      var mid := Sweep(p, now, s, rest);
      assert order == rest + [t];
      SweepCloses(p, now, s, rest);
      OffersCloseOn(p, now, s, mid, rest, t);
      var closed := PlanExpire(p, now, mid, t).Some?;
      if closed {
        EntriesKeepColonies(p, now, s, mid.colonies, rest);
        ExpiryPosts(p, now, mid, t);
      }
      EntriesGoOn(p, now, s, mid.colonies, Sweep(p, now, s, order).colonies, rest, t, closed);
    }
  }

  lemma EntriesKeepColonies(p: Platform, now: int, s: State, colonies: map<Id, Colony>, order: seq<Id>)
    requires EntriesWritten(p, now, s, colonies, order)
    ensures colonies.Keys == s.colonies.Keys
  {
  }

  /** A sweep closes exactly the lapsed offers it comes to, each with one entry, and changes nothing else. */
  lemma SweepsCloseLapsedOffers(p: Platform, o: Oracle, s: State, order: seq<Id>)
    requires Inv(p, s)
    ensures var r := Exec(p, o, s, SweepExpired(order)); r.Ok? && SweepDone(p, o.now, s, r.value, order)
  {
    hide Inv, Rows, SweepDone, Sweep;
    InvHasRows(p, s);
    forall t | t in s.trades ensures s.trades[t].sellerColony in s.colonies {
      TradeHomes(s, t);
    }
    SweepCloses(p, o.now, s, order);
  }

  // ---- policies ----------------------------------------------------------------------------

  /** The colony's policy is the one asked for; what was not asked for stays. */
  predicate PolicyIs(c: Colony, c': Colony, cap: Option<int64>, dual: Option<bool>) {
    c'.mintCap == UnderPolicy(c, cap, dual).mintCap && c'.dual == UnderPolicy(c, cap, dual).dual
  }

  /** A super admin set the policy where one may alone, or another manager approved its pending proposal in time. */
  predicate PolicyMandate(p: Platform, o: Oracle, s: State, op: Op, id: Id, c': Colony)
    requires id in s.colonies
  {
    && op.Act?
    && var c := s.colonies[id];
       match op.request
       case SetPolicy(colony, cap, dual) =>
         colony == id && !c.dual && PolicyGranted(p, o, s, op.token, id, cap, dual) && PolicyIs(c, c', cap, dual)
       case DecideApproval(a, approve) =>
         && approve && MayDecideNow(p, o, s, op.token, a)
         && var pa := s.actions[a];
            pa.kind == PolicyAction && pa.colony == id && CapValid(c, pa.cap) && PolicyIs(c, c', pa.cap, pa.dual)
       case _ => false
  }

  /** The policy the operation leaves in a colony it does not set. */
  predicate SamePolicy(c: Colony, c': Colony) {
    c'.mintCap == c.mintCap && c'.dual == c.dual
  }

  lemma EnteredPolicy(p: Platform, o: Oracle, s: State, s': State, id: Id, c: Colony, actor: Id, payload: Payload, x: Id)
    requires Entered(p, o, s, s', id, c, actor, payload) && x in s.colonies
    ensures x in s'.colonies && SamePolicy(if x == id then c else s.colonies[x], s'.colonies[x])
  {
  }

  lemma PolicySetFor(p: Platform, o: Oracle, s: State, s': State, caller: Id, id: Id, cap: Option<int64>, dual: Option<bool>, x: Id)
    requires PolicySet(p, o, s, s', caller, id, cap, dual) && x in s.colonies
    ensures x in s'.colonies
    ensures if x == id && !s.colonies[x].dual then PolicyIs(s.colonies[x], s'.colonies[x], cap, dual) else SamePolicy(s.colonies[x], s'.colonies[x])
  {
    hide Entered;
    var c, c' := s.colonies[id], UnderPolicy(s.colonies[id], cap, dual);
    if c.dual {
      EnteredPolicy(p, o, s, s', id, c, caller, PolicyProposed(o.newId), x);
    } else {
      EnteredPolicy(p, o, s, s', id, c', caller, PolicyChanged(CapInForce(c'), c'.dual, ""), x);
    }
  }

  lemma RejectedFor(p: Platform, o: Oracle, s: State, s': State, caller: Id, a: Id, x: Id)
    requires RejectedOnly(p, o, s, s', caller, a) && x in s.colonies
    ensures x in s'.colonies && SamePolicy(s.colonies[x], s'.colonies[x])
  {
    hide Entered;
    var pa := s.actions[a];
    EnteredPolicy(p, o, s, s', pa.colony, s.colonies[pa.colony], caller, ApprovalRejected(a, pa.kind), x);
  }

  lemma ApprovedFor(p: Platform, o: Oracle, s: State, s': State, caller: Id, a: Id, x: Id)
    requires ApprovedAndDone(p, o, s, s', caller, a) && x in s.colonies
    ensures x in s'.colonies
    ensures var pa := s.actions[a];
            if x == pa.colony && pa.kind == PolicyAction then CapValid(s.colonies[x], pa.cap) && PolicyIs(s.colonies[x], s'.colonies[x], pa.cap, pa.dual)
            else SamePolicy(s.colonies[x], s'.colonies[x])
  {
    hide Entered;
    var pa, c := s.actions[a], s.colonies[s.actions[a].colony];
    match pa.kind
    case MintAction =>
      var total, balance := c.mintedTotal + pa.amount, c.accounts[pa.user] + pa.amount;
      EnteredPolicy(p, o, s, s', pa.colony, c.(mintedTotal := total, accounts := c.accounts[pa.user := balance]), pa.proposedBy,
                    FundsMinted(pa.user, pa.amount, balance, total, caller), x);
    case PolicyAction =>
      var c' := UnderPolicy(c, pa.cap, pa.dual);
      EnteredPolicy(p, o, s, s', pa.colony, c', pa.proposedBy, PolicyChanged(CapInForce(c'), c'.dual, caller), x);
    case ForceRefundAction =>
      var row := s.trades[pa.trade];
      var balance := c.accounts[row.buyer] + row.price;
      EnteredPolicy(p, o, s, s', pa.colony, c.(accounts := c.accounts[row.buyer := balance]), caller,
                    TradeForceRefunded(pa.trade, row.price, balance, pa.proposedBy, caller), x);
  }

  /** The effect sets no policy, and founds at most the colony with the drawn id. */
  predicate SetsNoPolicy(o: Oracle, fx: Effect) {
    fx.cap.None? && fx.dual.None? && (fx.founded.Some? ==> fx.founded.value.0 == o.newId)
  }

  lemma TradesSetNoPolicy(p: Platform, o: Oracle, s: State, token: string, request: Request)
    requires Plan(p, o, s, token, request).Ok? && (request.CreateOffer? || request.AcceptTrade? || request.CancelTrade?)
    ensures SetsNoPolicy(o, Plan(p, o, s, token, request).value)
  {
    hide Actor, IsExpired, TrimSpace, Wrap, Sealed, Stamp, TransitionAllowed;
  }

  lemma RowsSetNoPolicy(p: Platform, o: Oracle, s: State, token: string, request: Request)
    requires Plan(p, o, s, token, request).Ok? && !request.CreateOffer? && !request.AcceptTrade? && !request.CancelTrade? && !request.DecideApproval? && !request.SetPolicy?
    ensures SetsNoPolicy(o, Plan(p, o, s, token, request).value)
  {
    hide Actor, AddChecked, TrimSpace, Picked, Wrapped, Stamp, EffectiveMintCap, CanManageColony, CanRelay, HasRole, ValidatePolicy;
  }

  lemma OthersSetNoPolicy(p: Platform, o: Oracle, s: State, token: string, request: Request)
    requires Plan(p, o, s, token, request).Ok? && !request.SetPolicy? && !request.DecideApproval?
    ensures SetsNoPolicy(o, Plan(p, o, s, token, request).value)
  {
    hide Plan, SetsNoPolicy;
    if request.CreateOffer? || request.AcceptTrade? || request.CancelTrade? {
      TradesSetNoPolicy(p, o, s, token, request);
    } else {
      RowsSetNoPolicy(p, o, s, token, request);
    }
  }

  lemma PostKeepsPolicy(p: Platform, now: int, s: State, fx: Effect, x: Id)
    requires fx.cap.None? && fx.dual.None? && x in s.colonies && (fx.founded.Some? ==> fx.founded.value.0 !in s.colonies)
    ensures var s' := Post(p, now, s, fx); x in s'.colonies && SamePolicy(s.colonies[x], s'.colonies[x])
  {
  }

  lemma ImportKeepsPolicy(p: Platform, o: Oracle, s: State, token: string, colony: Id, id: Id, b: Bundle, x: Id)
    requires ImportBundle(p, o, s, token, colony, id, b).Ok? && x in s.colonies
    ensures var s' := ImportBundle(p, o, s, token, colony, id, b).value.0; x in s'.colonies && SamePolicy(s.colonies[x], s'.colonies[x])
  {
    hide CheckImport, ImportUpTo, Post;
    var acc := ImportUpTo(p, o, s, b.from, colony, b.messages, |b.messages|).value;
    LoopKeepsSettings(p, o, s, b.from, colony, b.messages, |b.messages|);
    PostKeepsPolicy(p, o.now, acc.state, ImportClosing(colony, CheckImport(p, o, s, token, colony, b).value, id, b, acc.imported, acc.skipped), x);
  }

  lemma SweepKeepsPolicy(p: Platform, now: int, s: State, s': State, order: seq<Id>, x: Id)
    requires SweepDone(p, now, s, s', order) && x in s.colonies
    ensures x in s'.colonies && SamePolicy(s.colonies[x], s'.colonies[x])
  {
    assert OnlyEntries(s.colonies[x], s'.colonies[x], |LapsedOf(p, now, s, order, x)|);
  }

  lemma RequestPolicy(p: Platform, o: Oracle, s: State, token: string, request: Request, x: Id)
    requires Inv(p, s) && Fresh(s, o) && x in s.colonies && Exec(p, o, s, Act(token, request)).Ok?
    ensures var s' := Exec(p, o, s, Act(token, request)).value;
            x in s'.colonies && (SamePolicy(s.colonies[x], s'.colonies[x]) || PolicyMandate(p, o, s, Act(token, request), x, s'.colonies[x]))
  {
    hide Inv, Plan, Post, PolicySet, PolicyGranted, ApprovedAndDone, RejectedOnly, MayDecideNow, StillPossible, Caller, SamePolicy, PolicyIs, CapValid;
    var s' := Exec(p, o, s, Act(token, request)).value;
    match request
    case SetPolicy(colony, cap, dual) =>
      PoliciesAreAsAsked(p, o, s, token, colony, cap, dual);
      PolicySetFor(p, o, s, s', Caller(s, token), colony, cap, dual, x);
    case DecideApproval(a, approve) =>
      DecisionsAreAsAsked(p, o, s, token, a, approve);
      if approve {
        ApprovedFor(p, o, s, s', Caller(s, token), a, x);
      } else {
        RejectedFor(p, o, s, s', Caller(s, token), a, x);
      }
    case _ =>
      OthersSetNoPolicy(p, o, s, token, request);
      PostKeepsPolicy(p, o.now, s, Plan(p, o, s, token, request).value, x);
  }

  /** Whatever happens, a policy changes only under a mandate, and to the very values it asks for; a colony under dual control needs two admins. */
  lemma PoliciesNeedAMandate(p: Platform, o: Oracle, s: State, op: Op, c: Id)
    requires Inv(p, s) && Fresh(s, o) && c in s.colonies
    ensures var s' := After(p, o, s, op);
            c in s'.colonies && (SamePolicy(s.colonies[c], s'.colonies[c]) || PolicyMandate(p, o, s, op, c, s'.colonies[c]))
  {
    hide Inv, Plan, Post, Sweep, ImportBundle, SweepDone, PolicyMandate;
    match op
    case Act(token, request) =>
      if Exec(p, o, s, op).Ok? {
        RequestPolicy(p, o, s, token, request, c);
      }
    case Import(token, colony, id, b) =>
      if ImportBundle(p, o, s, token, colony, id, b).Ok? {
        ImportKeepsPolicy(p, o, s, token, colony, id, b, c);
      }
    case SweepExpired(order) =>
      SweepsCloseLapsedOffers(p, o, s, order);
      SweepKeepsPolicy(p, o.now, s, After(p, o, s, op), order, c);
    case Admin(users, sessions, note) =>
      if note.Some? {
        PostKeepsPolicy(p, o.now, s.(users := users, sessions := sessions), Logged(note.value.0, note.value.1, note.value.2), c);
      }
  }

  // ---- trades ------------------------------------------------------------------------------

  /** What the row of trade `t` becomes, and who or what made it so. */
  ghost predicate TradeMandate(p: Platform, o: Oracle, s: State, op: Op, t: Id, row: Trade) {
    match op
    case Act(token, request) =>
      (match request
       case CreateOffer(seller, buyer, asset, price, ttl) =>
         && t == o.newId && OfferAllowed(p, o, s, token, seller, buyer, asset, price, ttl)
         && var b := AskedOffer(p, o, s, seller, buyer, asset, price, ttl); row == OfferRow(b, o.envelopeId(0))
       case AcceptTrade(x) => t == x && AcceptAllowed(p, o, s, token, t) && row.status == AcceptancePendingExport
       case CancelTrade(x) =>
         t == x && CancelAllowed(p, o, s, token, t)
         && row.status == if s.trades[t].status == AcceptancePendingExport then AcceptancePendingExport else Cancelled
       case DecideApproval(a, approve) =>
         && approve && MayDecideNow(p, o, s, token, a) && s.actions[a].kind == ForceRefundAction && s.actions[a].trade == t
         && t in s.trades && Paid(s.trades[t]) && row == s.trades[t].(status := Refunded, refundedAt := Stamp(p, o.now))
       case _ => false)
    case Import(token, colony, _, b) =>
      Admitted(p, o, s, token, colony, b) && Shown(p, s, b.from, colony, b.messages, |b.messages|, t, row)
    case SweepExpired(order) => t in order && t in s.trades && LapsedOffer(p, o.now, s.trades[t]) && row == s.trades[t].(status := Expired)
    case Admin(_, _, _) => false
  }

  /** The row of `t` is as it was, or there is none. */
  predicate SameRow(s: State, s': State, t: Id) {
    if t in s.trades then t in s'.trades && s'.trades[t] == s.trades[t] else t !in s'.trades
  }

  /** The row of `t` changed only as the operation may change it. */
  ghost predicate RowMandated(p: Platform, o: Oracle, s: State, s': State, op: Op, t: Id) {
    SameRow(s, s', t) || (t in s'.trades && TradeMandate(p, o, s, op, t, s'.trades[t]))
  }

  lemma OfferedRow(p: Platform, o: Oracle, s: State, s': State, token: string,
                   seller: Id, buyer: Id, asset: string, price: int64, ttl: int64, t: Id)
    requires OfferAllowed(p, o, s, token, seller, buyer, asset, price, ttl)
    requires Offered(p, o, s, s', Caller(s, token), AskedOffer(p, o, s, seller, buyer, asset, price, ttl))
    ensures RowMandated(p, o, s, s', Act(token, CreateOffer(seller, buyer, asset, price, ttl)), t)
  {
    hide Entered, AskedOffer, SignedIn, MayTrade, Lifetime, TrimSpace;
  }

  lemma AcceptedRow(p: Platform, o: Oracle, s: State, s': State, caller: Id, t: Id)
    requires Accepted(p, o, s, s', caller, t)
    ensures t in s'.trades && s'.trades == s.trades[t := s'.trades[t]] && s'.trades[t].status == AcceptancePendingExport
  {
    hide Entered;
  }

  lemma CancelledRow(p: Platform, o: Oracle, s: State, s': State, caller: Id, t: Id)
    requires CancelledOrAsked(p, o, s, s', caller, t)
    ensures t in s'.trades && t in s.trades && s'.trades == s.trades[t := s'.trades[t]]
    ensures s'.trades[t].status == if s.trades[t].status == AcceptancePendingExport then AcceptancePendingExport else Cancelled
  {
    hide Entered, Letter, Stamp;
  }

  lemma DecidedRows(p: Platform, o: Oracle, s: State, s': State, caller: Id, a: Id)
    requires ApprovedAndDone(p, o, s, s', caller, a)
    ensures var pa := s.actions[a];
            if pa.kind == ForceRefundAction then
              && pa.trade in s.trades && Paid(s.trades[pa.trade])
              && s'.trades == s.trades[pa.trade := s.trades[pa.trade].(status := Refunded, refundedAt := Stamp(p, o.now))]
            else s'.trades == s.trades
  {
    hide Entered;
  }

  lemma OthersTouchNoTrade(p: Platform, o: Oracle, s: State, token: string, request: Request)
    requires Plan(p, o, s, token, request).Ok?
    requires !request.CreateOffer? && !request.AcceptTrade? && !request.CancelTrade? && !request.DecideApproval?
    ensures Plan(p, o, s, token, request).value.trade.None?
  {
    hide Actor, AddChecked, TrimSpace, Picked, Wrapped, Stamp, EffectiveMintCap;
  }

  lemma PostTouchesNoTrade(p: Platform, now: int, s: State, fx: Effect)
    requires fx.trade.None?
    ensures Post(p, now, s, fx).trades == s.trades
  {
    hide PostColonies;
  }

  lemma RequestRow(p: Platform, o: Oracle, s: State, token: string, request: Request, t: Id)
    requires Inv(p, s) && Exec(p, o, s, Act(token, request)).Ok?
    ensures RowMandated(p, o, s, Exec(p, o, s, Act(token, request)).value, Act(token, request), t)
  {
    hide Inv, Plan, Post, OfferAllowed, Offered, AskedOffer, OfferRow, AcceptAllowed, Accepted, CancelAllowed, CancelledOrAsked,
         MayDecideNow, StillPossible, ApprovedAndDone, Paid, Caller;
    var s' := Exec(p, o, s, Act(token, request)).value;
    match request
    case CreateOffer(seller, buyer, asset, price, ttl) =>
      OffersAreAsAsked(p, o, s, token, seller, buyer, asset, price, ttl);
      OfferedRow(p, o, s, s', token, seller, buyer, asset, price, ttl, t);
    case AcceptTrade(x) =>
      AcceptancesAreAsAsked(p, o, s, token, x);
      AcceptedRow(p, o, s, s', Caller(s, token), x);
    case CancelTrade(x) =>
      CancelsAreAsAsked(p, o, s, token, x);
      CancelledRow(p, o, s, s', Caller(s, token), x);
    case DecideApproval(a, approve) =>
      DecisionsAreAsAsked(p, o, s, token, a, approve);
      if approve {
        DecidedRows(p, o, s, s', Caller(s, token), a);
      }
    case _ =>
      OthersTouchNoTrade(p, o, s, token, request);
      PostTouchesNoTrade(p, o.now, s, Plan(p, o, s, token, request).value);
  }

  lemma ImportedRow(p: Platform, o: Oracle, s: State, token: string, colony: Id, id: Id, b: Bundle, t: Id)
    requires Inv(p, s) && ImportBundle(p, o, s, token, colony, id, b).Ok?
    ensures RowMandated(p, o, s, ImportBundle(p, o, s, token, colony, id, b).value.0, Import(token, colony, id, b), t)
  {
    hide Inv, ImportBundle, Shown, Evolves;
    OnlyAdmittedBundlesComeIn(p, o, s, token, colony, id, b);
    ImportedChangesAreShown(p, o, s, token, colony, id, b, t);
    BundleGood(p, o, s, token, colony, id, b);
    if t in s.trades {
      TradesStay(s, ImportBundle(p, o, s, token, colony, id, b).value.0, t);
    }
  }

  lemma TradesStay(s: State, s': State, t: Id)
    requires Evolves(s, s') && t in s.trades
    ensures t in s'.trades
  {
  }

  /** Whatever happens, a trade appears or changes only under a mandate, to what it says; no trade ever goes. */
  lemma TradesNeedAMandate(p: Platform, o: Oracle, s: State, op: Op, t: Id)
    requires Inv(p, s)
    ensures RowMandated(p, o, s, After(p, o, s, op), op, t)
  {
    hide Inv, Plan, PostColonies, Sweep, ImportBundle, TradeMandate;
    match op
    case Act(token, request) =>
      if Exec(p, o, s, op).Ok? {
        RequestRow(p, o, s, token, request, t);
      }
    case Import(token, colony, id, b) =>
      if ImportBundle(p, o, s, token, colony, id, b).Ok? {
        ImportedRow(p, o, s, token, colony, id, b, t);
      }
    case SweepExpired(order) =>
      SweepsCloseLapsedOffers(p, o, s, order);
      SweptRow(p, o, s, After(p, o, s, op), order, t);
    case Admin(users, sessions, note) =>
  }

  lemma SweptRow(p: Platform, o: Oracle, s: State, s': State, order: seq<Id>, t: Id)
    requires SweepDone(p, o.now, s, s', order)
    ensures RowMandated(p, o, s, s', SweepExpired(order), t)
  {
    hide EntriesWritten, LapsedOffer;
  }
}
