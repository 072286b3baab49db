/** Every trade an import changed shows what a signed message said, and every import answers what it did. */
module Evidence {
  import opened Basics
  import opened TradeTable
  import opened Model
  import opened Handlers
  import opened Invariant
  import opened Runs
  import opened ScopedImports
  import opened Provenance

  // ---- what each kind of message is evidence of ----------------------------------------------

  predicate FromUser(s: State, u: Id, colony: Id) {
    u in s.users && s.users[u].colony == colony
  }

  /** The seller offered exactly this to the buyer. */
  predicate OfferedBy(p: Platform, s: State, source: Id, target: Id, e: Envelope, t: Trade)
    requires e.body.Body?
  {
    var b := e.body;
    && t.status == OfferReceived && t.offerEnvelope == e.id && t.sellerSig == b.sellerSig
    && t.asset == b.asset && t.price == b.price && t.seller == b.seller && t.buyer == b.buyer
    && t.sellerColony == b.sellerColony == source && t.buyerColony == b.buyerColony == target && t.expiresAt == b.expiresAt
    && 0 < b.price <= MAX_AMOUNT && TrimSpace(b.asset) != "" && FromUser(s, b.seller, source) && FromUser(s, b.buyer, target)
    && p.verify(s.users[b.seller].pub,
                OfferSig(b.trade, b.asset, b.price, b.seller, source, b.buyer, target, b.createdAt, b.expiresAt), b.sellerSig)
  }

  /** By its own time the acceptance came after the offer's expiry. */
  predicate Late(p: Platform, t: Trade, acceptedAt: string) {
    t.expiresAt != "" && p.parse(t.expiresAt).Some? && p.parse(acceptedAt).Some? && p.parse(acceptedAt).value > p.parse(t.expiresAt).value
  }

  /** The buyer accepted at the price: in time the seller is credited, too late a refund is decided. */
  predicate AcceptedBy(p: Platform, s: State, source: Id, target: Id, e: Envelope, t: Trade)
    requires e.body.Body?
  {
    var b := e.body;
    && t.acceptanceEnvelope == e.id
    && t.buyer == b.buyer && t.buyerColony == b.buyerColony == source && t.sellerColony == target && t.price == b.debit
    && FromUser(s, b.buyer, source)
    && p.verify(s.users[b.buyer].pub, AcceptanceSig(b.trade, b.buyer, source, b.debit, b.acceptedAt), b.buyerSig)
    && t.status == (if Late(p, t, b.acceptedAt) then RefundPendingExport else SettlementPendingExport)
    && (t.expiresAt != "" && p.parse(t.expiresAt).Some? ==> p.parse(b.acceptedAt).Some?)
    && (t.status == SettlementPendingExport ==> t.acceptedAt == b.acceptedAt && t.buyerSig == b.buyerSig)
  }

  /** The buyer asked to cancel. */
  predicate CancelledBy(p: Platform, s: State, source: Id, target: Id, e: Envelope, t: Trade)
    requires e.body.Body?
  {
    var b := e.body;
    && t.status == RefundPendingExport && t.cancelEnvelope == e.id
    && t.buyer == b.buyer && t.buyerColony == b.buyerColony == source && t.sellerColony == target && FromUser(s, b.buyer, source)
    && p.verify(s.users[b.buyer].pub, CancelSig(b.trade, b.buyer, source, b.requestedAt), b.buyerSig)
  }

  /** The seller's colony reports the credit. */
  predicate SettledBy(source: Id, target: Id, e: Envelope, t: Trade)
    requires e.body.Body?
  {
    var b := e.body;
    && t.status == Completed && t.settlementEnvelope == e.id && t.settledAt == b.settledAt
    && t.sellerColony == b.sellerColony == source && t.buyerColony == b.acceptedFrom == target && t.seller == b.seller && t.price == b.credit
  }

  /** The seller's colony gives the price back. */
  predicate RefundedBy(source: Id, target: Id, e: Envelope, t: Trade)
    requires e.body.Body?
  {
    var b := e.body;
    && t.status == Refunded
    && t.sellerColony == b.sellerColony == source && t.buyerColony == b.buyerColony == target && t.buyer == b.buyer && t.price == b.refund
  }

  /** The message is about the trade and says why it is as it is. */
  predicate Shows(p: Platform, s: State, source: Id, target: Id, e: Envelope, id: Id, t: Trade) {
    && e.body.Body? && e.body.trade == id
    && if e.kind == "offer" then OfferedBy(p, s, source, target, e, t)
       else if e.kind == "acceptance" then AcceptedBy(p, s, source, target, e, t)
       else if e.kind == "cancel_request" then CancelledBy(p, s, source, target, e, t)
       else if e.kind == "settlement" then SettledBy(source, target, e, t)
       else e.kind == "refund" && RefundedBy(source, target, e, t)
  }

  lemma OfferShows(p: Platform, s: State, source: Id, target: Id, e: Envelope)
    ensures var r := PlanImportOffer(p, s, source, target, e);
            r.Ok? && r.value.Some? ==>
              && r.value.value.trade.Some? && r.value.value.trade.value.0 == e.body.trade
              && OfferedBy(p, s, source, target, e, r.value.value.trade.value.1)
  {
    hide StepOf, TransitionAllowed, TrimSpace;
  }

  lemma AcceptanceShows(p: Platform, o: Oracle, i: nat, s: State, source: Id, target: Id, e: Envelope)
    requires source in s.colonies && target in s.colonies && e.kind == "acceptance"
    requires e.body.Body? && e.body.trade in s.trades ==> TradeRow(s, s.trades[e.body.trade])
    ensures var r := PlanImportAcceptance(p, o, i, s, source, target, e);
            r.Ok? && r.value.Some? ==>
              && r.value.value.trade.Some? && r.value.value.trade.value.0 == e.body.trade
              && AcceptedBy(p, s, source, target, e, r.value.value.trade.value.1)
  {
    hide StepOf, TransitionAllowed, AddChecked, Sealed, Stamp;
  }

  lemma CancelShows(p: Platform, o: Oracle, i: nat, s: State, source: Id, target: Id, e: Envelope)
    requires target in s.colonies && e.kind == "cancel_request"
    ensures var r := PlanImportCancel(p, o, i, s, source, target, e);
            r.Ok? && r.value.Some? ==>
              && r.value.value.trade.Some? && r.value.value.trade.value.0 == e.body.trade
              && CancelledBy(p, s, source, target, e, r.value.value.trade.value.1)
  {
    hide StepOf, TransitionAllowed, Sealed, Stamp;
  }

  lemma ReportShows(p: Platform, o: Oracle, s: State, source: Id, target: Id, e: Envelope)
    ensures var r := PlanImportSettlement(p, o, s, source, target, e);
            r.Ok? && r.value.Some? ==>
              && r.value.value.trade.Some? && r.value.value.trade.value.0 == e.body.trade
              && SettledBy(source, target, e, r.value.value.trade.value.1)
    ensures var r := PlanImportRefund(p, o, s, source, target, e);
            r.Ok? && r.value.Some? ==>
              && r.value.value.trade.Some? && r.value.value.trade.value.0 == e.body.trade
              && RefundedBy(source, target, e, r.value.value.trade.value.1)
  {
    hide StepOf, TransitionAllowed, AddChecked, Stamp;
  }

  lemma EnvelopeShows(p: Platform, o: Oracle, i: nat, s: State, source: Id, target: Id, e: Envelope)
    requires source in s.colonies && target in s.colonies
    requires e.body.Body? && e.body.trade in s.trades ==> TradeRow(s, s.trades[e.body.trade])
    ensures var r := PlanEnvelope(p, o, i, s, source, target, e);
            r.Ok? && r.value.Some? ==>
              && r.value.value.trade.Some? && e.body.Body? && r.value.value.trade.value.0 == e.body.trade
              && Shows(p, s, source, target, e, e.body.trade, r.value.value.trade.value.1)
  {
    hide PlanImportOffer, PlanImportAcceptance, PlanImportCancel, PlanImportSettlement, PlanImportRefund,
         OfferedBy, AcceptedBy, CancelledBy, SettledBy, RefundedBy;
    OfferShows(p, s, source, target, e);
    if e.kind == "acceptance" {
      AcceptanceShows(p, o, i, s, source, target, e);
    }
    if e.kind == "cancel_request" {
      CancelShows(p, o, i, s, source, target, e);
    }
    ReportShows(p, o, s, source, target, e);
    AppliedBody(p, o, i, s, source, target, e);
  }

  lemma AppliedBody(p: Platform, o: Oracle, i: nat, s: State, source: Id, target: Id, e: Envelope)
    requires source in s.colonies && target in s.colonies
    ensures var r := PlanEnvelope(p, o, i, s, source, target, e); r.Ok? ==> e.body.Body?
  {
    hide StepOf, Step, TrimSpace, Handlers.DecideRefund, Credit, AcceptedAfterExpiry, ApplyRefund;
  }

  // ---- a whole bundle --------------------------------------------------------------------------

  /** One of the first `n` messages was looked at, is signed by its colony, and shows the trade as it now is. */
  ghost predicate Shown(p: Platform, s: State, source: Id, target: Id, messages: seq<Option<Envelope>>, n: nat, id: Id, t: Trade)
    requires source in s.colonies && target in s.colonies && n <= |messages|
  {
    exists k :: 0 <= k < n && ShownBy(p, s, source, target, messages, k, id, t)
  }

  ghost predicate ShownBy(p: Platform, s: State, source: Id, target: Id, messages: seq<Option<Envelope>>, k: nat, id: Id, t: Trade)
    requires source in s.colonies && target in s.colonies && k < |messages|
  {
    && messages[k].Some? && !Skipped(s.colonies[target].processed, messages, k)
    && SignedBy(p, s.colonies[source].pub, source, target, messages[k].value)
    && Shows(p, s, source, target, messages[k].value, id, t)
  }

  lemma SamePeopleShow(p: Platform, s: State, s': State, source: Id, target: Id, e: Envelope, id: Id, t: Trade)
    requires s'.users == s.users && Shows(p, s', source, target, e, id, t)
    ensures Shows(p, s, source, target, e, id, t)
  {
    hide TrimSpace;
  }

  lemma MessageShows(p: Platform, o: Oracle, i: nat, source: Id, target: Id, acc: Progress, m: Option<Envelope>, id: Id)
    requires source in acc.state.colonies && target in acc.state.colonies && ImportMessage(p, o, i, source, target, acc, m).Ok?
    requires forall t :: t in acc.state.trades ==> TradeRow(acc.state, acc.state.trades[t])
    ensures var s, s' := acc.state, ImportMessage(p, o, i, source, target, acc, m).value.state;
            id in s'.trades ==>
              || (id in s.trades && s'.trades[id] == s.trades[id])
              || (m.Some? && m.value.id !in s.colonies[target].processed
                  && SignedBy(p, s.colonies[source].pub, source, target, m.value)
                  && Shows(p, s, source, target, m.value, id, s'.trades[id]))
  {
    hide PlanEnvelope, PostColonies, Shows, TradeRow;
    if m.Some? && m.value.id !in acc.state.colonies[target].processed {
      EnvelopeShows(p, o, i, acc.state, source, target, m.value);
    }
  }

  lemma {:induction false} LoopShows(p: Platform, o: Oracle, s: State, source: Id, target: Id, messages: seq<Option<Envelope>>, n: nat, id: Id)
    requires Inv(p, s) && source in s.colonies && target in s.colonies && n <= |messages| && ImportUpTo(p, o, s, source, target, messages, n).Ok?
    ensures var s' := ImportUpTo(p, o, s, source, target, messages, n).value.state;
            id in s'.trades ==>
              (id in s.trades && s'.trades[id] == s.trades[id]) || Shown(p, s, source, target, messages, n, id, s'.trades[id])
  {
    hide Inv, ImportMessage, Shows, SignedBy, Evolves, IdsUpTo;
    if n > 0 {
      var acc := ImportUpTo(p, o, s, source, target, messages, n - 1).value;
      LoopShows(p, o, s, source, target, messages, n - 1, id);
      LoopMarks(p, o, s, source, target, messages, n - 1);
      LoopKeepsSettings(p, o, s, source, target, messages, n - 1);
      ImportGood(p, o, s, source, target, messages, n - 1);
      TradeRowsHold(p, acc.state);
      MessageShows(p, o, n - 1, source, target, acc, messages[n - 1], id);
      var s' := ImportUpTo(p, o, s, source, target, messages, n).value.state;
      if id in s'.trades && !(id in acc.state.trades && s'.trades[id] == acc.state.trades[id]) {
        SamePeopleShow(p, s, acc.state, source, target, messages[n - 1].value, id, s'.trades[id]);
        assert ShownBy(p, s, source, target, messages, n - 1, id, s'.trades[id]);
      }
    }
  }

  lemma TradeRowsHold(p: Platform, s: State)
    requires Inv(p, s)
    ensures forall t :: t in s.trades ==> TradeRow(s, s.trades[t])
  {
    hide Accounting, Conserved, Mirrored, AllChained, Replays, Outcomes, SupplyBounds, DualControl, TradeRow, Homes, ClaimRows;
  }

  /** A trade that an import made or changed is as one signed message of the bundle says. */
  lemma ImportedChangesAreShown(p: Platform, o: Oracle, s: State, token: string, colony: Id, id: Id, b: Bundle, t: Id)
    requires Inv(p, s) && ImportBundle(p, o, s, token, colony, id, b).Ok?
    ensures colony in s.colonies && b.from in s.colonies
    ensures var s' := ImportBundle(p, o, s, token, colony, id, b).value.0;
            t in s'.trades ==>
              (t in s.trades && s'.trades[t] == s.trades[t]) || Shown(p, s, b.from, colony, b.messages, |b.messages|, t, s'.trades[t])
  {
    hide Inv, CheckImport, ImportUpTo, PostColonies, Shown;
    LoopShows(p, o, s, b.from, colony, b.messages, |b.messages|, t);
  }
}
