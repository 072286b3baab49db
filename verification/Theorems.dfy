/** What the invariant means for whole runs. */
module Theorems {
  import opened Basics
  import opened TradeTable
  import opened Model
  import opened Handlers
  import opened Invariant
  import opened Runs

  // ---- money -------------------------------------------------------------------

  function Bought(c: Id, u: Id): Trade -> int {
    (t: Trade) =>
      if t.buyerColony == c && t.buyer == u
         && t.status in {AcceptancePendingExport, RefundPendingExport, SettlementPendingExport, Completed}
      then t.price as int else 0
  }

  function Sold(c: Id, u: Id): Trade -> int {
    (t: Trade) =>
      if t.sellerColony == c && t.seller == u && t.status in {SettlementPendingExport, Completed} then t.price as int else 0
  }

  lemma MovementOf(t: Trade, c: Id, u: Id)
    ensures Movement(c, u)(t) == Sold(c, u)(t) - Bought(c, u)(t)
  {
  }

  lemma {:induction false} MovementSplits(trades: map<Id, Trade>, c: Id, u: Id)
    ensures Sum(trades, Movement(c, u)) == Sum(trades, Sold(c, u)) - Sum(trades, Bought(c, u))
    decreases |trades|
  {
    if trades != map[] {
      var k :| k in trades;
      SumPick(trades, k, Movement(c, u));
      SumPick(trades, k, Sold(c, u));
      SumPick(trades, k, Bought(c, u));
      MovementOf(trades[k], c, u);
      MovementSplits(trades - {k}, c, u);
    }
  }

  /** In every state of every run each balance is mints minus purchases plus sales, and not negative. */
  lemma BalancesAreExact(p: Platform, run: seq<State>, i: nat, c: Id, u: Id)
    requires Run(p, run) && i < |run| && c in run[i].colonies && u in run[i].colonies[c].accounts
    ensures run[i].colonies[c].accounts[u]
            == Fold(run[i].colonies[c].ledger, MintedTo(u)) - Sum(run[i].trades, Bought(c, u)) + Sum(run[i].trades, Sold(c, u))
    ensures run[i].colonies[c].accounts[u] >= 0
  {
    EveryStateIsGood(p, run, i);
    assert AccountExact(run[i], c, u);
    MovementSplits(run[i].trades, c, u);
  }

  lemma MoneyIsConserved(p: Platform, run: seq<State>, i: nat)
    requires Run(p, run) && i < |run|
    ensures Balances(run[i]) + Escrowed(run[i]) == Minted(run[i])
  {
    EveryStateIsGood(p, run, i);
  }

  /** In every state of every run: at most one debit, one credit, one refund and one decision per trade. */
  lemma OneOutcomePerTrade(p: Platform, run: seq<State>, i: nat, t: Id)
    requires Run(p, run) && i < |run|
    ensures OutcomeOf(run[i], t)
    ensures 0 <= Tally(run[i], IsCredit(t)) + Tally(run[i], IsRefund(t)) <= Tally(run[i], IsDebit(t)) <= 1
    ensures Tally(run[i], IsDecision(t)) <= 1
  {
    hide Run, OutcomeOf, Rows, Accounting, Conserved, Mirrored, AllChained, Replays, SupplyBounds, DualControl;
    EveryStateIsGood(p, run, i);
    OutcomeBounds(run[i], t);
  }

  lemma OutcomeBounds(s: State, t: Id)
    requires OutcomeOf(s, t)
    ensures 0 <= Tally(s, IsCredit(t)) + Tally(s, IsRefund(t)) <= Tally(s, IsDebit(t)) <= 1
    ensures Tally(s, IsDecision(t)) <= 1
  {
    hide Tally;
  }

  lemma ClaimsMirrorObligations(p: Platform, run: seq<State>, i: nat, a: Id, b: Id)
    requires Run(p, run) && i < |run| && a in run[i].colonies && b in run[i].colonies
    ensures MirrorOf(run[i], a, b)
  {
    EveryStateIsGood(p, run, i);
  }

  /** Replaying a colony's ledger gives its total balance, each account, and every recorded balance. */
  lemma LedgerReplaysBalances(p: Platform, run: seq<State>, i: nat, c: Id)
    requires Run(p, run) && i < |run| && c in run[i].colonies
    ensures ReplaysIn(run[i], c)
  {
    EveryStateIsGood(p, run, i);
  }

  // ---- trades over time ----------------------------------------------------------

  /** A closed offer is never reopened, and never carries an acceptance. */
  lemma ClosedOffersStayClosed(p: Platform, run: seq<State>, i: nat, j: nat, t: Id)
    requires Run(p, run) && i <= j < |run| && t in run[i].trades && run[i].trades[t].status in {Expired, Cancelled}
    ensures t in run[j].trades && run[j].trades[t].status == run[i].trades[t].status
    ensures run[j].trades[t].acceptanceEnvelope == ""
  {
    PastIsKept(p, run, i, j);
    assert TradeEvolves(run[i].trades[t], run[j].trades[t]);
    EveryStateIsGood(p, run, j);
    assert TradeRow(run[j], run[j].trades[t]);
  }

  /** Once a step of a trade is a duplicate it is a duplicate in every later state. */
  lemma DuplicateForGood(p: Platform, run: seq<State>, i: nat, j: nat, t: Id, pred: Status)
    requires Run(p, run) && i <= j < |run| && t in run[i].trades
    requires StepOf(run[i].trades[t].status, pred) == StepDuplicate
    ensures t in run[j].trades && StepOf(run[j].trades[t].status, pred) == StepDuplicate
  {
    PastIsKept(p, run, i, j);
    assert TradeEvolves(run[i].trades[t], run[j].trades[t]);
    DuplicateStaysDuplicate(run[i].trades[t].status, run[j].trades[t].status, pred);
  }

  /** How many of the first `n` operations of a run changed the status of a known trade. */
  ghost function StatusChanges(run: seq<State>, t: Id, n: nat): nat
    requires n < |run|
  {
    if n == 0 then 0
    else StatusChanges(run, t, n - 1)
         + if t in run[n - 1].trades && t in run[n].trades && run[n - 1].trades[t].status != run[n].trades[t].status then 1 else 0
  }

  /** Every change of status climbs, so over a whole run a trade changes status at most four times. */
  lemma {:induction false} AtMostFourStatusChanges(p: Platform, run: seq<State>, t: Id, n: nat)
    requires Run(p, run) && n < |run|
    ensures StatusChanges(run, t, n) <= if t in run[n].trades then Rank(run[n].trades[t].status) else 0
    ensures StatusChanges(run, t, n) <= 4
  {
    hide Run;
    if n > 0 {
      AtMostFourStatusChanges(p, run, t, n - 1);
      PastIsKept(p, run, n - 1, n);
      if t in run[n - 1].trades {
        assert TradeEvolves(run[n - 1].trades[t], run[n].trades[t]);
        LeadsClimbs(run[n - 1].trades[t].status, run[n].trades[t].status);
      }
    }
  }

  lemma LedgersOnlyGrow(p: Platform, run: seq<State>, i: nat, j: nat, c: Id)
    requires Run(p, run) && i <= j < |run| && c in run[i].colonies
    ensures c in run[j].colonies && run[i].colonies[c].ledger <= run[j].colonies[c].ledger
  {
    PastIsKept(p, run, i, j);
    assert ColonyEvolves(run[i].colonies[c], run[j].colonies[c]);
  }

  // ---- supply and dual control -----------------------------------------------------

  /** Whatever the order of mints, cap changes and delayed approvals, the cap in force bounds the supply. */
  lemma SupplyStaysBounded(p: Platform, run: seq<State>, i: nat, c: Id)
    requires Run(p, run) && i < |run| && c in run[i].colonies
    ensures SupplyBound(run[i].colonies[c])
  {
    EveryStateIsGood(p, run, i);
  }

  /** A decision is final: it was someone else's, in time, and nothing changes it afterwards. */
  lemma DecidedOnce(p: Platform, run: seq<State>, i: nat, j: nat, a: Id)
    requires Run(p, run) && i <= j < |run| && a in run[i].actions && run[i].actions[a].status != Pending
    ensures a in run[j].actions && run[j].actions[a] == run[i].actions[a]
    ensures DecidedProperly(p, run[i].actions[a])
  {
    hide Run, Rows, Accounting, Conserved, Mirrored, AllChained, Replays, Outcomes, SupplyBounds;
    PastIsKept(p, run, i, j);
    EveryStateIsGood(p, run, i);
    assert ActionRow(p, run[i], run[i].actions[a]);
  }

  /** For every mint or force refund, as many approvals of it as executions of it. */
  lemma ApprovalsMatchExecutions(p: Platform, run: seq<State>, i: nat, d: Deed)
    requires Run(p, run) && i < |run| && d.kind != PolicyAction
    ensures Sum(run[i].actions, ApprovedAs(d)) == Tally(run[i], ExecutedAs(d))
  {
    EveryStateIsGood(p, run, i);
  }

  // ---- escrow is never stuck -------------------------------------------------------

  lemma ColonyHolds(s: State, c: Id)
    requires Accounting(s) && c in s.colonies
    ensures 0 <= ColonyBalance(s.colonies[c])
    ensures forall u :: u in s.colonies[c].accounts ==> s.colonies[c].accounts[u] <= ColonyBalance(s.colonies[c])
  {
    forall u | u in s.colonies[c].accounts ensures 0 <= s.colonies[c].accounts[u] {
      assert AccountExact(s, c, u);
    }
    SumNonNegative(s.colonies[c].accounts, Balance);
    forall u | u in s.colonies[c].accounts ensures s.colonies[c].accounts[u] <= ColonyBalance(s.colonies[c]) {
      SumAtLeast(s.colonies[c].accounts, u, Balance);
    }
  }

  /** Any balance and any escrowed price fit together under the minted total. */
  lemma BalanceAndEscrowFit(p: Platform, s: State, c: Id, u: Id, t: Id)
    requires Inv(p, s) && c in s.colonies && u in s.colonies[c].accounts && t in s.trades && IsEscrowed(s.trades[t].status)
    ensures 0 <= s.colonies[c].accounts[u] + s.trades[t].price <= Minted(s)
  {
    hide Replays, Outcomes, SupplyBounds, DualControl, Mirrored, AllChained;
    AccountBelowBalances(s, c, u);
    TradeBelowEscrow(s, t);
  }

  lemma AccountBelowBalances(s: State, c: Id, u: Id)
    requires Accounting(s) && c in s.colonies && u in s.colonies[c].accounts
    ensures 0 <= s.colonies[c].accounts[u] <= Balances(s)
  {
    forall d | d in s.colonies ensures ColonyBalance(s.colonies[d]) >= 0 {
      ColonyHolds(s, d);
    }
    ColonyHolds(s, c);
    SumAtLeast(s.colonies, c, ColonyBalance);
    assert AccountExact(s, c, u);
  }

  lemma TradeBelowEscrow(s: State, t: Id)
    requires t in s.trades && IsEscrowed(s.trades[t].status)
    requires forall x :: x in s.trades ==> TradeRow(s, s.trades[x])
    ensures 0 <= s.trades[t].price <= Escrowed(s)
  {
    forall x | x in s.trades ensures Escrow(s.trades[x]) >= 0 {
      assert TradeRow(s, s.trades[x]);
    }
    SumAtLeast(s.trades, t, Escrow);
    assert TradeRow(s, s.trades[t]);
  }

  /** While the supply fits 64 bits, no refund and no credit of an escrowed trade overflows a balance. */
  lemma EscrowAdditionsFit(p: Platform, s: State, c: Id, u: Id, t: Id)
    requires Inv(p, s) && Minted(s) <= MAX_INT64
    requires c in s.colonies && u in s.colonies[c].accounts && t in s.trades && IsEscrowed(s.trades[t].status)
    ensures AddChecked(s.colonies[c].accounts[u], s.trades[t].price).Ok?
  {
    hide Inv;
    BalanceAndEscrowFit(p, s, c, u, t);
  }

  /** An action a second authorised admin can still decide. */
  predicate Decidable(p: Platform, o: Oracle, s: State, token: string, id: Id) {
    && Actor(p, o, s, token).Ok?
    && id in s.actions && s.actions[id].status == Pending
    && Actor(p, o, s, token).value in s.users
    && Actor(p, o, s, token).value != s.actions[id].proposedBy
    && CanManageColony(s.users[Actor(p, o, s, token).value], s.actions[id].colony)
    && p.parse(s.actions[id].expiresAt).Some? && !Past(p, o.now, s.actions[id].expiresAt)
  }

  /** The effect refunds trade `t` to its buyer in full. */
  predicate RefundsFully(s: State, fx: Effect, t: Id) {
    && t in s.trades && s.trades[t].buyerColony in s.colonies
    && s.trades[t].buyer in s.colonies[s.trades[t].buyerColony].accounts
    && fx.account.Some? && fx.account.value.0 == s.trades[t].buyer
    && fx.account.value.1 == s.colonies[s.trades[t].buyerColony].accounts[s.trades[t].buyer] + s.trades[t].price
    && fx.trade.Some? && fx.trade.value.0 == t && fx.trade.value.1.status == Refunded
  }

  /** A proposed force refund of an escrowed trade succeeds when a second authorised admin approves it in time. */
  lemma ForceRefundNeverStuck(p: Platform, o: Oracle, s: State, token: string, id: Id)
    requires Inv(p, s) && Minted(s) <= MAX_INT64
    requires Decidable(p, o, s, token, id) && id in s.actions && s.actions[id].kind == ForceRefundAction
    requires s.actions[id].trade in s.trades && IsEscrowed(s.trades[s.actions[id].trade].status)
    ensures PlanDecide(p, o, s, token, id, true).Ok?
    ensures RefundsFully(s, PlanDecide(p, o, s, token, id, true).value, s.actions[id].trade)
  {
    hide *;
    var pa := s.actions[id];
    ForceRefundRows(p, s, id);
    EscrowAdditionsFit(p, s, pa.colony, s.trades[pa.trade].buyer, pa.trade);
    ApprovalGoesThrough(p, o, s, token, id);
  }

  lemma ApprovalGoesThrough(p: Platform, o: Oracle, s: State, token: string, id: Id)
    requires Decidable(p, o, s, token, id) && s.actions[id].kind == ForceRefundAction
    requires s.actions[id].trade in s.trades && s.actions[id].colony in s.colonies
    requires IsEscrowed(s.trades[s.actions[id].trade].status)
    requires s.trades[s.actions[id].trade].buyerColony == s.actions[id].colony
    requires s.trades[s.actions[id].trade].buyer in s.colonies[s.actions[id].colony].accounts
    requires AddChecked(s.colonies[s.actions[id].colony].accounts[s.trades[s.actions[id].trade].buyer],
                        s.trades[s.actions[id].trade].price).Ok?
    ensures PlanDecide(p, o, s, token, id, true).Ok?
    ensures RefundsFully(s, PlanDecide(p, o, s, token, id, true).value, s.actions[id].trade)
  {
    hide Actor, ApplyRefund, ApplyMint, ApplyPolicy;
    var pa := s.actions[id];
    RefundApplies(p, o, s, pa.trade, Actor(p, o, s, token).value, pa.proposedBy);
  }

  lemma ForceRefundRows(p: Platform, s: State, id: Id)
    requires Inv(p, s) && id in s.actions && s.actions[id].kind == ForceRefundAction
    ensures var pa := s.actions[id];
            && pa.trade in s.trades && pa.colony in s.colonies
            && s.trades[pa.trade].buyerColony == pa.colony && s.trades[pa.trade].buyer in s.colonies[pa.colony].accounts
  {
    hide Accounting, Conserved, Mirrored, AllChained, Replays, Outcomes, SupplyBounds;
    assert ActionRow(p, s, s.actions[id]);
    assert TradeRow(s, s.trades[s.actions[id].trade]);
  }

  lemma RefundApplies(p: Platform, o: Oracle, s: State, t: Id, actor: Id, proposer: Id)
    requires t in s.trades && IsEscrowed(s.trades[t].status) && s.trades[t].buyerColony in s.colonies
    requires s.trades[t].buyer in s.colonies[s.trades[t].buyerColony].accounts
    requires AddChecked(s.colonies[s.trades[t].buyerColony].accounts[s.trades[t].buyer], s.trades[t].price).Ok?
    ensures var r := ApplyRefund(p, o, s, t, actor, Some(proposer), "");
            var row := s.trades[t];
            && r.Ok?
            && r.value.account.Some? && r.value.account.value.0 == row.buyer
            && r.value.account.value.1 == s.colonies[row.buyerColony].accounts[row.buyer] + row.price
            && r.value.trade.Some? && r.value.trade.value.0 == t && r.value.trade.value.1.status == Refunded
  {
    TableRows();
  }

  // ---- imports ----------------------------------------------------------------------

  function Present(messages: seq<Option<Envelope>>, n: nat): nat
    requires n <= |messages|
  {
    if n == 0 then 0 else Present(messages, n - 1) + if messages[n - 1].Some? then 1 else 0
  }

  /** Every message of an accepted bundle is either imported or skipped. */
  lemma {:induction false} ImportCounts(p: Platform, o: Oracle, s: State, source: Id, target: Id, messages: seq<Option<Envelope>>, n: nat)
    requires source in s.colonies && target in s.colonies && n <= |messages|
    requires ImportUpTo(p, o, s, source, target, messages, n).Ok?
    ensures var r := ImportUpTo(p, o, s, source, target, messages, n).value;
            r.imported + r.skipped == Present(messages, n) && |r.kinds| == |r.trades| == r.imported
  {
    hide PlanEnvelope, MarkProcessed, Post;
    if n > 0 {
      ImportCounts(p, o, s, source, target, messages, n - 1);
    }
  }

  /** All present messages among the first `n` are routed from `source` to `target` and processed there. */
  ghost predicate AllProcessed(s: State, source: Id, target: Id, messages: seq<Option<Envelope>>, n: nat)
    requires n <= |messages|
  {
    && target in s.colonies
    && forall i :: 0 <= i < n && messages[i].Some? ==>
         && messages[i].value.to == target && messages[i].value.from == source
         && messages[i].value.id in s.colonies[target].processed
  }

  lemma {:induction false} ImportProcesses(p: Platform, o: Oracle, s: State, source: Id, target: Id, messages: seq<Option<Envelope>>, n: nat)
    requires source in s.colonies && target in s.colonies && n <= |messages|
    requires ImportUpTo(p, o, s, source, target, messages, n).Ok?
    ensures AllProcessed(ImportUpTo(p, o, s, source, target, messages, n).value.state, source, target, messages, n)
  {
    hide PlanEnvelope, Post;
    if n > 0 {
      ImportProcesses(p, o, s, source, target, messages, n - 1);
      var acc := ImportUpTo(p, o, s, source, target, messages, n - 1).value;
      MessageProcesses(p, o, n - 1, source, target, acc, messages[n - 1]);
    }
  }

  lemma PostKeepsProcessed(p: Platform, now: int, s: State, fx: Effect)
    requires fx.founded.None?
    ensures Post(p, now, s, fx).colonies.Keys == s.colonies.Keys
    ensures forall c :: c in s.colonies ==> Post(p, now, s, fx).colonies[c].processed == s.colonies[c].processed
  {
  }

  lemma MessageProcesses(p: Platform, o: Oracle, i: nat, source: Id, target: Id, acc: Progress, m: Option<Envelope>)
    requires source in acc.state.colonies && target in acc.state.colonies
    requires ImportMessage(p, o, i, source, target, acc, m).Ok?
    ensures var s' := ImportMessage(p, o, i, source, target, acc, m).value.state;
            && target in s'.colonies
            && acc.state.colonies[target].processed <= s'.colonies[target].processed
            && (m.Some? ==> m.value.to == target && m.value.from == source && m.value.id in s'.colonies[target].processed)
  {
    hide PlanEnvelope, Post;
    if m.Some? && m.value.id !in acc.state.colonies[target].processed {
      var step := PlanEnvelope(p, o, i, acc.state, source, target, m.value).value;
      if step.Some? {
        PostKeepsProcessed(p, o.now, acc.state, step.value);
      }
    }
  }

  lemma {:induction false} ReimportSkips(p: Platform, o: Oracle, s: State, source: Id, target: Id, messages: seq<Option<Envelope>>, n: nat)
    requires source in s.colonies && target in s.colonies && n <= |messages|
    requires AllProcessed(s, source, target, messages, |messages|)
    ensures ImportUpTo(p, o, s, source, target, messages, n) == Ok(Progress(s, 0, Present(messages, n), [], []))
  {
    if n > 0 {
      ReimportSkips(p, o, s, source, target, messages, n - 1);
    }
  }

  /**
   * Importing the same bundle again, right after it was imported, skips every message and only adds
   * one ledger entry to the target: no trade, account, claim, outbox or action changes.
   */
  lemma ReimportIsIdle(p: Platform, o: Oracle, o2: Oracle, s: State, token: string, token2: string, colony: Id, id: Id, b: Bundle)
    requires ImportBundle(p, o, s, token, colony, id, b).Ok?
    requires CheckImport(p, o2, ImportBundle(p, o, s, token, colony, id, b).value.0, token2, colony, b).Ok?
    ensures var s1 := ImportBundle(p, o, s, token, colony, id, b).value.0;
            var r := ImportBundle(p, o2, s1, token2, colony, id, b);
            && r.Ok?
            && r.value.1 == ImportResult(id, 0, Present(b.messages, |b.messages|), 0, [], [])
            && var s2 := r.value.0;
               && s2.trades == s1.trades && s2.actions == s1.actions && s2.users == s1.users && s2.bundles == s1.bundles
               && s2.colonies.Keys == s1.colonies.Keys
               && (forall c :: c in s1.colonies ==> SameButLedger(s1.colonies[c], s2.colonies[c]))
               && (forall c :: c in s1.colonies && c != colony ==> s2.colonies[c] == s1.colonies[c])
               && |s2.colonies[colony].ledger| == |s1.colonies[colony].ledger| + 1
  {
    hide ImportUpTo, Post, CheckImport, AllProcessed;
    var n := |b.messages|;
    var s1 := ImportBundle(p, o, s, token, colony, id, b).value.0;
    ImportedIsProcessed(p, o, s, token, colony, id, b);
    ReimportSkips(p, o2, s1, b.from, colony, b.messages, n);
    ClosingOnlyLogs(p, o2.now, s1, colony, CheckImport(p, o2, s1, token2, colony, b).value, id, b, 0, Present(b.messages, n));
  }

  lemma ImportedIsProcessed(p: Platform, o: Oracle, s: State, token: string, colony: Id, id: Id, b: Bundle)
    requires ImportBundle(p, o, s, token, colony, id, b).Ok?
    ensures var s1 := ImportBundle(p, o, s, token, colony, id, b).value.0;
            AllProcessed(s1, b.from, colony, b.messages, |b.messages|) && s1.bundles[id := b] == s1.bundles
  {
    hide ImportUpTo, Post, CheckImport;
    var n := |b.messages|;
    var acc := ImportUpTo(p, o, s, b.from, colony, b.messages, n).value;
    var actorId := CheckImport(p, o, s, token, colony, b).value;
    ImportProcesses(p, o, s, b.from, colony, b.messages, n);
    PostKeepsProcessed(p, o.now, acc.state, ImportClosing(colony, actorId, id, b, acc.imported, acc.skipped));
    ClosingOnlyLogs(p, o.now, acc.state, colony, actorId, id, b, acc.imported, acc.skipped);
  }

  predicate SameButLedger(c: Colony, c': Colony) {
    c' == c.(ledger := c'.ledger, nextSeq := c'.nextSeq, lastHash := c'.lastHash)
  }

  lemma ClosingOnlyLogs(p: Platform, now: int, s: State, colony: Id, actorId: Id, id: Id, b: Bundle, imported: nat, skipped: nat)
    requires colony in s.colonies
    ensures var s' := Post(p, now, s, ImportClosing(colony, actorId, id, b, imported, skipped));
            && s'.trades == s.trades && s'.actions == s.actions && s'.users == s.users && s'.bundles == s.bundles[id := b]
            && s'.colonies.Keys == s.colonies.Keys
            && (forall c :: c in s.colonies ==> SameButLedger(s.colonies[c], s'.colonies[c]))
            && (forall c :: c in s.colonies && c != colony ==> s'.colonies[c] == s.colonies[c])
            && |s'.colonies[colony].ledger| == |s.colonies[colony].ledger| + 1
  {
  }
}
