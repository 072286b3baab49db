/** What an import has done when it succeeds: no message in it is still waiting, and its answer counts and lists what changed. */
module Answers {
  import opened Basics
  import opened TradeTable
  import opened Model
  import opened Handlers
  import opened Invariant
  import opened Runs
  import opened Rights
  import opened ScopedImports
  import opened Provenance

  // ---- no message is left waiting ----------------------------------------------------------------

  /** The status in which a trade waits for a message of this kind. */
  function Awaits(kind: string): Status {
    if kind == "offer" then OfferPendingExport
    else if kind == "settlement" then SettlementPendingExport
    else if kind == "refund" then RefundPendingExport
    else AcceptancePendingExport
  }

  /** The trade is past the step this message asks for, and can never come back to it. */
  ghost predicate IsPast(s: State, e: Envelope) {
    e.body.Body? && e.body.trade in s.trades && StepOf(s.trades[e.body.trade].status, Awaits(e.kind)) == StepDuplicate
  }

  lemma OfferPasses(p: Platform, s: State, source: Id, target: Id, e: Envelope)
    requires e.kind == "offer"
    ensures var r := PlanImportOffer(p, s, source, target, e);
            r.Ok? ==>
              && e.body.Body?
              && if r.value.Some? then r.value.value.trade.Some? && r.value.value.trade.value.0 == e.body.trade
                                       && StepOf(r.value.value.trade.value.1.status, OfferPendingExport) == StepDuplicate
                 else IsPast(s, e)
  {
    hide StepOf, TransitionAllowed, TrimSpace;
    StepFacts(OfferReceived);
  }

  lemma AcceptancePasses(p: Platform, o: Oracle, i: nat, s: State, source: Id, target: Id, e: Envelope)
    requires source in s.colonies && target in s.colonies && e.kind == "acceptance"
    ensures var r := PlanImportAcceptance(p, o, i, s, source, target, e);
            r.Ok? ==>
              && e.body.Body?
              && if r.value.Some? then r.value.value.trade.Some? && r.value.value.trade.value.0 == e.body.trade
                                       && StepOf(r.value.value.trade.value.1.status, AcceptancePendingExport) == StepDuplicate
                 else IsPast(s, e)
  {
    hide StepOf, TransitionAllowed, AddChecked, Sealed, Stamp, AcceptedAfterExpiry;
    StepFacts(RefundPendingExport);
    StepFacts(SettlementPendingExport);
    if e.body.Body? && e.body.trade in s.trades {
      StepFacts(s.trades[e.body.trade].status);
    }
  }

  lemma CancelPasses(p: Platform, o: Oracle, i: nat, s: State, source: Id, target: Id, e: Envelope)
    requires target in s.colonies && e.kind == "cancel_request"
    ensures var r := PlanImportCancel(p, o, i, s, source, target, e);
            r.Ok? ==>
              && e.body.Body?
              && if r.value.Some? then r.value.value.trade.Some? && r.value.value.trade.value.0 == e.body.trade
                                       && StepOf(r.value.value.trade.value.1.status, AcceptancePendingExport) == StepDuplicate
                 else IsPast(s, e)
  {
    hide StepOf, TransitionAllowed, Sealed, Stamp;
    StepFacts(RefundPendingExport);
  }

  lemma ReportPasses(p: Platform, o: Oracle, s: State, source: Id, target: Id, e: Envelope)
    ensures var r := PlanImportSettlement(p, o, s, source, target, e);
            r.Ok? && e.kind == "settlement" ==>
              && e.body.Body?
              && if r.value.Some? then r.value.value.trade.Some? && r.value.value.trade.value.0 == e.body.trade
                                       && StepOf(r.value.value.trade.value.1.status, SettlementPendingExport) == StepDuplicate
                 else IsPast(s, e)
    ensures var r := PlanImportRefund(p, o, s, source, target, e);
            r.Ok? && e.kind == "refund" ==>
              && e.body.Body?
              && if r.value.Some? then r.value.value.trade.Some? && r.value.value.trade.value.0 == e.body.trade
                                       && StepOf(r.value.value.trade.value.1.status, RefundPendingExport) == StepDuplicate
                 else IsPast(s, e)
  {
    hide StepOf, TransitionAllowed, AddChecked, Stamp;
    StepFacts(Completed);
    StepFacts(Refunded);
  }

  /** A message is applied exactly when its trade waits for it; when it succeeds its step is past. */
  lemma EnvelopePasses(p: Platform, o: Oracle, i: nat, s: State, source: Id, target: Id, e: Envelope)
    requires source in s.colonies && target in s.colonies && PlanEnvelope(p, o, i, s, source, target, e).Ok?
    ensures var fx := PlanEnvelope(p, o, i, s, source, target, e).value;
            && e.body.Body?
            && if fx.Some? then fx.value.trade.Some? && fx.value.trade.value.0 == e.body.trade
                                && StepOf(fx.value.trade.value.1.status, Awaits(e.kind)) == StepDuplicate
               else IsPast(s, e)
  {
    hide PlanImportOffer, PlanImportAcceptance, PlanImportCancel, PlanImportSettlement, PlanImportRefund, IsPast, StepOf;
    if e.kind == "offer" {
      OfferPasses(p, s, source, target, e);
    } else if e.kind == "acceptance" {
      AcceptancePasses(p, o, i, s, source, target, e);
    } else if e.kind == "cancel_request" {
      CancelPasses(p, o, i, s, source, target, e);
    } else {
      ReportPasses(p, o, s, source, target, e);
    }
  }

  lemma MessagePasses(p: Platform, o: Oracle, i: nat, source: Id, target: Id, acc: Progress, e: Envelope)
    requires source in acc.state.colonies && target in acc.state.colonies && ImportMessage(p, o, i, source, target, acc, Some(e)).Ok?
    requires e.id !in acc.state.colonies[target].processed
    ensures IsPast(ImportMessage(p, o, i, source, target, acc, Some(e)).value.state, e)
  {
    hide PlanEnvelope, PostColonies, StepOf, Awaits;
    EnvelopePasses(p, o, i, acc.state, source, target, e);
  }

  lemma PastStaysPast(s: State, s': State, e: Envelope)
    requires IsPast(s, e) && Evolves(s, s')
    ensures IsPast(s', e)
  {
    hide StepOf, Awaits, ColonyEvolves, ActionEvolves;
    var t := e.body.trade;
    assert TradeEvolves(s.trades[t], s'.trades[t]);
    DuplicateStaysDuplicate(s.trades[t].status, s'.trades[t].status, Awaits(e.kind));
  }

  lemma {:induction false} LoopPasses(p: Platform, o: Oracle, s: State, source: Id, target: Id, messages: seq<Option<Envelope>>, n: nat, k: nat)
    requires Inv(p, s) && source in s.colonies && target in s.colonies && k < n <= |messages|
    requires ImportUpTo(p, o, s, source, target, messages, n).Ok?
    requires messages[k].Some? && !Skipped(s.colonies[target].processed, messages, k)
    ensures IsPast(ImportUpTo(p, o, s, source, target, messages, n).value.state, messages[k].value)
  {
    hide Inv, ImportMessage, IsPast, Evolves, IdsUpTo;
    var acc := ImportUpTo(p, o, s, source, target, messages, n - 1).value;
    ImportGood(p, o, s, source, target, messages, n - 1);
    if k == n - 1 {
      LoopMarks(p, o, s, source, target, messages, n - 1);
      MessagePasses(p, o, n - 1, source, target, acc, messages[k].value);
    } else {
      LoopPasses(p, o, s, source, target, messages, n - 1, k);
      MessageGood(p, o, n - 1, source, target, acc, messages[n - 1]);
      PastStaysPast(acc.state, ImportUpTo(p, o, s, source, target, messages, n).value.state, messages[k].value);
    }
  }

  /** After an import no message of it that was looked at is still waiting: what it asks for is done, for good. */
  lemma ImportedStepsArePast(p: Platform, o: Oracle, s: State, token: string, colony: Id, id: Id, b: Bundle, k: nat)
    requires Inv(p, s) && ImportBundle(p, o, s, token, colony, id, b).Ok? && k < |b.messages| && b.messages[k].Some?
    ensures colony in s.colonies
    ensures !Skipped(s.colonies[colony].processed, b.messages, k) ==>
              IsPast(ImportBundle(p, o, s, token, colony, id, b).value.0, b.messages[k].value)
  {
    hide Inv, CheckImport, ImportUpTo, PostColonies, StepOf, Awaits, Skipped;
    if !Skipped(s.colonies[colony].processed, b.messages, k) {
      LoopPasses(p, o, s, b.from, colony, b.messages, |b.messages|, k);
    }
  }

  // ---- the answer ----------------------------------------------------------------------------------

  /** The `imported` messages stand at `at`, in order; their kinds and trades are listed. */
  predicate ListedAt(messages: seq<Option<Envelope>>, n: nat, at: seq<nat>, kinds: seq<string>, trades: seq<Id>)
    requires n <= |messages|
  {
    && |kinds| == |trades| == |at| && (forall i, j :: 0 <= i < j < |at| ==> at[i] < at[j])
    && (forall j :: 0 <= j < |at| ==>
          && at[j] < n && messages[at[j]].Some? && messages[at[j]].value.body.Body?
          && kinds[j] == messages[at[j]].value.kind && trades[j] == messages[at[j]].value.body.trade)
  }

  /** Each message imported is one entry more in the target's ledger; no other ledger grows. */
  predicate LedgersGrow(s: State, s': State, target: Id, imported: nat) {
    && s'.colonies.Keys == s.colonies.Keys
    && (forall c :: c in s.colonies ==>
          |s'.colonies[c].ledger| == |s.colonies[c].ledger| + if c == target then imported else 0)
  }

  lemma EnvelopeLogsHere(p: Platform, o: Oracle, i: nat, s: State, source: Id, target: Id, e: Envelope)
    requires source in s.colonies && target in s.colonies
    ensures var r := PlanEnvelope(p, o, i, s, source, target, e); r.Ok? && r.value.Some? ==> r.value.value.colony == target && e.body.Body?
  {
    hide StepOf, TransitionAllowed, AddChecked, AcceptedAfterExpiry, TrimSpace, Sealed, Stamp;
  }

  lemma PostGrows(p: Platform, now: int, s: State, fx: Effect)
    requires fx.founded.None? && fx.colony in s.colonies
    ensures LedgersGrow(s, Post(p, now, s, fx), fx.colony, 1)
  {
    hide HashLedgerEntry;
  }

  lemma MarkGrowsNothing(s: State, colony: Id, id: Id, target: Id)
    ensures LedgersGrow(s, MarkProcessed(s, colony, id), target, 0)
  {
  }

  lemma GrowsOn(a: State, b: State, c: State, target: Id, i: nat, j: nat)
    requires LedgersGrow(a, b, target, i) && LedgersGrow(b, c, target, j)
    ensures LedgersGrow(a, c, target, i + j)
  {
  }

  /** One turn: nothing, a skip, or one more message imported and listed. */
  lemma MessageCounts(p: Platform, o: Oracle, i: nat, source: Id, target: Id, acc: Progress, m: Option<Envelope>)
    requires source in acc.state.colonies && target in acc.state.colonies && ImportMessage(p, o, i, source, target, acc, m).Ok?
    ensures var r := ImportMessage(p, o, i, source, target, acc, m).value;
            && acc.imported <= r.imported && LedgersGrow(acc.state, r.state, target, r.imported - acc.imported)
            && if r.imported == acc.imported then r.kinds == acc.kinds && r.trades == acc.trades
               else r.imported == acc.imported + 1 && m.Some? && m.value.body.Body?
                    && r.kinds == acc.kinds + [m.value.kind] && r.trades == acc.trades + [m.value.body.trade]
  {
    hide PlanEnvelope, Post, MarkProcessed;
    var s := acc.state;
    if m.Some? && m.value.id !in s.colonies[target].processed {
      MarkGrowsNothing(s, target, m.value.id, target);
      EnvelopeLogsHere(p, o, i, s, source, target, m.value);
      var step := PlanEnvelope(p, o, i, s, source, target, m.value).value;
      if step.Some? {
        var s1 := Post(p, o.now, s, step.value);
        PostGrows(p, o.now, s, step.value);
        MarkGrowsNothing(s1, target, m.value.id, target);
        GrowsOn(s, s1, MarkProcessed(s1, target, m.value.id), target, 1, 0);
      }
    }
  }

  lemma {:induction false} LoopCounts(p: Platform, o: Oracle, s: State, source: Id, target: Id, messages: seq<Option<Envelope>>, n: nat)
    returns (at: seq<nat>)
    requires source in s.colonies && target in s.colonies && n <= |messages| && ImportUpTo(p, o, s, source, target, messages, n).Ok?
    ensures var acc := ImportUpTo(p, o, s, source, target, messages, n).value;
            |at| == acc.imported && ListedAt(messages, n, at, acc.kinds, acc.trades) && LedgersGrow(s, acc.state, target, acc.imported)
  {
    hide ImportMessage, LedgersGrow;
    if n == 0 {
      at := [];
      NothingGrows(s, target);
    } else {
      at := LoopCounts(p, o, s, source, target, messages, n - 1);
      var acc, r := ImportUpTo(p, o, s, source, target, messages, n - 1).value, ImportUpTo(p, o, s, source, target, messages, n).value;
      MessageCounts(p, o, n - 1, source, target, acc, messages[n - 1]);
      GrowsOn(s, acc.state, r.state, target, acc.imported, r.imported - acc.imported);
      if r.imported > acc.imported {
        at := at + [n - 1];
      }
    }
  }

  lemma NothingGrows(s: State, target: Id)
    ensures LedgersGrow(s, s, target, 0)
  {
  }

  /** The answer counts and lists the messages that changed something, and the letters now queued in reply. */
  ghost predicate ListsTruly(s: State, s': State, colony: Id, messages: seq<Option<Envelope>>, r: ImportResult)
    requires colony in s.colonies && colony in s'.colonies
  {
    && (exists at: seq<nat> :: |at| == r.imported && ListedAt(messages, |messages|, at, r.kinds, r.trades))
    && LedgersGrow(s, s', colony, r.imported + 1)
    && r.generated == |s'.colonies[colony].outbox| - |s.colonies[colony].outbox|
  }

  /** The bundle is stored, no action and no user changed, and the last entry is the caller's account of the import. */
  predicate ClosesTruly(s: State, s': State, caller: Id, colony: Id, id: Id, b: Bundle, imported: nat, skipped: nat)
    requires colony in s'.colonies
  {
    && s'.bundles == s.bundles[id := b] && s'.actions == s.actions && s'.users == s.users
    && s'.colonies[colony].ledger != []
    && var last := s'.colonies[colony].ledger[|s'.colonies[colony].ledger| - 1];
       last.actor == caller && last.payload == BundleImported(id, b.from, imported, skipped)
  }

  lemma ClosingPosts(p: Platform, o: Oracle, s: State, colony: Id, actor: Id, id: Id, b: Bundle, imported: nat, skipped: nat)
    requires colony in s.colonies
    ensures var s' := Post(p, o.now, s, ImportClosing(colony, actor, id, b, imported, skipped));
            && colony in s'.colonies && LedgersGrow(s, s', colony, 1) && ClosesTruly(s, s', actor, colony, id, b, imported, skipped)
            && s'.colonies[colony].outbox == s.colonies[colony].outbox
  {
    hide HashLedgerEntry;
    assert s.colonies[colony].outbox + [] == s.colonies[colony].outbox;
  }

  lemma LoopAnswers(p: Platform, o: Oracle, s: State, source: Id, target: Id, messages: seq<Option<Envelope>>, s': State, r: ImportResult)
    requires source in s.colonies && target in s.colonies && ImportUpTo(p, o, s, source, target, messages, |messages|).Ok?
    requires var acc := ImportUpTo(p, o, s, source, target, messages, |messages|).value;
             && target in s'.colonies && LedgersGrow(acc.state, s', target, 1)
             && s'.colonies[target].outbox == acc.state.colonies[target].outbox
             && r == ImportResult(r.bundle, acc.imported, acc.skipped, |acc.state.colonies[target].outbox| - |s.colonies[target].outbox|,
                                  acc.kinds, acc.trades)
    ensures ListsTruly(s, s', target, messages, r)
  {
    hide ImportUpTo, LedgersGrow, ListedAt;
    var acc := ImportUpTo(p, o, s, source, target, messages, |messages|).value;
    var at := LoopCounts(p, o, s, source, target, messages, |messages|);
    GrowsOn(s, acc.state, s', target, acc.imported, 1);
  }

  /** An import answers truly, stores its bundle, and closes with one entry by its caller. */
  lemma ImportsAnswerTruly(p: Platform, o: Oracle, s: State, token: string, colony: Id, id: Id, b: Bundle)
    requires ImportBundle(p, o, s, token, colony, id, b).Ok?
    ensures colony in s.colonies
    ensures var r := ImportBundle(p, o, s, token, colony, id, b).value;
            && colony in r.0.colonies && r.1.bundle == id && ListsTruly(s, r.0, colony, b.messages, r.1)
            && ClosesTruly(s, r.0, Caller(s, token), colony, id, b, r.1.imported, r.1.skipped)
  {
    hide CheckImport, ImportUpTo, Post, ImportClosing, Caller, Admitted, LedgersGrow, ListsTruly;
    ChecksAreAdmissions(p, o, s, token, colony, b);
    var acc := ImportUpTo(p, o, s, b.from, colony, b.messages, |b.messages|).value;
    LoopKeepsRows(p, o, s, b.from, colony, b.messages, |b.messages|);
    LoopKeepsSettings(p, o, s, b.from, colony, b.messages, |b.messages|);
    ClosingPosts(p, o, acc.state, colony, Caller(s, token), id, b, acc.imported, acc.skipped);
    LoopAnswers(p, o, s, b.from, colony, b.messages, ImportBundle(p, o, s, token, colony, id, b).value.0,
                ImportBundle(p, o, s, token, colony, id, b).value.1);
  }
}
