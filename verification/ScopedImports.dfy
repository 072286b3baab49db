/** Importing a bundle on the rows its scope discovers. */
module ScopedImports {
  import opened Basics
  import opened TradeTable
  import opened Model
  import opened Handlers
  import opened Invariant
  import opened Scopes
  import opened Service
  import opened Simulation
  import opened Theorems

  // ---- importing a bundle -------------------------------------------------------------------

  /** The scope names every row the payload names. */
  predicate Covered(f: Found, env: Envelope) {
    && env.id in f.envelopes
    && (env.body.Body? ==> env.body.trade in f.trades && Knows(f.users, env.body.seller) && Knows(f.users, env.body.buyer))
  }

  /** What one envelope's handler looks at. */
  ghost predicate SeesDeal(f: Found, part: State, full: State, source: Id, target: Id, b: Body)
    requires b.Body?
  {
    && source in part.colonies && source in full.colonies && SeesColony(f, part.colonies[source], full.colonies[source])
    && target in part.colonies && target in full.colonies && SeesColony(f, part.colonies[target], full.colonies[target])
    && Same(part.users, full.users, b.seller) && Same(part.users, full.users, b.buyer)
    && Same(part.trades, full.trades, b.trade)
    && (b.trade in full.trades ==>
          var t := full.trades[b.trade];
          && Same(part.users, full.users, t.seller)
          && Same(part.colonies[target].accounts, full.colonies[target].accounts, t.seller)
          && Same(part.colonies[target].accounts, full.colonies[target].accounts, t.buyer))
  }

  lemma DealSeen(f: Found, part: State, full: State, source: Id, target: Id, env: Envelope)
    requires Sees(f, part, full) && Closed(f, full) && Covered(f, env) && env.body.Body?
    requires source in part.colonies && target in part.colonies && Knows(f.colonies, source) && Knows(f.colonies, target)
    ensures SeesDeal(f, part, full, source, target, env.body)
  {
    assert SeesColony(f, part.colonies[source], full.colonies[source]);
    assert SeesColony(f, part.colonies[target], full.colonies[target]);
    if env.body.trade in full.trades {
      assert ClosedTrade(f, full.trades[env.body.trade]);
    }
  }

  lemma OfferSees(p: Platform, f: Found, part: State, full: State, source: Id, target: Id, env: Envelope)
    requires env.body.Body? ==> SeesDeal(f, part, full, source, target, env.body)
    ensures PlanImportOffer(p, part, source, target, env) == PlanImportOffer(p, full, source, target, env)
  {
    hide Step, TrimSpace, SeesColony;
  }

  lemma RefundSees(p: Platform, o: Oracle, i: nat, f: Found, part: State, full: State, source: Id, target: Id, env: Envelope, reason: string)
    requires env.body.Body? && SeesDeal(f, part, full, source, target, env.body)
    requires env.body.trade in part.trades
    ensures Handlers.DecideRefund(p, o, i, part, source, target, env.body.trade, env, reason)
            == Handlers.DecideRefund(p, o, i, full, source, target, env.body.trade, env, reason)
  {
    hide Advance;
    assert part.colonies[target].priv == full.colonies[target].priv;
  }

  lemma CreditSees(p: Platform, o: Oracle, i: nat, f: Found, part: State, full: State, source: Id, target: Id, env: Envelope)
    requires env.body.Body? && SeesDeal(f, part, full, source, target, env.body) && env.body.trade in part.trades
    requires part.trades[env.body.trade].seller in part.colonies[target].accounts
    ensures full.trades[env.body.trade].seller in full.colonies[target].accounts
    ensures Credit(p, o, i, part, source, target, env) == Credit(p, o, i, full, source, target, env)
  {
    hide Advance, AddChecked, Get;
    assert part.colonies[target].priv == full.colonies[target].priv;
    assert part.colonies[target].netClaims == full.colonies[target].netClaims;
    assert part.colonies[source].netObligations == full.colonies[source].netObligations;
  }

  lemma AcceptanceSees(p: Platform, o: Oracle, i: nat, f: Found, part: State, full: State, source: Id, target: Id, env: Envelope)
    requires source in part.colonies && target in part.colonies && source in full.colonies && target in full.colonies
    requires env.body.Body? ==> SeesDeal(f, part, full, source, target, env.body)
    ensures PlanImportAcceptance(p, o, i, part, source, target, env) == PlanImportAcceptance(p, o, i, full, source, target, env)
  {
    hide Handlers.DecideRefund, Credit, SeesColony, AcceptedAfterExpiry, StepOf;
    if env.body.Body? && env.body.trade in part.trades {
      RefundSees(p, o, i, f, part, full, source, target, env, LATE_REASON);
      RefundSees(p, o, i, f, part, full, source, target, env, EXPIRED_REASON);
      RefundSees(p, o, i, f, part, full, source, target, env, CANCELLED_REASON);
      if part.trades[env.body.trade].seller in part.colonies[target].accounts {
        CreditSees(p, o, i, f, part, full, source, target, env);
      }
    }
  }

  lemma SettlementSees(p: Platform, o: Oracle, f: Found, part: State, full: State, source: Id, target: Id, env: Envelope)
    requires env.body.Body? ==> SeesDeal(f, part, full, source, target, env.body)
    ensures PlanImportSettlement(p, o, part, source, target, env) == PlanImportSettlement(p, o, full, source, target, env)
  {
    hide Step, SeesColony;
  }

  lemma CancelSees(p: Platform, o: Oracle, i: nat, f: Found, part: State, full: State, source: Id, target: Id, env: Envelope)
    requires source in part.colonies && target in part.colonies && source in full.colonies && target in full.colonies
    requires env.body.Body? ==> SeesDeal(f, part, full, source, target, env.body)
    ensures PlanImportCancel(p, o, i, part, source, target, env) == PlanImportCancel(p, o, i, full, source, target, env)
  {
    hide Handlers.DecideRefund, SeesColony, StepOf;
    if env.body.Body? && env.body.trade in part.trades {
      RefundSees(p, o, i, f, part, full, source, target, env, CANCEL_REASON);
    }
  }

  lemma PaybackSees(p: Platform, o: Oracle, f: Found, part: State, full: State, source: Id, target: Id, env: Envelope)
    requires env.body.Body? ==> SeesDeal(f, part, full, source, target, env.body)
    ensures PlanImportRefund(p, o, part, source, target, env) == PlanImportRefund(p, o, full, source, target, env)
  {
    hide StepOf, SeesColony, Advance;
  }

  /** An envelope decides the same effect, or fails the same way, on the part as on the whole. */
  lemma EnvelopeSees(p: Platform, o: Oracle, i: nat, f: Found, part: State, full: State, source: Id, target: Id, env: Envelope)
    requires Sees(f, part, full) && Closed(f, full) && Covered(f, env)
    requires source in part.colonies && target in part.colonies && Knows(f.colonies, source) && Knows(f.colonies, target)
    ensures source in full.colonies && target in full.colonies
    ensures PlanEnvelope(p, o, i, part, source, target, env) == PlanEnvelope(p, o, i, full, source, target, env)
  {
    hide PlanImportOffer, PlanImportAcceptance, PlanImportSettlement, PlanImportCancel, PlanImportRefund, SeesDeal, Covered, SeesColony, Closed;
    if env.body.Body? {
      DealSeen(f, part, full, source, target, env);
    }
    OfferSees(p, f, part, full, source, target, env);
    AcceptanceSees(p, o, i, f, part, full, source, target, env);
    SettlementSees(p, o, f, part, full, source, target, env);
    CancelSees(p, o, i, f, part, full, source, target, env);
    PaybackSees(p, o, f, part, full, source, target, env);
  }

  /** An import step writes the target's entry, a claim on the source and one found trade. */
  ghost predicate Inside(f: Found, source: Id, target: Id, fx: Effect) {
    && fx.founded.None? && fx.action.None? && fx.colony == target && (fx.claim.Some? ==> fx.claim.value.peer == source)
    && (fx.trade.Some? ==> ClosedTrade(f, fx.trade.value.1))
  }

  lemma RefundInside(p: Platform, o: Oracle, i: nat, f: Found, s: State, source: Id, target: Id, t: Id, trigger: Envelope, reason: string)
    requires target in s.colonies && t in s.trades && ClosedTrade(f, s.trades[t])
    ensures var r := Handlers.DecideRefund(p, o, i, s, source, target, t, trigger, reason);
            r.Ok? ==> Inside(f, source, target, r.value)
  {
    hide TransitionAllowed;
  }

  lemma CreditInside(p: Platform, o: Oracle, i: nat, f: Found, s: State, source: Id, target: Id, env: Envelope)
    requires source in s.colonies && target in s.colonies && env.body.Body? && env.body.trade in s.trades
    requires s.trades[env.body.trade].seller in s.colonies[target].accounts && ClosedTrade(f, s.trades[env.body.trade])
    ensures var r := Credit(p, o, i, s, source, target, env);
            r.Ok? ==> Inside(f, source, target, r.value)
  {
    hide TransitionAllowed, AddChecked;
  }

  lemma DecisionInside(p: Platform, o: Oracle, i: nat, f: Found, s: State, source: Id, target: Id, env: Envelope)
    requires source in s.colonies && target in s.colonies
    requires env.body.Body? && env.body.trade in s.trades ==> ClosedTrade(f, s.trades[env.body.trade])
    ensures var r := PlanImportAcceptance(p, o, i, s, source, target, env);
            r.Ok? && r.value.Some? ==> Inside(f, source, target, r.value.value)
    ensures var r := PlanImportCancel(p, o, i, s, source, target, env);
            r.Ok? && r.value.Some? ==> Inside(f, source, target, r.value.value)
  {
    hide StepOf, Inside, Credit, Handlers.DecideRefund, AcceptedAfterExpiry, ClosedTrade;
    if env.body.Body? && env.body.trade in s.trades {
      RefundInside(p, o, i, f, s, source, target, env.body.trade, env, LATE_REASON);
      RefundInside(p, o, i, f, s, source, target, env.body.trade, env, EXPIRED_REASON);
      RefundInside(p, o, i, f, s, source, target, env.body.trade, env, CANCELLED_REASON);
      RefundInside(p, o, i, f, s, source, target, env.body.trade, env, CANCEL_REASON);
      if s.trades[env.body.trade].seller in s.colonies[target].accounts {
        CreditInside(p, o, i, f, s, source, target, env);
      }
    }
  }

  lemma OfferInside(p: Platform, f: Found, s: State, source: Id, target: Id, env: Envelope)
    requires Knows(f.colonies, source) && Knows(f.colonies, target) && Covered(f, env)
    ensures var r := PlanImportOffer(p, s, source, target, env);
            r.Ok? && r.value.Some? ==> Inside(f, source, target, r.value.value)
  {
    hide StepOf, TransitionAllowed, TrimSpace;
  }

  lemma SettlementInside(p: Platform, o: Oracle, f: Found, s: State, source: Id, target: Id, env: Envelope)
    requires env.body.Body? && env.body.trade in s.trades ==> ClosedTrade(f, s.trades[env.body.trade])
    ensures var r := PlanImportSettlement(p, o, s, source, target, env);
            r.Ok? && r.value.Some? ==> Inside(f, source, target, r.value.value)
  {
    hide StepOf, TransitionAllowed;
  }

  lemma PaybackInside(p: Platform, o: Oracle, f: Found, s: State, source: Id, target: Id, env: Envelope)
    requires env.body.Body? && env.body.trade in s.trades ==> ClosedTrade(f, s.trades[env.body.trade])
    ensures var r := PlanImportRefund(p, o, s, source, target, env);
            r.Ok? && r.value.Some? ==> Inside(f, source, target, r.value.value)
  {
    hide StepOf, TransitionAllowed, AddChecked;
  }

  lemma EnvelopeInside(p: Platform, o: Oracle, i: nat, f: Found, s: State, source: Id, target: Id, env: Envelope)
    requires source in s.colonies && target in s.colonies && Knows(f.colonies, source) && Knows(f.colonies, target)
    requires Closed(f, s) && Covered(f, env)
    ensures var r := PlanEnvelope(p, o, i, s, source, target, env);
            r.Ok? && r.value.Some? ==> Inside(f, source, target, r.value.value)
  {
    hide PlanImportOffer, PlanImportAcceptance, PlanImportSettlement, PlanImportCancel, PlanImportRefund, Inside, ClosedTrade;
    OfferInside(p, f, s, source, target, env);
    SettlementInside(p, o, f, s, source, target, env);
    PaybackInside(p, o, f, s, source, target, env);
    DecisionInside(p, o, i, f, s, source, target, env);
  }

  lemma PostCloses(p: Platform, now: int, f: Found, s: State, source: Id, target: Id, fx: Effect)
    requires Closed(f, s) && Inside(f, source, target, fx)
    ensures Closed(f, Post(p, now, s, fx))
  {
    hide PostColonies;
  }

  /** The whole import loop relates the part to the whole: same progress, and writing back gives the whole state. */
  ghost predicate InStep(base: State, f: Found, source: Id, target: Id, part: Progress, full: Progress) {
    && part == full.(state := part.state)
    && Sees(f, part.state, full.state) && Closed(f, full.state)
    && Merge(base, part.state) == KeepBundles(base, full.state)
    && source in part.state.colonies && target in part.state.colonies && source in full.state.colonies && target in full.state.colonies
  }

  lemma PostInStep(p: Platform, now: int, base: State, f: Found, source: Id, target: Id, part: Progress, full: Progress, fx: Effect)
    requires InStep(base, f, source, target, part, full) && Inside(f, source, target, fx)
    requires Knows(f.colonies, source) && Knows(f.colonies, target)
    ensures InStep(base, f, source, target, part.(state := Post(p, now, part.state, fx)), full.(state := Post(p, now, full.state, fx)))
  {
    hide Merge, KeepBundles, Closed, SeesColony, PostColonies;
    assert SeesColony(f, part.state.colonies[target], full.state.colonies[target]);
    assert Prev(part.state.colonies[target]) == Prev(full.state.colonies[target]) by { SameHead(f, part.state.colonies[target], full.state.colonies[target]); }
    PostSees(p, now, f, part.state, full.state, fx);
    PostCloses(p, now, f, full.state, source, target, fx);
    PostMerges(p, now, base, part.state, full.state, fx);
    assert Put(part.state.colonies, fx.founded) == part.state.colonies && Put(full.state.colonies, fx.founded) == full.state.colonies;
  }

  lemma SameHead(f: Found, c: Colony, full: Colony)
    requires SeesColony(f, c, full)
    ensures Prev(c) == Prev(full) && c.pub == full.pub && c.trusted == full.trusted && c.outbox == full.outbox
    ensures forall e :: e in f.envelopes ==> (e in c.processed <==> e in full.processed)
  {
  }

  lemma MarkInStep(base: State, f: Found, source: Id, target: Id, part: Progress, full: Progress, e: Id)
    requires InStep(base, f, source, target, part, full) && Knows(f.colonies, target)
    ensures InStep(base, f, source, target, part.(state := MarkProcessed(part.state, target, e)), full.(state := MarkProcessed(full.state, target, e)))
  {
    hide Merge, KeepBundles, Sees;
    MarkSees(f, part.state, full.state, target, e);
    MarkMerges(base, part.state, full.state, target, e);
  }

  /** Two results that agree up to the state they carry. */
  ghost predicate BothInStep(base: State, f: Found, source: Id, target: Id, part: Result<Progress>, full: Result<Progress>) {
    if part.Ok? then full.Ok? && InStep(base, f, source, target, part.value, full.value)
    else full == part
  }

  predicate AlreadyProcessed(s: State, target: Id, id: Id) {
    target in s.colonies && id in s.colonies[target].processed
  }

  lemma MessageInStep(p: Platform, o: Oracle, i: nat, base: State, f: Found, source: Id, target: Id, part: Progress, full: Progress, m: Option<Envelope>)
    requires InStep(base, f, source, target, part, full) && Knows(f.colonies, source) && Knows(f.colonies, target)
    requires m.Some? ==> m.value.id in f.envelopes && (Covered(f, m.value) || AlreadyProcessed(full.state, target, m.value.id))
    ensures BothInStep(base, f, source, target, ImportMessage(p, o, i, source, target, part, m), ImportMessage(p, o, i, source, target, full, m))
  {
    hide InStep, Post, MarkProcessed, PlanEnvelope, Inside;
    if m.Some? {
      StepView(base, f, source, target, part, full, m.value.id);
      var skip, skip' := part.(skipped := part.skipped + 1), full.(skipped := full.skipped + 1);
      CountsInStep(base, f, source, target, part, full, skip, skip');
    }
    if m.Some? && !AlreadyProcessed(full.state, target, m.value.id) {
      var env := m.value;
      MessageView(p, o, i, base, f, source, target, part, full, env);
      var skip, skip' := part.(skipped := part.skipped + 1), full.(skipped := full.skipped + 1);
      MarkInStep(base, f, source, target, skip, skip', env.id);
      var step := PlanEnvelope(p, o, i, part.state, source, target, env);
      if step.Ok? && step.value.Some? {
        PostInStep(p, o.now, base, f, source, target, part, full, step.value.value);
        var done, done' := part.(state := Post(p, o.now, part.state, step.value.value)), full.(state := Post(p, o.now, full.state, step.value.value));
        MarkInStep(base, f, source, target, done, done', env.id);
        var next := done.(state := MarkProcessed(done.state, target, env.id), imported := part.imported + 1,
                          kinds := part.kinds + [env.kind], trades := part.trades + [env.body.trade]);
        var next' := next.(state := MarkProcessed(done'.state, target, env.id));
        CountsInStep(base, f, source, target, done.(state := next.state), done'.(state := next'.state), next, next');
      }
    }
  }

  lemma StepView(base: State, f: Found, source: Id, target: Id, part: Progress, full: Progress, e: Id)
    requires InStep(base, f, source, target, part, full) && e in f.envelopes && Knows(f.colonies, source) && Knows(f.colonies, target)
    ensures source in part.state.colonies && target in part.state.colonies && source in full.state.colonies && target in full.state.colonies
    ensures part == full.(state := part.state)
    ensures part.state.colonies[source].pub == full.state.colonies[source].pub
    ensures e in part.state.colonies[target].processed <==> e in full.state.colonies[target].processed
  {
    hide Merge, KeepBundles, Closed;
    assert SeesColony(f, part.state.colonies[source], full.state.colonies[source]);
    assert SeesColony(f, part.state.colonies[target], full.state.colonies[target]);
  }

  lemma MessageView(p: Platform, o: Oracle, i: nat, base: State, f: Found, source: Id, target: Id, part: Progress, full: Progress, env: Envelope)
    requires InStep(base, f, source, target, part, full) && Covered(f, env)
    requires Knows(f.colonies, source) && Knows(f.colonies, target)
    ensures source in part.state.colonies && target in part.state.colonies && source in full.state.colonies && target in full.state.colonies
    ensures PlanEnvelope(p, o, i, part.state, source, target, env) == PlanEnvelope(p, o, i, full.state, source, target, env)
    ensures var r := PlanEnvelope(p, o, i, part.state, source, target, env);
            r.Ok? && r.value.Some? ==> Inside(f, source, target, r.value.value) && env.body.Body?
  {
    hide Merge, KeepBundles, Closed, PlanEnvelope, Sees, Covered, Inside;
    EnvelopeSees(p, o, i, f, part.state, full.state, source, target, env);
    EnvelopeInside(p, o, i, f, full.state, source, target, env);
    AppliedHasBody(p, o, i, part.state, source, target, env);
  }

  /** The counters do not matter to the simulation. */
  lemma CountsInStep(base: State, f: Found, source: Id, target: Id, part: Progress, full: Progress, part': Progress, full': Progress)
    requires InStep(base, f, source, target, part, full)
    requires part'.state == part.state && full'.state == full.state && part' == full'.(state := part'.state)
    ensures InStep(base, f, source, target, part', full')
  {
    hide Merge, KeepBundles, Closed, Sees;
  }

  // ---- which messages are skipped ------------------------------------------------------------

  function IdsUpTo(messages: seq<Option<Envelope>>, n: nat): set<Id>
    requires n <= |messages|
  {
    set m | 0 <= m < n && messages[m].Some? :: messages[m].value.id
  }

  /** Message `n` repeats an envelope id: one processed before the import, or one of an earlier message. */
  predicate Skipped(processed: set<Id>, messages: seq<Option<Envelope>>, n: nat)
    requires n < |messages|
  {
    messages[n].Some? && messages[n].value.id in processed + IdsUpTo(messages, n)
  }

  lemma MessageMarks(p: Platform, o: Oracle, i: nat, source: Id, target: Id, acc: Progress, m: Option<Envelope>)
    requires source in acc.state.colonies && target in acc.state.colonies && ImportMessage(p, o, i, source, target, acc, m).Ok?
    ensures var s' := ImportMessage(p, o, i, source, target, acc, m).value.state;
            && target in s'.colonies
            && s'.colonies[target].processed == acc.state.colonies[target].processed + if m.Some? then {m.value.id} else {}
  {
    hide PlanEnvelope, Post;
    if m.Some? && m.value.id !in acc.state.colonies[target].processed {
      var step := PlanEnvelope(p, o, i, acc.state, source, target, m.value).value;
      if step.Some? {
        PostKeepsProcessed(p, o.now, acc.state, step.value);
      }
    }
  }

  /** After `n` messages exactly their ids have been added to the processed ones. */
  lemma {:induction false} LoopMarks(p: Platform, o: Oracle, s: State, source: Id, target: Id, messages: seq<Option<Envelope>>, n: nat)
    requires source in s.colonies && target in s.colonies && n <= |messages| && ImportUpTo(p, o, s, source, target, messages, n).Ok?
    ensures var s' := ImportUpTo(p, o, s, source, target, messages, n).value.state;
            target in s'.colonies && s'.colonies[target].processed == s.colonies[target].processed + IdsUpTo(messages, n)
  {
    hide ImportMessage;
    if n > 0 {
      LoopMarks(p, o, s, source, target, messages, n - 1);
      MessageMarks(p, o, n - 1, source, target, ImportUpTo(p, o, s, source, target, messages, n - 1).value, messages[n - 1]);
      assert IdsUpTo(messages, n) == IdsUpTo(messages, n - 1) + if messages[n - 1].Some? then {messages[n - 1].value.id} else {};
    }
  }

  /** Every message that will not be skipped names only rows that were found. */
  ghost predicate AllCovered(f: Found, processed: set<Id>, messages: seq<Option<Envelope>>) {
    forall i :: 0 <= i < |messages| && messages[i].Some? ==>
      messages[i].value.id in f.envelopes && (Covered(f, messages[i].value) || Skipped(processed, messages, i))
  }

  lemma {:induction false} LoopInStep(p: Platform, o: Oracle, base: State, f: Found, part: State, source: Id, target: Id,
                                      messages: seq<Option<Envelope>>, n: nat)
    requires source in part.colonies && target in part.colonies && source in base.colonies && target in base.colonies
    requires InStep(base, f, source, target, Progress(part, 0, 0, [], []), Progress(base, 0, 0, [], []))
    requires Knows(f.colonies, source) && Knows(f.colonies, target) && n <= |messages|
    requires AllCovered(f, base.colonies[target].processed, messages)
    ensures BothInStep(base, f, source, target, ImportUpTo(p, o, part, source, target, messages, n),
                       ImportUpTo(p, o, base, source, target, messages, n))
  {
    hide InStep, ImportMessage, Covered, IdsUpTo;
    if n > 0 {
      LoopInStep(p, o, base, f, part, source, target, messages, n - 1);
      var acc := ImportUpTo(p, o, part, source, target, messages, n - 1);
      var acc' := ImportUpTo(p, o, base, source, target, messages, n - 1);
      if acc.Ok? {
        LoopMarks(p, o, base, source, target, messages, n - 1);
        MessageInStep(p, o, n - 1, base, f, source, target, acc.value, acc'.value, messages[n - 1]);
      }
    }
  }

  // ---- what each operation declares ------------------------------------------------------------

  /** bundleScope, as sets: the two colonies, the envelope ids and every row the payloads name. */
  ghost predicate IsBundleScope(sc: Scope, token: string, colony: Id, b: Bundle) {
    && sc.tokens == [token] && sc.colonies == [colony, b.from] && sc.actions == [] && !sc.userColonies
    && (forall e :: e in sc.envelopes <==> exists i :: 0 <= i < |b.messages| && b.messages[i].Some? && b.messages[i].value.id == e)
    && (forall t :: t in sc.trades <==> exists i :: 0 <= i < |b.messages| && Names(b.messages[i], t))
    && (forall u :: u in sc.users <==> exists i :: 0 <= i < |b.messages| && NamesUser(b.messages[i], u))
  }

  predicate Names(m: Option<Envelope>, t: Id) {
    About(m, t) && t != ""
  }

  predicate NamesUser(m: Option<Envelope>, u: Id) {
    m.Some? && m.value.body.Body? && u in {m.value.body.seller, m.value.body.buyer}
  }

  /** The rows an import declares, collected in one pass over the messages. */
  method BundleScope(token: string, colony: Id, b: Bundle) returns (sc: Scope)
    ensures IsBundleScope(sc, token, colony, b)
  {
    var envelopes, trades, users: seq<Id> := [], [], [];
    for n := 0 to |b.messages|
      invariant forall e :: e in envelopes <==> exists i :: 0 <= i < n && b.messages[i].Some? && b.messages[i].value.id == e
      invariant forall t :: t in trades <==> exists i :: 0 <= i < n && Names(b.messages[i], t)
      invariant forall u :: u in users <==> exists i :: 0 <= i < n && NamesUser(b.messages[i], u)
    {
      var m := b.messages[n];
      if m.Some? {
        envelopes := envelopes + [m.value.id];
        if m.value.body.Body? {
          if m.value.body.trade != "" {
            trades := trades + [m.value.body.trade];
          }
          users := users + [m.value.body.seller, m.value.body.buyer];
        }
      }
    }
    return Scope([token], users, trades, [], [colony, b.from], envelopes, false);
  }

  predicate About(m: Option<Envelope>, t: Id) {
    m.Some? && m.value.body.Body? && m.value.body.trade == t
  }

  /** One of the first `n` messages is about trade `t` and will not be skipped. */
  ghost predicate AsksFor(t: Id, processed: set<Id>, messages: seq<Option<Envelope>>, n: nat)
    requires n <= |messages|
  {
    exists m :: 0 <= m < n && About(messages[m], t) && !Skipped(processed, messages, m)
  }

  /** No message that will be looked at names the empty trade id while such a trade exists. */
  ghost predicate BundleFindable(s: State, colony: Id, b: Bundle) {
    colony in s.colonies && "" in s.trades ==> !AsksFor("", s.colonies[colony].processed, b.messages, |b.messages|)
  }

  lemma BundleCovered(p: Platform, s: State, sc: Scope, token: string, colony: Id, b: Bundle, dbNow: int)
    requires IsBundleScope(sc, token, colony, b) && BundleFindable(s, colony, b)
    ensures var f := Widened(Discover(p, s, sc, dbNow), s);
            && (colony in s.colonies ==> AllCovered(f, s.colonies[colony].processed, b.messages))
            && Knows(f.colonies, colony) && Knows(f.colonies, b.from) && token in f.tokens
  {
    hide Discover, Covered, Ids, Skipped;
    var f := Discover(p, s, sc, dbNow);
    ScopeFound(p, s, sc, dbNow);
    forall i | 0 <= i < |b.messages| && b.messages[i].Some? && colony in s.colonies
      ensures b.messages[i].value.id in f.envelopes
              && (Covered(Widened(f, s), b.messages[i].value) || Skipped(s.colonies[colony].processed, b.messages, i)) {
      MessageCovered(f, s, sc, token, colony, b, i);
    }
  }

  lemma MessageCovered(f: Found, s: State, sc: Scope, token: string, colony: Id, b: Bundle, i: nat)
    requires IsBundleScope(sc, token, colony, b) && i < |b.messages| && b.messages[i].Some?
    requires Ids(sc.users) <= f.users && Ids(sc.trades) <= f.trades && (forall e :: e in sc.envelopes ==> e in f.envelopes)
    ensures b.messages[i].value.id in f.envelopes
    ensures var env := b.messages[i].value;
            env.body.Body? ==>
              && Knows(f.users, env.body.seller) && Knows(f.users, env.body.buyer)
              && (env.body.trade == "" || env.body.trade in f.trades)
    ensures b.messages[i].value.body.Malformed? || Findable(s, b.messages[i].value.body.trade) ==> Covered(Widened(f, s), b.messages[i].value)
  {
    var env := b.messages[i].value;
    assert env.id in sc.envelopes;
    if env.body.Body? {
      assert Names(b.messages[i], env.body.trade) || env.body.trade == "";
      assert NamesUser(b.messages[i], env.body.seller) && NamesUser(b.messages[i], env.body.buyer);
      assert env.body.trade == "" || env.body.trade in sc.trades;
      assert env.body.seller in sc.users && env.body.buyer in sc.users;
    }
  }

  /** Everything a scope names is found. */
  lemma ScopeFound(p: Platform, s: State, sc: Scope, dbNow: int)
    ensures var f := Discover(p, s, sc, dbNow);
            && Ids(sc.users) <= f.users && Ids(sc.trades) <= f.trades && Ids(sc.colonies) <= f.colonies
            && Ids(sc.actions) == f.actions
            && (forall e :: e in sc.envelopes ==> e in f.envelopes) && (forall k :: k in sc.tokens ==> k in f.tokens)
            && (forall c :: c in sc.colonies ==> Knows(f.colonies, c)) && (forall t :: t in sc.trades ==> Knows(f.trades, t))
            && (forall u :: u in sc.users ==> Knows(f.users, u)) && (forall a :: a in sc.actions ==> Knows(f.actions, a))
  {
    hide Deciding, Trading, SessionUsers;
  }

  // ---- the token's user --------------------------------------------------------------------------

  /** The session's user was found, unless the handler will find the session expired. */
  predicate ActorFound(p: Platform, o: Oracle, f: Found, s: State, token: string) {
    token in f.tokens
    && (token in s.sessions && SessionLive(p, s.sessions[token], o.wall - 1) ==> Knows(f.users, s.sessions[token].user))
  }

  lemma ActorDiscovered(p: Platform, o: Oracle, s: State, sc: Scope, dbNow: int, token: string)
    requires token in sc.tokens && dbNow < o.wall
    ensures ActorFound(p, o, Discover(p, s, sc, dbNow), s, token)
  {
    hide Deciding, Trading;
    if token in s.sessions && SessionLive(p, s.sessions[token], o.wall - 1) {
      assert s.sessions[token].user in SessionUsers(p, s, sc.tokens, dbNow);
    }
  }

  lemma ActorWidened(p: Platform, o: Oracle, f: Found, s: State, token: string)
    requires ActorFound(p, o, f, s, token)
    ensures ActorFound(p, o, Widened(f, s), s, token)
  {
  }

  lemma ActorSees(p: Platform, o: Oracle, f: Found, part: State, full: State, token: string)
    requires forall u :: Knows(f.users, u) ==> Same(part.users, full.users, u)
    requires forall k :: k in f.tokens ==> Same(part.sessions, full.sessions, k)
    requires ActorFound(p, o, f, full, token)
    ensures Actor(p, o, part, token) == Actor(p, o, full, token)
    ensures var r := Actor(p, o, full, token);
            r.Ok? ==> r.value in part.users && part.users[r.value] == full.users[r.value]
  {
    assert Same(part.sessions, full.sessions, token);
  }

  lemma PeopleSeen(f: Found, part: State, full: State)
    requires Sees(f, part, full)
    ensures forall u :: Knows(f.users, u) ==> Same(part.users, full.users, u)
    ensures forall k :: k in f.tokens ==> Same(part.sessions, full.sessions, k)
  {
    hide SeesColonies;
  }

  lemma CheckSees(p: Platform, o: Oracle, f: Found, part: State, full: State, token: string, colony: Id, b: Bundle)
    requires Sees(f, part, full) && ActorFound(p, o, f, full, token) && Knows(f.colonies, colony) && Knows(f.colonies, b.from)
    ensures CheckImport(p, o, part, token, colony, b) == CheckImport(p, o, full, token, colony, b)
  {
    hide Actor, SeesColony;
    PeopleSeen(f, part, full);
    ActorSees(p, o, f, part, full, token);
    if colony in full.colonies {
      SameHead(f, part.colonies[colony], full.colonies[colony]);
    }
    if b.from in full.colonies {
      SameHead(f, part.colonies[b.from], full.colonies[b.from]);
    }
  }

  /** What the caller of a transaction on the part sees: the result, and the whole state afterwards. */
  ghost function Written(base: State, r: Result<(State, ImportResult)>): Result<(State, ImportResult)> {
    if r.Ok? then Ok((Merge(base, r.value.0), r.value.1)) else r
  }

  ghost function Keeping(base: State, r: Result<(State, ImportResult)>): Result<(State, ImportResult)> {
    if r.Ok? then Ok((KeepBundles(base, r.value.0), r.value.1)) else r
  }

  /** Importing on the discovered rows is importing on the whole state, bundles already stored aside. */
  lemma ScopedImport(p: Platform, o: Oracle, s: State, dbNow: int, sc: Scope, token: string, colony: Id, id: Id, b: Bundle)
    requires Inv(p, s) && NoBlankIds(s) && dbNow < o.wall && IsBundleScope(sc, token, colony, b) && BundleFindable(s, colony, b)
    ensures var part := Load(s, Discover(p, s, sc, dbNow));
            Written(s, ImportBundle(p, o, part, token, colony, id, b)) == Keeping(s, ImportBundle(p, o, s, token, colony, id, b))
  {
    hide Inv, NoBlankIds, BundleFindable, Widened, IsBundleScope, Discover, Load, CheckImport, ImportUpTo, Sees, Closed, Merge, KeepBundles, ActorFound, AllCovered, Post, ImportClosing;
    var found := Discover(p, s, sc, dbNow);
    var f := Widened(found, s);
    WidenedLoads(found, s);
    var part := Load(s, f);
    LoadSees(p, s, f);
    LoadMerges(s, f);
    DiscoverCloses(p, s, sc, dbNow);
    WidenedCloses(found, s);
    BundleCovered(p, s, sc, token, colony, b, dbNow);
    ScopeTokens(p, s, sc, dbNow, token, colony, b);
    ActorDiscovered(p, o, s, sc, dbNow, token);
    ActorWidened(p, o, found, s, token);
    CheckSees(p, o, f, part, s, token, colony, b);
    var check := CheckImport(p, o, s, token, colony, b);
    if check.Ok? {
      KeepNothing(s);
      var none, none' := Progress(part, 0, 0, [], []), Progress(s, 0, 0, [], []);
      assert InStep(s, f, b.from, colony, none, none');
      LoopInStep(p, o, s, f, part, b.from, colony, b.messages, |b.messages|);
      var acc, acc' := ImportUpTo(p, o, part, b.from, colony, b.messages, |b.messages|), ImportUpTo(p, o, s, b.from, colony, b.messages, |b.messages|);
      if acc.Ok? {
        SeesOutbox(f, part, s, colony);
        SeesOutbox(f, acc.value.state, acc'.value.state, colony);
        var fx := ImportClosing(colony, check.value, id, b, acc.value.imported, acc.value.skipped);
        PostMerges(p, o.now, s, acc.value.state, acc'.value.state, fx) by {
          ClosingWithin(s, f, acc.value.state, acc'.value.state, fx) by {
            ClosingShape(colony, check.value, id, b, acc.value.imported, acc.value.skipped);
          }
        }
      }
    }
  }

  lemma ClosingShape(colony: Id, actor: Id, id: Id, b: Bundle, imported: nat, skipped: nat)
    ensures var fx := ImportClosing(colony, actor, id, b, imported, skipped);
            fx.founded.None? && fx.claim.None? && fx.colony == colony
  {
  }

  lemma ScopeTokens(p: Platform, s: State, sc: Scope, dbNow: int, token: string, colony: Id, b: Bundle)
    requires IsBundleScope(sc, token, colony, b)
    ensures token in sc.tokens
  {
  }

  lemma KeepNothing(s: State)
    ensures KeepBundles(s, s) == s
  {
    assert s.bundles + s.bundles == s.bundles;
  }

  lemma SeesOutbox(f: Found, part: State, full: State, c: Id)
    requires Sees(f, part, full) && Knows(f.colonies, c) && c in part.colonies
    ensures c in full.colonies && part.colonies[c].outbox == full.colonies[c].outbox && Prev(part.colonies[c]) == Prev(full.colonies[c])
  {
    SameHead(f, part.colonies[c], full.colonies[c]);
  }

  lemma ClosingWithin(base: State, f: Found, part: State, full: State, fx: Effect)
    requires Sees(f, part, full) && Knows(f.colonies, fx.colony) && fx.colony in part.colonies
    requires fx.founded.None? && fx.claim.None?
    ensures Within(base, part, full, fx)
  {
    SeesOutbox(f, part, full, fx.colony);
  }
}
