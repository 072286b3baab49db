/** Bundles and sweeps that reach the trade with the empty id: exactly when the part and the whole state agree. */
module BlankBundles {
  import opened Basics
  import opened TradeTable
  import opened Model
  import opened Handlers
  import opened Invariant
  import opened Runs
  import opened Scopes
  import opened ScopedImports
  import opened Statements
  import opened BlankTrades

  // ---- the trade with the empty id was never offered here ---------------------------

  /** A trade with the empty id can only have been received. */
  predicate Received(s: State) {
    "" in s.trades ==> s.trades[""].status != OfferPendingExport
  }

  predicate WritesReceived(fx: Effect) {
    fx.trade.Some? && fx.trade.value.0 == "" ==> fx.trade.value.1.status != OfferPendingExport
  }

  lemma EnvelopeReceived(p: Platform, o: Oracle, i: nat, s: State, source: Id, target: Id, env: Envelope)
    requires source in s.colonies && target in s.colonies
    ensures var r := PlanEnvelope(p, o, i, s, source, target, env);
            r.Ok? && r.value.Some? ==> WritesReceived(r.value.value)
  {
    hide StepOf, TransitionAllowed, AddChecked, AcceptedAfterExpiry, TrimSpace, Sealed, Stamp;
  }

  lemma RequestReceived(p: Platform, o: Oracle, s: State, token: string, request: Request)
    requires o.newId != "" && Plan(p, o, s, token, request).Ok?
    ensures WritesReceived(Plan(p, o, s, token, request).value)
  {
    hide Actor, IsExpired, AddChecked, TrimSpace, Wrap, Past, Picked, Sealed, Stamp, TransitionAllowed;
  }

  lemma PostReceived(p: Platform, now: int, s: State, fx: Effect)
    requires Received(s) && WritesReceived(fx)
    ensures Received(Post(p, now, s, fx))
  {
    hide PostColonies;
  }

  lemma {:induction false} LoopReceived(p: Platform, o: Oracle, s: State, source: Id, target: Id, messages: seq<Option<Envelope>>, n: nat)
    requires source in s.colonies && target in s.colonies && n <= |messages| && Received(s)
    ensures var r := ImportUpTo(p, o, s, source, target, messages, n); r.Ok? ==> Received(r.value.state)
  {
    hide PlanEnvelope, Post, Received, WritesReceived;
    if n > 0 {
      LoopReceived(p, o, s, source, target, messages, n - 1);
      var acc := ImportUpTo(p, o, s, source, target, messages, n - 1);
      if acc.Ok? && messages[n - 1].Some? {
        MessageReceived(p, o, n - 1, source, target, acc.value, messages[n - 1]);
      }
    }
  }

  lemma MessageReceived(p: Platform, o: Oracle, i: nat, source: Id, target: Id, acc: Progress, m: Option<Envelope>)
    requires source in acc.state.colonies && target in acc.state.colonies && Received(acc.state)
    ensures var r := ImportMessage(p, o, i, source, target, acc, m); r.Ok? ==> Received(r.value.state)
  {
    hide PlanEnvelope, Post, WritesReceived;
    if m.Some? {
      var step := PlanEnvelope(p, o, i, acc.state, source, target, m.value);
      if step.Ok? && step.value.Some? {
        EnvelopeReceived(p, o, i, acc.state, source, target, m.value);
        PostReceived(p, o.now, acc.state, step.value.value);
      }
    }
  }

  lemma {:induction false} SweepReceived(p: Platform, now: int, s: State, order: seq<Id>)
    requires Received(s)
    ensures Received(Sweep(p, now, s, order))
  {
    hide PostColonies, Due;
    if order != [] {
      SweepReceived(p, now, s, order[..|order| - 1]);
    }
  }

  lemma StepReceived(p: Platform, o: Oracle, s: State, op: Op)
    requires Fresh(s, o) && Received(s)
    ensures Received(After(p, o, s, op))
  {
    hide Plan, ImportUpTo, CheckImport, Sweep, PostColonies;
    match op
    case Act(token, request) =>
      if Plan(p, o, s, token, request).Ok? {
        RequestReceived(p, o, s, token, request);
      }
    case Import(token, colony, id, b) =>
      if CheckImport(p, o, s, token, colony, b).Ok? {
        LoopReceived(p, o, s, b.from, colony, b.messages, |b.messages|);
      }
    case SweepExpired(order) => SweepReceived(p, o.now, s, order);
    case Admin(_, _, _) =>
  }

  lemma {:induction false} BlankIsReceived(p: Platform, run: seq<State>, i: nat)
    requires Run(p, run) && i < |run|
    ensures Received(run[i])
  {
    hide After, Fresh, Received;
    if i == 0 {
      StartReceived(run[0]);
    } else {
      BlankIsReceived(p, run, i - 1);
      assert Next(p, run[i - 1], run[i]);
      var op: Op, o: Oracle :| Fresh(run[i - 1], o) && run[i] == After(p, o, run[i - 1], op);
      StepReceived(p, o, run[i - 1], op);
    }
  }

  lemma StartReceived(s: State)
    requires Start(s)
    ensures Received(s)
  {
  }

  // ---- which trades an import leaves --------------------------------------------------

  lemma EnvelopeTrade(p: Platform, o: Oracle, i: nat, s: State, source: Id, target: Id, env: Envelope)
    requires source in s.colonies && target in s.colonies && PlanEnvelope(p, o, i, s, source, target, env).Ok?
    ensures env.body.Body?
    ensures var fx := PlanEnvelope(p, o, i, s, source, target, env).value;
            if fx.None? then env.body.trade in s.trades
            else fx.value.trade.Some? && fx.value.trade.value.0 == env.body.trade
  {
    hide StepOf, TransitionAllowed, AddChecked, AcceptedAfterExpiry, TrimSpace, Sealed, Stamp;
  }

  lemma MessageTrades(p: Platform, o: Oracle, i: nat, source: Id, target: Id, acc: Progress, m: Option<Envelope>)
    requires source in acc.state.colonies && target in acc.state.colonies && ImportMessage(p, o, i, source, target, acc, m).Ok?
    ensures var s' := ImportMessage(p, o, i, source, target, acc, m).value.state;
            forall t :: t in s'.trades <==> t in acc.state.trades || (About(m, t) && m.value.id !in acc.state.colonies[target].processed)
  {
    hide PlanEnvelope, PostColonies;
    if m.Some? && m.value.id !in acc.state.colonies[target].processed {
      EnvelopeTrade(p, o, i, acc.state, source, target, m.value);
    }
  }

  /** After `n` messages the trades are those there were before and those the messages asked for. */
  lemma {:induction false} LoopTrades(p: Platform, o: Oracle, s: State, source: Id, target: Id, messages: seq<Option<Envelope>>, n: nat)
    requires source in s.colonies && target in s.colonies && n <= |messages| && ImportUpTo(p, o, s, source, target, messages, n).Ok?
    ensures var s' := ImportUpTo(p, o, s, source, target, messages, n).value.state;
            forall t :: t in s'.trades <==> t in s.trades || AsksFor(t, s.colonies[target].processed, messages, n)
  {
    hide ImportMessage, IdsUpTo;
    if n > 0 {
      var acc := ImportUpTo(p, o, s, source, target, messages, n - 1).value;
      LoopTrades(p, o, s, source, target, messages, n - 1);
      LoopMarks(p, o, s, source, target, messages, n - 1);
      MessageTrades(p, o, n - 1, source, target, acc, messages[n - 1]);
      forall t ensures AsksFor(t, s.colonies[target].processed, messages, n)
                       <==> AsksFor(t, s.colonies[target].processed, messages, n - 1)
                            || (About(messages[n - 1], t) && messages[n - 1].value.id !in acc.state.colonies[target].processed) {
        AsksNext(t, s.colonies[target].processed, messages, n, acc.state.colonies[target].processed);
      }
    }
  }

  lemma AsksNext(t: Id, processed: set<Id>, messages: seq<Option<Envelope>>, n: nat, marked: set<Id>)
    requires 0 < n <= |messages| && marked == processed + IdsUpTo(messages, n - 1)
    ensures AsksFor(t, processed, messages, n)
            <==> AsksFor(t, processed, messages, n - 1) || (About(messages[n - 1], t) && messages[n - 1].value.id !in marked)
  {
    hide IdsUpTo;
    if About(messages[n - 1], t) && messages[n - 1].value.id !in marked {
      assert !Skipped(processed, messages, n - 1);
    }
  }

  lemma AsksAlike(t: Id, part: set<Id>, full: set<Id>, messages: seq<Option<Envelope>>)
    requires forall i :: 0 <= i < |messages| && messages[i].Some? ==> (messages[i].value.id in part <==> messages[i].value.id in full)
    ensures AsksFor(t, part, messages, |messages|) <==> AsksFor(t, full, messages, |messages|)
  {
    hide IdsUpTo;
    forall i | 0 <= i < |messages| ensures Skipped(part, messages, i) == Skipped(full, messages, i) {
    }
  }

  // ---- what the transaction leaves ------------------------------------------------------

  /** The rows written back over the whole state; a row that is inserted although it is stored aborts. */
  ghost function Committed<R>(base: State, part: State, r: Result<(State, R)>): Result<(State, R)> {
    if r.Err? then r
    else if KeysFree(base.trades, part.trades, r.value.0.trades) then Ok((Merge(base, r.value.0), r.value.1))
    else Err(Conflict)
  }

  /** The trades an import inserts were stored before exactly when the bundle asks for the trade that is not found. */
  lemma ImportInserts(p: Platform, o: Oracle, s: State, dbNow: int, sc: Scope, token: string, colony: Id, id: Id, b: Bundle)
    requires IsBundleScope(sc, token, colony, b)
    requires ImportBundle(p, o, Load(s, Discover(p, s, sc, dbNow)), token, colony, id, b).Ok?
    ensures var part := Load(s, Discover(p, s, sc, dbNow));
            KeysFree(s.trades, part.trades, ImportBundle(p, o, part, token, colony, id, b).value.0.trades) <==> BundleFindable(s, colony, b)
  {
    hide Discover, IsBundleScope, CheckImport, ImportUpTo, AsksFor, LoadColony, PostColonies;
    var f := Discover(p, s, sc, dbNow);
    var part := Load(s, f);
    var st := ImportBundle(p, o, part, token, colony, id, b).value.0;
    var marks := s.colonies[colony].processed;
    ImportTrades(p, o, part, token, colony, id, b);
    LoadedProcessed(p, s, sc, dbNow, token, colony, b);
    forall t ensures t in st.trades <==> t in part.trades || AsksFor(t, marks, b.messages, |b.messages|) {
      AsksAlike(t, part.colonies[colony].processed, marks, b.messages);
    }
    forall t | AsksFor(t, marks, b.messages, |b.messages|) ensures t == "" || t in f.trades {
      AskedIsFound(p, s, sc, dbNow, token, colony, b, t, marks);
    }
    NeverFound(p, s, sc, dbNow);
  }

  lemma ImportTrades(p: Platform, o: Oracle, s: State, token: string, colony: Id, id: Id, b: Bundle)
    requires ImportBundle(p, o, s, token, colony, id, b).Ok?
    ensures colony in s.colonies
    ensures forall t :: t in ImportBundle(p, o, s, token, colony, id, b).value.0.trades
                        <==> t in s.trades || AsksFor(t, s.colonies[colony].processed, b.messages, |b.messages|)
  {
    hide CheckImport, ImportUpTo, AsksFor, PostColonies;
    LoopTrades(p, o, s, b.from, colony, b.messages, |b.messages|);
  }

  lemma LoadedProcessed(p: Platform, s: State, sc: Scope, dbNow: int, token: string, colony: Id, b: Bundle)
    requires IsBundleScope(sc, token, colony, b) && colony in Load(s, Discover(p, s, sc, dbNow)).colonies
    ensures colony in s.colonies
    ensures var part := Load(s, Discover(p, s, sc, dbNow));
            forall i :: 0 <= i < |b.messages| && b.messages[i].Some? ==>
              (b.messages[i].value.id in part.colonies[colony].processed <==> b.messages[i].value.id in s.colonies[colony].processed)
  {
    hide Discover;
    ScopeFound(p, s, sc, dbNow);
    forall i | 0 <= i < |b.messages| && b.messages[i].Some? ensures b.messages[i].value.id in Discover(p, s, sc, dbNow).envelopes {
      assert b.messages[i].value.id in sc.envelopes;
    }
  }

  lemma AskedIsFound(p: Platform, s: State, sc: Scope, dbNow: int, token: string, colony: Id, b: Bundle, t: Id, marks: set<Id>)
    requires IsBundleScope(sc, token, colony, b) && AsksFor(t, marks, b.messages, |b.messages|)
    ensures t == "" || t in Discover(p, s, sc, dbNow).trades
  {
    hide Discover, Skipped, About;
    ScopeFound(p, s, sc, dbNow);
    var m :| 0 <= m < |b.messages| && About(b.messages[m], t);
    assert t != "" ==> Names(b.messages[m], t);
    assert t != "" ==> t in sc.trades;
  }

  /** A bundle that asks for an existing trade with the empty id commits nothing. */
  lemma UnfindableIsRefused(p: Platform, o: Oracle, s: State, dbNow: int, sc: Scope, token: string, colony: Id, id: Id, b: Bundle)
    requires IsBundleScope(sc, token, colony, b) && !BundleFindable(s, colony, b)
    ensures var part := Load(s, Discover(p, s, sc, dbNow)); Committed(s, part, ImportBundle(p, o, part, token, colony, id, b)).Err?
  {
    hide BundleFindable, IsBundleScope, Discover, Load, ImportBundle, Merge, KeysFree;
    if ImportBundle(p, o, Load(s, Discover(p, s, sc, dbNow)), token, colony, id, b).Ok? {
      ImportInserts(p, o, s, dbNow, sc, token, colony, id, b);
    }
  }

  /** Any other bundle is imported on the part as on the whole. */
  lemma FindableAgrees(p: Platform, o: Oracle, s: State, dbNow: int, sc: Scope, token: string, colony: Id, id: Id, b: Bundle)
    requires Inv(p, s) && NoBlankIds(s) && dbNow < o.wall && IsBundleScope(sc, token, colony, b) && BundleFindable(s, colony, b)
    ensures var part := Load(s, Discover(p, s, sc, dbNow));
            Committed(s, part, ImportBundle(p, o, part, token, colony, id, b)) == Keeping(s, ImportBundle(p, o, s, token, colony, id, b))
  {
    hide Inv, NoBlankIds, BundleFindable, IsBundleScope, Discover, Load, ImportBundle, Merge, KeepBundles, KeysFree;
    if ImportBundle(p, o, Load(s, Discover(p, s, sc, dbNow)), token, colony, id, b).Ok? {
      ImportInserts(p, o, s, dbNow, sc, token, colony, id, b);
    }
    ScopedImport(p, o, s, dbNow, sc, token, colony, id, b);
  }
}
