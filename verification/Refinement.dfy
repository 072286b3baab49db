/** Scoped transactions refine whole-state operations in every reachable state. */
module Refinement {
  import opened Basics
  import opened Model
  import opened Handlers
  import opened Invariant
  import opened Runs
  import opened Authority
  import opened Scopes
  import opened ScopedImports
  import opened ScopedRequests
  import opened ScopedSweeps
  import opened BlankTrades
  import opened BlankBundles
  import opened StoredBundles

  // ---- no reachable state has an action without an id ---------------------------

  lemma RequestNamesActions(p: Platform, o: Oracle, s: State, token: string, request: Request)
    requires Plan(p, o, s, token, request).Ok? && o.newId != "" && "" !in s.actions
    ensures "" !in Put(s.actions, Plan(p, o, s, token, request).value.action)
  {
    hide Plan;
    if request.DecideApproval? {
      DecisionWritesAction(p, o, s, token, request);
    } else {
      OthersWriteActions(p, o, s, token, request);
    }
  }

  lemma StepNamesActions(p: Platform, o: Oracle, s: State, op: Op)
    requires Fresh(s, o) && "" !in s.actions
    ensures "" !in After(p, o, s, op).actions
  {
    hide Plan, ImportUpTo, CheckImport, Sweep, PostColonies;
    match op
    case Act(token, request) =>
      if Plan(p, o, s, token, request).Ok? {
        RequestNamesActions(p, o, s, token, request);
      }
    case Import(token, colony, id, b) =>
      if CheckImport(p, o, s, token, colony, b).Ok? {
        LoopKeepsRows(p, o, s, b.from, colony, b.messages, |b.messages|);
      }
    case SweepExpired(order) => SweepKeepsActions(p, o.now, s, order);
    case Admin(_, _, _) =>
  }

  lemma {:induction false} ActionsAreNamed(p: Platform, run: seq<State>, i: nat)
    requires Run(p, run) && i < |run|
    ensures "" !in run[i].actions
  {
    hide After, Fresh;
    if i > 0 {
      ActionsAreNamed(p, run, i - 1);
      assert Next(p, run[i - 1], run[i]);
      var op: Op, o: Oracle :| Fresh(run[i - 1], o) && run[i] == After(p, o, run[i - 1], op);
      StepNamesActions(p, o, run[i - 1], op);
    }
  }

  /** In a reachable state the trade table is the only one that can hold a row without an id. */
  lemma OnlyTradesCanBeBlank(p: Platform, run: seq<State>, i: nat)
    requires Run(p, run) && i < |run|
    ensures Inv(p, run[i]) && NoBlankIds(run[i]) && Received(run[i])
  {
    hide Accounting, Conserved, Mirrored, AllChained, Replays, Outcomes, SupplyBounds, DualControl, Homes, ClaimRows, TradeRow;
    EveryStateIsGood(p, run, i);
    ActionsAreNamed(p, run, i);
    BlankIsReceived(p, run, i);
  }

  // ---- requests ----------------------------------------------------------------------

  /** A request on the part, its rows written back. */
  ghost function ScopedServe(p: Platform, o: Oracle, s: State, dbNow: int, token: string, request: Request): Result<State> {
    var part := Load(s, Discover(p, s, ScopeOf(token, request), dbNow));
    var plan := Plan(p, o, part, token, request);
    if plan.Err? then Err(plan.error) else Ok(Merge(s, Post(p, o.now, part, plan.value)))
  }

  /** Requests: the discovered rows give the whole state's answer and its next state, unless the empty trade id decides. */
  lemma RequestsRefine(p: Platform, run: seq<State>, i: nat, o: Oracle, dbNow: int, token: string, request: Request)
    requires Run(p, run) && i < |run| && Fresh(run[i], o) && dbNow < o.wall
    ensures var s := run[i];
            var here, there := ScopedServe(p, o, s, dbNow, token, request), Exec(p, o, s, Act(token, request));
            && (Blanked(p, o, s, token, request) ==> here.Err? && here != there)
            && (!Blanked(p, o, s, token, request) ==>
                  if there.Ok? then here == Ok(KeepBundles(s, there.value)) else here == there)
  {
    hide Plan, Post, Inv, NoBlankIds, Received, Run, Fresh, Merge, KeepBundles, Load, Discover, Blanked;
    OnlyTradesCanBeBlank(p, run, i);
    RequestAgreesExactly(p, o, run[i], dbNow, token, request);
  }

  /** The two stores move alike exactly when neither the empty trade id nor another stored bundle is in the way. */
  lemma RequestsAgreeExactly(p: Platform, run: seq<State>, i: nat, o: Oracle, dbNow: int, token: string, request: Request)
    requires Run(p, run) && i < |run| && Fresh(run[i], o) && dbNow < o.wall
    ensures var s := run[i];
            ScopedServe(p, o, s, dbNow, token, request) == Exec(p, o, s, Act(token, request))
            <==> !Blanked(p, o, s, token, request) && !(Plan(p, o, s, token, request).Ok? && ExportOverwrites(p, o, s, request))
  {
    hide Plan, Post, Run, Fresh, KeepBundles, ScopedServe, Blanked, ExportOverwrites;
    RequestsRefine(p, run, i, o, dbNow, token, request);
    if Plan(p, o, run[i], token, request).Ok? {
      RequestKeepsExactly(p, o, run[i], token, request);
    }
  }

  // ---- imports -----------------------------------------------------------------------

  /** One envelope of a bundle: the same plan on the discovered rows exactly when it looks up no existing trade with the empty id. */
  lemma EnvelopesAgreeExactly(p: Platform, run: seq<State>, i: nat, o: Oracle, n: nat, dbNow: int, sc: Scope, token: string, colony: Id, b: Bundle, k: nat)
    requires Run(p, run) && i < |run| && IsBundleScope(sc, token, colony, b) && k < |b.messages| && b.messages[k].Some?
    requires colony in run[i].colonies && b.from in run[i].colonies
    ensures var s, env := run[i], b.messages[k].value;
            var part := Load(s, Discover(p, s, sc, dbNow));
            && b.from in part.colonies && colony in part.colonies
            && (PlanEnvelope(p, o, n, part, b.from, colony, env) == PlanEnvelope(p, o, n, s, b.from, colony, env)
                <==> !(LooksUp(p, s, b.from, colony, env) && env.body.trade == "" && "" in s.trades))
  {
    hide Inv, Run, IsBundleScope, Discover, PlanEnvelope, LooksUp, LoadColony, Sees, Closed, Rows;
    var s, f := run[i], Discover(p, run[i], sc, dbNow);
    OnlyTradesCanBeBlank(p, run, i);
    InvHasRows(p, s);
    LoadSees(p, s, f);
    DiscoverCloses(p, s, sc, dbNow);
    BlankNotInPart(p, s, sc, dbNow);
    ScopeFound(p, s, sc, dbNow);
    EndsFound(p, s, sc, dbNow, token, colony, b);
    MessageCovered(f, s, sc, token, colony, b, k);
    EnvelopeAgreesExactly(p, o, n, f, Load(s, f), s, b.from, colony, b.messages[k].value);
  }

  lemma EndsFound(p: Platform, s: State, sc: Scope, dbNow: int, token: string, colony: Id, b: Bundle)
    requires IsBundleScope(sc, token, colony, b) && NoBlankIds(s)
    ensures var f := Discover(p, s, sc, dbNow);
            && Knows(f.colonies, colony) && Knows(f.colonies, b.from)
            && (colony in s.colonies ==> colony in Load(s, f).colonies) && (b.from in s.colonies ==> b.from in Load(s, f).colonies)
  {
    hide Discover, LoadColony;
    ScopeFound(p, s, sc, dbNow);
  }

  /** A bundle imported on the part, its rows written back. */
  ghost function ScopedImporting(p: Platform, o: Oracle, s: State, dbNow: int, sc: Scope, token: string, colony: Id, id: Id, b: Bundle): Result<(State, ImportResult)> {
    var part := Load(s, Discover(p, s, sc, dbNow));
    Committed(s, part, ImportBundle(p, o, part, token, colony, id, b))
  }

  /** Imports: the same counts, the same error, the same state, unless the bundle asks for an existing trade with the empty id. */
  lemma ImportsRefine(p: Platform, run: seq<State>, i: nat, o: Oracle, dbNow: int, sc: Scope, token: string, colony: Id, id: Id, b: Bundle)
    requires Run(p, run) && i < |run| && dbNow < o.wall && IsBundleScope(sc, token, colony, b)
    ensures var s := run[i];
            var here, there := ScopedImporting(p, o, s, dbNow, sc, token, colony, id, b), ImportBundle(p, o, s, token, colony, id, b);
            if BundleFindable(s, colony, b) then here == Keeping(s, there) else here.Err?
  {
    hide ImportBundle, Inv, NoBlankIds, Received, Run, IsBundleScope, BundleFindable, Load, Discover, Committed, Keeping;
    OnlyTradesCanBeBlank(p, run, i);
    if BundleFindable(run[i], colony, b) {
      FindableAgrees(p, o, run[i], dbNow, sc, token, colony, id, b);
    } else {
      UnfindableIsRefused(p, o, run[i], dbNow, sc, token, colony, id, b);
    }
  }

  /** Of the bundles one store accepts, exactly which leave the same counts and the same state in the other. */
  lemma ImportsAgreeExactly(p: Platform, run: seq<State>, i: nat, o: Oracle, dbNow: int, sc: Scope, token: string, colony: Id, id: Id, b: Bundle)
    requires Run(p, run) && i < |run| && dbNow < o.wall && IsBundleScope(sc, token, colony, b)
    requires ImportBundle(p, o, run[i], token, colony, id, b).Ok?
    ensures var s := run[i];
            ScopedImporting(p, o, s, dbNow, sc, token, colony, id, b) == ImportBundle(p, o, s, token, colony, id, b)
            <==> BundleFindable(s, colony, b) && !Overwrites(s, id, b)
  {
    hide ImportBundle, Run, IsBundleScope, BundleFindable, ScopedImporting, KeepBundles, Overwrites;
    ImportsRefine(p, run, i, o, dbNow, sc, token, colony, id, b);
    ImportKeepsExactly(p, o, run[i], token, colony, id, b);
  }

  // ---- sweeps ------------------------------------------------------------------------

  /** The database sweep loads only the offers it was told are due; sweeping those is a sweep of the whole state, the empty id aside. */
  lemma SweepsRefine(p: Platform, run: seq<State>, i: nat, now: int, dbNow: int, due: seq<Id>, order: seq<Id>)
    requires Run(p, run) && i < |run| && (forall id :: id in order ==> id in due)
    ensures var s := run[i];
            var part := Load(s, Discover(p, s, SweepScope(due), dbNow));
            Merge(s, Sweep(p, now, part, order)) == Sweep(p, now, s, order) <==> !SweepsBlank(p, s, now, order)
  {
    hide Inv, NoBlankIds, Received, Run, Sweep, Load, Discover, Merge, SweepsBlank;
    OnlyTradesCanBeBlank(p, run, i);
    ScopedSweep(p, run[i], now, dbNow, due, order);
  }

  /** And such a trade can come in: an imported offer may carry the empty trade id. */
  lemma BlankTradeArrives(p: Platform, s: State, source: Id, target: Id, env: Envelope, now: int)
    requires env.body.Body? && env.body.trade == "" && "" !in s.trades
    requires PlanImportOffer(p, s, source, target, env).Ok?
    ensures PlanImportOffer(p, s, source, target, env).value.Some?
    ensures "" in Post(p, now, s, PlanImportOffer(p, s, source, target, env).value.value).trades
  {
    hide PostColonies, TrimSpace;
  }
}
