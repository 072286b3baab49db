/** The database-backed store: one transaction loads a scope, runs a handler on it and writes the differences. */
module Database {
  import opened Basics
  import opened Model
  import opened Handlers
  import opened Invariant
  import opened Runs
  import opened Service
  import opened Scopes
  import opened ScopedImports
  import opened ScopedRequests
  import opened ScopedSweeps
  import opened BlankTrades
  import opened BlankBundles
  import opened StoredBundles
  import opened Refinement
  import opened Statements
  import opened Tables
  import opened Persist
  import opened Loading
  import opened Working
  import opened Transactions
  import opened ImportCommits

  /** Keeping the bundles that were stored first is all the database does differently. */
  lemma KeptBundlesAreSkin(p: Platform, base: State, s: State)
    requires Inv(p, s)
    ensures Inv(p, KeepBundles(base, s))
  {
    hide Inv, Skin;
    SameIsSkin(s);
    BundlesAreSkin(base, s);
    SkinKeepsInv(p, s, KeepBundles(base, s));
  }

  lemma BundlesAreSkin(base: State, s: State)
    requires Skin(s, s)
    ensures Skin(s, KeepBundles(base, s))
  {
  }

  ghost function AllMail(m: map<Id, Colony>): (ids: set<Id>)
    ensures forall id :: id in ids <==> Mails(m, id)
  {
    var ids := set c, i | c in m && 0 <= i < |m[c].outbox| :: m[c].outbox[i].id;
    assert forall id :: id in ids <==> Mails(m, id);
    ids
  }

  /** Everything a request's transaction needs to know before it commits. */
  lemma RequestTransaction(p: Platform, o: Oracle, t: Tables, s: State, dbNow: int, token: string, request: Request, orig: Orig)
    requires Stores(t, s) && Inv(p, s) && NoBlankIds(s) && dbNow < o.wall && Fresh(s, o) && FreshMail(o, s)
    requires Remembers(orig, Load(s, Discover(p, s, ScopeOf(token, request), dbNow)))
    requires Plan(p, o, s, token, request).Ok? && !Blanked(p, o, s, token, request)
    ensures var part := Load(s, Discover(p, s, ScopeOf(token, request), dbNow));
            var st := Post(p, o.now, part, Plan(p, o, s, token, request).value);
            && Plan(p, o, part, token, request) == Plan(p, o, s, token, request)
            && Merge(s, st) == KeepBundles(s, After(p, o, s, Act(token, request)))
            && Inv(p, Merge(s, st)) && "" !in Merge(s, st).actions
            && PartOf(part, s) && Grown(s, st, orig, AllMail(st.colonies)) && Acceptable(s, orig, st)
  {
    hide Stores, Inv, NoBlankIds, Fresh, FreshMail, Load, Discover, Remembers, Merge, KeepBundles, PartOf, Grown, Acceptable, Plan, Post, WritesKnown, Mails, ScopeOf, StoresOutbox, Blanked;
    var f := Discover(p, s, ScopeOf(token, request), dbNow);
    var part, fx := Load(s, f), Plan(p, o, s, token, request).value;
    var after := After(p, o, s, Act(token, request));
    RequestAgreesExactly(p, o, s, dbNow, token, request);
    RequestGood(p, o, s, token, request);
    KeptBundlesAreSkin(p, s, after);
    BlankStaysOut(p, o, s, Act(token, request));
    LoadIsPart(s, f);
    RequestWrites(p, o, part, token, request);
    StoredOutbox(t, s);
    DrainsLoaded(p, o, s, dbNow, token, request);
    RequestCommits(p, o, s, f, orig, AllMail(Post(p, o.now, part, fx).colonies), t.outbox, fx);
  }

  lemma StoredOutbox(t: Tables, s: State)
    requires Stores(t, s)
    ensures StoresOutbox(t.outbox, s.colonies)
  {
    hide StoresOutbox;
  }

  lemma BlankStaysOut(p: Platform, o: Oracle, s: State, op: Op)
    requires NoBlankIds(s) && Fresh(s, o)
    ensures "" !in After(p, o, s, op).actions && "" !in KeepBundles(s, After(p, o, s, op)).actions
  {
    hide After, Fresh;
    StepNamesActions(p, o, s, op);
  }

  /** Only an export drains an outbox, and only one it loaded. */
  lemma DrainsLoaded(p: Platform, o: Oracle, s: State, dbNow: int, token: string, request: Request)
    requires NoBlankIds(s) && Plan(p, o, s, token, request).Ok?
    ensures var fx := Plan(p, o, s, token, request).value;
            fx.drain.Some? ==> fx.colony in Load(s, Discover(p, s, ScopeOf(token, request), dbNow)).colonies
  {
    hide Discover, LoadColony;
    ScopeFound(p, s, ScopeOf(token, request), dbNow);
    if request.ExportBundle? {
      hide Actor, Picked;
      assert Plan(p, o, s, token, request).value.colony == request.colony;
    } else {
      OnlyExportsPack(p, o, s, token, request);
    }
  }

  /** Whatever a bundle's transaction computed on the part can be written back. */
  lemma ImportWritable(p: Platform, o: Oracle, s: State, dbNow: int, sc: Scope, token: string, colony: Id, id: Id, b: Bundle, orig: Orig)
    requires Inv(p, s) && FreshMail(o, s) && IsBundleScope(sc, token, colony, b)
    requires Remembers(orig, Load(s, Discover(p, s, sc, dbNow)))
    requires Handlers.ImportBundle(p, o, Load(s, Discover(p, s, sc, dbNow)), token, colony, id, b).Ok?
    ensures var f := Discover(p, s, sc, dbNow);
            var st := Handlers.ImportBundle(p, o, Load(s, f), token, colony, id, b).value.0;
            && PartOf(Load(s, f), s) && Grown(s, st, orig, AllMail(st.colonies))
            && Importing(f, s, Load(s, f), st, o, |b.messages| + 1)
  {
    hide Inv, FreshMail, Load, Discover, Remembers, PartOf, Grown, Mails, MailFree, IsBundleScope, Handlers.ImportBundle, Importing, AllDeclared;
    var f := Discover(p, s, sc, dbNow);
    var st := Handlers.ImportBundle(p, o, Load(s, f), token, colony, id, b).value.0;
    LoadIsPart(s, f);
    BundleDeclared(p, s, sc, token, colony, b, dbNow);
    ChainsCount(p, s);
    ImportStays(p, o, f, s, token, colony, id, b);
    ImportIsGrown(o, s, f, orig, AllMail(st.colonies), st, |b.messages| + 1);
  }

  lemma ImportTransaction(p: Platform, o: Oracle, s: State, dbNow: int, sc: Scope, token: string, colony: Id, id: Id, b: Bundle, orig: Orig)
    requires Inv(p, s) && NoBlankIds(s) && dbNow < o.wall && Fresh(s, o) && FreshMail(o, s) && IsBundleScope(sc, token, colony, b)
    requires Remembers(orig, Load(s, Discover(p, s, sc, dbNow))) && BundleFindable(s, colony, b)
    requires Handlers.ImportBundle(p, o, Load(s, Discover(p, s, sc, dbNow)), token, colony, id, b).Ok?
    ensures var op := Op.Import(token, colony, id, b);
            var st := Handlers.ImportBundle(p, o, Load(s, Discover(p, s, sc, dbNow)), token, colony, id, b).value.0;
            && Exec(p, o, s, op).Ok? && Merge(s, st) == KeepBundles(s, Exec(p, o, s, op).value)
            && Inv(p, Merge(s, st)) && "" !in Merge(s, st).actions && Acceptable(s, orig, st)
  {
    hide Inv, NoBlankIds, Fresh, FreshMail, Load, Discover, Remembers, Merge, KeepBundles, PartOf, Grown, Acceptable, Mails, IsBundleScope,
         Handlers.ImportBundle, Importing, Sees, BundleFindable, KeysFree;
    var f := Discover(p, s, sc, dbNow);
    var part, op := Load(s, f), Op.Import(token, colony, id, b);
    var st := Handlers.ImportBundle(p, o, part, token, colony, id, b).value.0;
    ScopedImport(p, o, s, dbNow, sc, token, colony, id, b);
    BundleGood(p, o, s, token, colony, id, b);
    KeptBundlesAreSkin(p, s, Exec(p, o, s, op).value);
    BlankStaysOut(p, o, s, op);
    ImportInserts(p, o, s, dbNow, sc, token, colony, id, b);
    BlankNotInPart(p, s, sc, dbNow);
    BlankIsFree(s, part, st);
    ImportWritable(p, o, s, dbNow, sc, token, colony, id, b, orig);
    LoadSees(p, s, f);
    ImportIsAccepted(p, o, s, f, orig, AllMail(st.colonies), st, |b.messages| + 1);
  }

  lemma RememberedTrades(orig: Orig, part: State)
    requires Remembers(orig, part)
    ensures orig.trades == part.trades
  {
    hide StoresAccounts, StoresProcessed;
  }

  lemma BlankIsFree(s: State, part: State, st: State)
    requires KeysFree(s.trades, part.trades, st.trades) && "" !in part.trades
    ensures "" in st.trades ==> "" !in s.trades
  {
  }

  lemma SweepTransaction(p: Platform, o: Oracle, s: State, dbNow: int, due: seq<Id>, order: seq<Id>, orig: Orig)
    requires Inv(p, s) && NoBlankIds(s) && Fresh(s, o) && FreshMail(o, s) && (forall id :: id in order ==> id in Ids(due))
    requires Remembers(orig, Load(s, Discover(p, s, SweepScope(due), dbNow)))
    ensures var part := Load(s, Discover(p, s, SweepScope(due), dbNow));
            var st := Sweep(p, o.now, part, order);
            && PartOf(part, s) && Merge(s, st) == Sweep(p, o.now, s, order)
            && Inv(p, Merge(s, st)) && "" !in Merge(s, st).actions
            && Grown(s, st, orig, AllMail(st.colonies)) && Acceptable(s, orig, st)
  {
    hide Inv, NoBlankIds, Fresh, FreshMail, Load, Discover, Remembers, Merge, PartOf, Grown, Acceptable, Mails, MailFree, Sweep,
         Works, Keyed, Sees, Evolves;
    var f := Discover(p, s, SweepScope(due), dbNow);
    var part := Load(s, f);
    var st := Sweep(p, o.now, part, order);
    ScopedSweep(p, s, o.now, dbNow, due, order);
    LoadIsPart(s, f);
    SweepGood(p, o.now, s, order);
    BlankStaysOut(p, o, s, SweepExpired(order));
    ChainsCount(p, s);
    LoadWorks(p, s, f, o);
    LoadKeyed(f, part);
    SweepImporting(p, f, s, part, o, order);
    LoadSees(p, s, f);
    BlankNotInPart(p, s, SweepScope(due), dbNow);
    SweepTrades(p, o.now, part, order);
    ImportIsGrown(o, s, f, orig, AllMail(st.colonies), st, |order|);
    ImportIsAccepted(p, o, s, f, orig, AllMail(st.colonies), st, |order|);
  }

  class Database {
    const p: Platform
    var t: Tables
    ghost var whole: State

    /** The tables hold a sound state. */
    ghost predicate Valid()
      reads this
    {
      Stores(t, whole) && Inv(p, whole) && "" !in whole.actions
    }

    constructor (platform: Platform, tables: Tables, ghost s: State)
      requires Stores(tables, s) && Inv(platform, s) && "" !in s.actions
      ensures Valid() && whole == s && p == platform
    {
      p, t, whole := platform, tables, s;
    }

    lemma NothingBlank()
      requires Valid()
      ensures NoBlankIds(whole)
    {
      hide Stores, Accounting, Conserved, Mirrored, AllChained, Replays, Outcomes, SupplyBounds, DualControl, Homes, ClaimRows, TradeRow;
    }

    /** A request in one transaction on the rows of its scope: the whole state moves exactly as the handler says. */
    method Serve(token: string, request: Request, o: Oracle, dbNow: int) returns (r: Result<()>)
      requires Valid() && Fresh(whole, o) && FreshMail(o, whole) && dbNow < o.wall
      modifies this
      ensures Valid()
      ensures var done := Exec(p, o, old(whole), Act(token, request));
              if Blanked(p, o, old(whole), token, request) then r.Err? && whole == old(whole) && t == old(t)
              else if done.Ok? then r == Ok(()) && whole == KeepBundles(old(whole), done.value)
              else r == Err(done.error) && whole == old(whole) && t == old(t)
    {
      hide Stores, Inv, NoBlankIds, Fresh, FreshMail, Load, Discover, Remembers, Merge, KeepBundles, PartOf, Grown, Acceptable, Plan, Post, ScopeOf, Blanked;
      NothingBlank();
      var f := FindRows(p, t, ScopeOf(token, request), dbNow, whole);
      var part, orig := LoadRows(t, f, whole);
      var work := new AppState(part);
      RequestAgreesExactly(p, o, whole, dbNow, token, request);
      var done := work.Serve(p, o, token, request);
      if done.Err? {
        return done;
      }
      RequestTransaction(p, o, t, whole, dbNow, token, request, orig);
      var written := Persist.Persist(t, work.View(), orig, whole, part, AllMail(work.View().colonies));
      t, whole := written.value, Merge(whole, work.View());
      return Ok(());
    }

    /** A bundle imported in one transaction on the rows its own contents name. */
    method Import(token: string, colony: Id, id: Id, b: Bundle, o: Oracle, dbNow: int) returns (r: Result<ImportResult>)
      requires Valid() && Fresh(whole, o) && FreshMail(o, whole) && dbNow < o.wall
      modifies this
      ensures Valid()
      ensures var done := Handlers.ImportBundle(p, o, old(whole), token, colony, id, b);
              if !BundleFindable(old(whole), colony, b) then r.Err? && whole == old(whole) && t == old(t)
              else if done.Ok? then r == Ok(done.value.1) && whole == KeepBundles(old(whole), done.value.0)
              else r == Err(done.error) && whole == old(whole) && t == old(t)
    {
      hide Stores, Inv, NoBlankIds, Fresh, FreshMail, Load, Discover, Remembers, Merge, KeepBundles, PartOf, Grown, Acceptable,
           Handlers.ImportBundle, IsBundleScope, BundleFindable, Importing, KeysFree;
      NothingBlank();
      var sc := BundleScope(token, colony, b);
      var f := FindRows(p, t, sc, dbNow, whole);
      var part, orig := LoadRows(t, f, whole);
      var work := new AppState(part);
      if BundleFindable(whole, colony, b) {
        ScopedImport(p, o, whole, dbNow, sc, token, colony, id, b);
      }
      r := work.ImportBundle(p, o, token, colony, id, b);
      if r.Err? {
        return;
      }
      ImportWritable(p, o, whole, dbNow, sc, token, colony, id, b, orig);
      ImportInserts(p, o, whole, dbNow, sc, token, colony, id, b);
      RememberedTrades(orig, part);
      if BundleFindable(whole, colony, b) {
        ImportTransaction(p, o, whole, dbNow, sc, token, colony, id, b, orig);
      }
      var written := Persist.Persist(t, work.View(), orig, whole, part, AllMail(work.View().colonies));
      if written.Err? {
        return Err(written.error);
      }
      t, whole := written.value, Merge(whole, work.View());
    }

    /** The sweep in one transaction on the offers the index reported as due; the empty id among them is passed over. */
    method Sweep(due: seq<Id>, o: Oracle, dbNow: int) returns (count: nat, ghost order: seq<Id>)
      requires Valid() && Fresh(whole, o) && FreshMail(o, whole)
      modifies this
      ensures Valid()
      ensures whole == Handlers.Sweep(p, o.now, old(whole), order)
      ensures forall id :: id in order <==> id in Ids(due) && id in old(whole.trades)
      ensures count == |DueTrades(p, o.now, Restrict(old(whole).trades, Ids(due)))|
    {
      hide Stores, Inv, NoBlankIds, Fresh, FreshMail, Discover, Remembers, Merge, PartOf, Grown, Acceptable, Handlers.Sweep, LoadColony, DueTrades;
      NothingBlank();
      var f := FindRows(p, t, SweepScope(due), dbNow, whole);
      var part, orig := LoadRows(t, f, whole);
      SweepFinds(p, whole, due, dbNow);
      var work := new AppState(part);
      count, order := work.SweepExpired(p, o);
      SweepTransaction(p, o, whole, dbNow, due, order, orig);
      var written := Persist.Persist(t, work.View(), orig, whole, part, AllMail(work.View().colonies));
      t, whole := written.value, Merge(whole, work.View());
    }
  }

  /** A sweep scope finds the due trades and no others. */
  lemma SweepFinds(p: Platform, s: State, due: seq<Id>, dbNow: int)
    ensures Discover(p, s, SweepScope(due), dbNow).trades == Ids(due)
  {
    hide SessionUsers, Trading, OwnerColonies, DealUsers, DealColonies;
    assert Deciding(s, Ids([])) == map[];
    assert ActionTrades(map[]) == {};
  }
}
