/** A stored bundle is overwritten in memory and kept in the database: exactly when that makes a difference. */
module StoredBundles {
  import opened Basics
  import opened TradeTable
  import opened Model
  import opened Handlers
  import opened Runs
  import opened Scopes

  /** Another bundle is already stored under the id. */
  predicate Overwrites(s: State, id: Id, b: Bundle) {
    id in s.bundles && s.bundles[id] != b
  }

  lemma KeptExactly(s: State, s': State, id: Id, b: Bundle)
    requires s'.bundles == s.bundles[id := b]
    ensures KeepBundles(s, s') == s' <==> !Overwrites(s, id, b)
  {
    if Overwrites(s, id, b) {
      assert KeepBundles(s, s').bundles[id] != s'.bundles[id];
    } else {
      assert s'.bundles + s.bundles == s'.bundles;
    }
  }

  /** The two stores end in the same state after an import exactly when no other bundle had the same id. */
  lemma ImportKeepsExactly(p: Platform, o: Oracle, s: State, token: string, colony: Id, id: Id, b: Bundle)
    requires ImportBundle(p, o, s, token, colony, id, b).Ok?
    ensures var s' := ImportBundle(p, o, s, token, colony, id, b).value.0; KeepBundles(s, s') == s' <==> !Overwrites(s, id, b)
  {
    hide CheckImport, ImportUpTo, PostColonies, KeepBundles, Overwrites;
    var s' := ImportBundle(p, o, s, token, colony, id, b).value.0;
    LoopKeepsRows(p, o, s, b.from, colony, b.messages, |b.messages|);
    KeptExactly(s, s', id, b);
  }

  /** The bundle an export makes, under the id it draws. */
  function ExportedBundle(p: Platform, o: Oracle, s: State, request: Request): Bundle
    requires request.ExportBundle? && request.colony in s.colonies
  {
    Bundle(request.colony, request.to, Stamp(p, o.now), Wrapped(Picked(s.colonies[request.colony].outbox, request.to)))
  }

  /** The request exports under the id of another stored bundle. */
  predicate ExportOverwrites(p: Platform, o: Oracle, s: State, request: Request) {
    request.ExportBundle? && request.colony in s.colonies && Overwrites(s, o.newId, ExportedBundle(p, o, s, request))
  }

  predicate PacksNothing(fx: Effect) {
    fx.bundle.None? && fx.drain.None?
  }

  lemma TradesPackNothing(p: Platform, o: Oracle, s: State, token: string, request: Request)
    requires Plan(p, o, s, token, request).Ok?
    requires request.CreateOffer? || request.AcceptTrade? || request.CancelTrade? || request.DecideApproval?
    ensures PacksNothing(Plan(p, o, s, token, request).value)
  {
    hide Actor, IsExpired, AddChecked, TrimSpace, Wrap, Past, Sealed, Stamp, TransitionAllowed;
  }

  lemma OthersPackNothing(p: Platform, o: Oracle, s: State, token: string, request: Request)
    requires Plan(p, o, s, token, request).Ok? && !request.CreateOffer? && !request.AcceptTrade? && !request.CancelTrade? && !request.DecideApproval? && !request.ExportBundle?
    ensures PacksNothing(Plan(p, o, s, token, request).value)
  {
    hide Actor, AddChecked, TrimSpace, Picked, Wrapped, Stamp, EffectiveMintCap, CanManageColony, CanRelay, HasRole, ValidatePolicy;
  }

  /** Only an export stores a bundle or drains an outbox. */
  lemma OnlyExportsPack(p: Platform, o: Oracle, s: State, token: string, request: Request)
    requires !request.ExportBundle? && Plan(p, o, s, token, request).Ok?
    ensures PacksNothing(Plan(p, o, s, token, request).value)
  {
    hide Plan, PacksNothing;
    if request.CreateOffer? || request.AcceptTrade? || request.CancelTrade? || request.DecideApproval? {
      TradesPackNothing(p, o, s, token, request);
    } else {
      OthersPackNothing(p, o, s, token, request);
    }
  }

  /** The same for a request: only an export stores a bundle, under an id it draws. */
  lemma RequestKeepsExactly(p: Platform, o: Oracle, s: State, token: string, request: Request)
    requires Plan(p, o, s, token, request).Ok?
    ensures var s' := Post(p, o.now, s, Plan(p, o, s, token, request).value);
            KeepBundles(s, s') == s' <==> !ExportOverwrites(p, o, s, request)
  {
    hide PostColonies, KeepBundles, Overwrites, ExportedBundle;
    var fx := Plan(p, o, s, token, request).value;
    if request.ExportBundle? {
      ExportStores(p, o, s, token, request);
      KeptExactly(s, Post(p, o.now, s, fx), o.newId, ExportedBundle(p, o, s, request));
    } else {
      hide Plan;
      OnlyExportsPack(p, o, s, token, request);
      KeptAlike(s, Post(p, o.now, s, fx));
    }
  }

  lemma ExportStores(p: Platform, o: Oracle, s: State, token: string, request: Request)
    requires request.ExportBundle? && Plan(p, o, s, token, request).Ok?
    ensures request.colony in s.colonies
    ensures Plan(p, o, s, token, request).value.bundle == Some((o.newId, ExportedBundle(p, o, s, request)))
  {
    hide Actor, Picked, Wrapped;
  }

  lemma KeptAlike(s: State, s': State)
    requires s'.bundles == s.bundles
    ensures KeepBundles(s, s') == s'
  {
    assert s.bundles + s.bundles == s.bundles;
  }
}
