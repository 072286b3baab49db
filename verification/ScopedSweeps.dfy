/** The sweep of the offers a scope was told are due. */
module ScopedSweeps {
  import opened TradeTable
  import opened Model
  import opened Handlers
  import opened Invariant
  import opened Service
  import opened Scopes
  import opened Simulation
  import opened ScopedImports
  import opened ScopedRequests
  import opened BlankTrades

  ghost predicate SweepInStep(base: State, f: Found, part: State, full: State) {
    Sees(f, part, full) && Closed(f, full) && Merge(base, part) == KeepBundles(base, full)
  }

  lemma ExpireInStep(p: Platform, now: int, base: State, f: Found, part: State, full: State, id: Id)
    requires SweepInStep(base, f, part, full) && id in f.trades
    ensures SweepInStep(base, f, ExpiredOne(p, now, part, id), ExpiredOne(p, now, full, id))
  {
    hide Post, Merge, KeepBundles, Sees, Closed, Due;
    TradeSeen(f, part, full, id);
    var fx := PlanExpire(p, now, full, id);
    if fx.Some? {
      var t := full.trades[id];
      ExpiryInside(f, t.sellerColony, id, t, fx.value);
      PostSees(p, now, f, part, full, fx.value);
      PostCloses(p, now, f, full, "", t.sellerColony, fx.value);
      ColonyWithin(base, f, part, full, fx.value);
      PostMerges(p, now, base, part, full, fx.value);
    }
  }

  lemma ExpiryInside(f: Found, colony: Id, id: Id, t: Trade, fx: Effect)
    requires fx == CloseEffect("", id, t.(status := Expired), OfferExpired(id, t.expiresAt)) && colony == t.sellerColony
    requires ClosedTrade(f, t)
    ensures Inside(f, "", colony, fx) && fx.claim.None?
  {
  }

  lemma ColonyWithin(base: State, f: Found, part: State, full: State, fx: Effect)
    requires Sees(f, part, full) && Knows(f.colonies, fx.colony) && fx.founded.None? && fx.claim.None?
    ensures Within(base, part, full, fx)
  {
    hide SeesColony;
    if fx.colony in part.colonies {
      SeesOutbox(f, part, full, fx.colony);
    }
  }

  /** A sweep expires exactly the due offers it visits; every other trade, and every bundle, stays as it was. */
  lemma {:induction false} SweepTrades(p: Platform, now: int, s: State, order: seq<Id>)
    ensures var s' := Sweep(p, now, s, order);
            && s'.trades.Keys == s.trades.Keys && s'.bundles == s.bundles
            && forall id :: id in s.trades ==>
                 s'.trades[id] == if id in order then Swept(p, now, s.trades[id]) else s.trades[id]
  {
    hide PostColonies, IsExpired;
    if order != [] {
      SweepTrades(p, now, s, order[..|order| - 1]);
      assert order == order[..|order| - 1] + [order[|order| - 1]];
    }
  }

  /** Neither side has an offer to expire under this id. */
  predicate Idle(p: Platform, now: int, part: State, full: State, id: Id) {
    id !in part.trades && (id in full.trades ==> !Due(p, now, full.trades[id]))
  }

  lemma {:induction false} SweepsInStep(p: Platform, now: int, base: State, f: Found, part: State, full: State, order: seq<Id>)
    requires SweepInStep(base, f, part, full) && forall id :: id in order ==> id in f.trades || Idle(p, now, part, full, id)
    ensures SweepInStep(base, f, Sweep(p, now, part, order), Sweep(p, now, full, order))
  {
    hide SweepInStep, ExpiredOne, Sweep;
    if order == [] {
      SweepNone(p, now, part);
      SweepNone(p, now, full);
    } else {
      var rest, id := order[..|order| - 1], order[|order| - 1];
      assert order == rest + [id];
      SweepsInStep(p, now, base, f, part, full, rest);
      SweepNext(p, now, part, rest, id);
      SweepNext(p, now, full, rest, id);
      if id in f.trades {
        ExpireInStep(p, now, base, f, Sweep(p, now, part, rest), Sweep(p, now, full, rest), id);
      } else {
        SweepTrades(p, now, part, rest);
        SweepTrades(p, now, full, rest);
        NothingExpires(p, now, Sweep(p, now, part, rest), id);
        NothingExpires(p, now, Sweep(p, now, full, rest), id);
      }
    }
  }

  lemma NothingExpires(p: Platform, now: int, s: State, id: Id)
    requires id in s.trades ==> !Due(p, now, s.trades[id])
    ensures ExpiredOne(p, now, s, id) == s
  {
  }

  function SweepScope(due: seq<Id>): Scope {
    Scope([], [], due, [], [], [], false)
  }

  /** The sweep comes to an offer with the empty id that is due. */
  predicate SweepsBlank(p: Platform, s: State, now: int, order: seq<Id>) {
    "" in order && "" in s.trades && Due(p, now, s.trades[""])
  }

  lemma SweepKeepsBundles(p: Platform, now: int, s: State, order: seq<Id>)
    ensures KeepBundles(s, Sweep(p, now, s, order)) == Sweep(p, now, s, order)
  {
    hide Sweep, Due;
    SweepTrades(p, now, s, order);
    assert s.bundles + s.bundles == s.bundles;
  }

  lemma DueIsFound(p: Platform, s: State, dbNow: int, due: seq<Id>, id: Id)
    requires id in due && id != ""
    ensures id in Discover(p, s, SweepScope(due), dbNow).trades
  {
    hide SessionUsers, Deciding, Trading;
  }

  /** Sweeping the loaded offers and writing them back is sweeping them in the whole state, unless the empty id is among them. */
  lemma ScopedSweep(p: Platform, s: State, now: int, dbNow: int, due: seq<Id>, order: seq<Id>)
    requires Inv(p, s) && NoBlankIds(s) && (forall id :: id in order ==> id in due)
    ensures var part := Load(s, Discover(p, s, SweepScope(due), dbNow));
            Merge(s, Sweep(p, now, part, order)) == Sweep(p, now, s, order) <==> !SweepsBlank(p, s, now, order)
  {
    hide Inv, NoBlankIds, Sweep, Load, Discover, Merge, KeepBundles, Sees, Closed, Due;
    var f := Discover(p, s, SweepScope(due), dbNow);
    var part := Load(s, f);
    BlankNotInPart(p, s, SweepScope(due), dbNow);
    if SweepsBlank(p, s, now, order) {
      BlankIsNotSwept(p, s, part, now, order);
    } else {
      LoadSees(p, s, f);
      LoadMerges(s, f);
      KeepNothing(s);
      DiscoverCloses(p, s, SweepScope(due), dbNow);
      forall id | id in order ensures id in f.trades || Idle(p, now, part, s, id) {
        if id != "" {
          DueIsFound(p, s, dbNow, due, id);
        }
      }
      SweepsInStep(p, now, s, f, part, s, order);
      SweepKeepsBundles(p, now, s, order);
    }
  }

  lemma BlankIsNotSwept(p: Platform, s: State, part: State, now: int, order: seq<Id>)
    requires "" !in part.trades && SweepsBlank(p, s, now, order)
    ensures Merge(s, Sweep(p, now, part, order)) != Sweep(p, now, s, order)
  {
    hide Sweep, MergeColonies;
    SweepTrades(p, now, part, order);
    SweepTrades(p, now, s, order);
    assert Merge(s, Sweep(p, now, part, order)).trades[""] == s.trades[""];
  }
}
