/** One step on the discovered rows against the same step on the whole state. */
module Simulation {
  import opened Basics
  import opened Model
  import opened Scopes

  // ---- a step on the part is the step on the whole ----------------------------------

  lemma TouchMerges(was: Colony, c: Colony, fx: Effect)
    ensures MergeColony(was, Touch(c, fx)) == Touch(MergeColony(was, c), fx)
  {
    assert was.accounts + Put(c.accounts, fx.account) == Put(was.accounts + c.accounts, fx.account);
  }

  lemma AppendMerges(p: Platform, id: Id, was: Colony, c: Colony, time: string, actor: Id, payload: Payload)
    requires Prev(c) == Prev(MergeColony(was, c))
    ensures MergeColony(was, Append(p, id, c, time, actor, payload)) == Append(p, id, MergeColony(was, c), time, actor, payload)
  {
    hide HashLedgerEntry, HeadHash;
    var e := NextEntry(p, id, c, time, actor, payload);
    assert was.ledger + (c.ledger + [e]) == (was.ledger + c.ledger) + [e];
  }

  lemma DebtMerges(was: Colony, c: Colony, colony: Id, owed: int64)
    ensures MergeColony(was, c.(netObligations := c.netObligations[colony := owed]))
            == MergeColony(was, c).(netObligations := c.netObligations[colony := owed])
  {
  }

  /** The effect writes only colonies the part has, or colonies nobody has. */
  ghost predicate Within(base: State, part: State, full: State, fx: Effect) {
    && (fx.founded.Some? ==> fx.founded.value.0 !in base.colonies && fx.founded.value.0 !in part.colonies
                             && fx.founded.value.0 !in full.colonies && fx.founded.value.0 == fx.colony)
    && (fx.founded.None? ==> (fx.colony in part.colonies <==> fx.colony in full.colonies))
    && (fx.colony in part.colonies && fx.colony in full.colonies ==> Prev(part.colonies[fx.colony]) == Prev(full.colonies[fx.colony]))
    && (fx.claim.Some? ==> fx.founded.None? && (fx.claim.value.peer in part.colonies <==> fx.claim.value.peer in full.colonies))
  }

  lemma FoundMerges(base: State, part: State, full: State, fx: Effect)
    requires Within(base, part, full, fx) && MergeColonies(base.colonies, part.colonies) == full.colonies
    ensures MergeColonies(base.colonies, Put(part.colonies, fx.founded)) == Put(full.colonies, fx.founded)
  {
    hide MergeColony;
  }

  lemma OneMerges(was: map<Id, Colony>, part: map<Id, Colony>, full: map<Id, Colony>, c: Id, x: Colony, y: Colony)
    requires MergeColonies(was, part) == full && c in part
    requires y == if c in was then MergeColony(was[c], x) else x
    ensures MergeColonies(was, part[c := x]) == full[c := y]
  {
    hide MergeColony;
  }

  lemma ColoniesMerge(p: Platform, now: int, was: map<Id, Colony>, part: map<Id, Colony>, full: map<Id, Colony>, fx: Effect)
    requires MergeColonies(was, part) == full
    requires fx.colony in part <==> fx.colony in full
    requires fx.colony in part ==> Prev(part[fx.colony]) == Prev(full[fx.colony])
    requires fx.claim.Some? ==> (fx.claim.value.peer in part <==> fx.claim.value.peer in full)
    ensures MergeColonies(was, PostColonies(p, now, part, fx)) == PostColonies(p, now, full, fx)
  {
    hide MergeColony, MergeColonies, Append, Touch, Prev;
    if fx.colony in part {
      var id := fx.colony;
      EntryMerges(p, now, was, part, full, fx);
      var x := Append(p, id, Touch(part[id], fx), Stamp(p, now), fx.actor, fx.payload);
      var y := Append(p, id, Touch(full[id], fx), Stamp(p, now), fx.actor, fx.payload);
      OneMerges(was, part, full, id, x, y);
      OweMerges(was, part[id := x], full[id := y], fx);
    }
  }

  lemma EntryMerges(p: Platform, now: int, was: map<Id, Colony>, part: map<Id, Colony>, full: map<Id, Colony>, fx: Effect)
    requires MergeColonies(was, part) == full && fx.colony in part && fx.colony in full
    requires Prev(part[fx.colony]) == Prev(full[fx.colony])
    ensures var x := Append(p, fx.colony, Touch(part[fx.colony], fx), Stamp(p, now), fx.actor, fx.payload);
            var y := Append(p, fx.colony, Touch(full[fx.colony], fx), Stamp(p, now), fx.actor, fx.payload);
            y == if fx.colony in was then MergeColony(was[fx.colony], x) else x
  {
    hide Append, Touch, MergeColony;
    var id := fx.colony;
    if id in was {
      TouchMerges(was[id], part[id], fx);
      TouchKeepsPrev(part[id], fx);
      TouchKeepsPrev(full[id], fx);
      AppendMerges(p, id, was[id], Touch(part[id], fx), Stamp(p, now), fx.actor, fx.payload);
    }
  }

  lemma TouchKeepsPrev(c: Colony, fx: Effect)
    ensures Prev(Touch(c, fx)) == Prev(c)
  {
  }

  lemma OweMerges(was: map<Id, Colony>, part: map<Id, Colony>, full: map<Id, Colony>, fx: Effect)
    requires MergeColonies(was, part) == full
    requires fx.claim.Some? ==> (fx.claim.value.peer in part <==> fx.claim.value.peer in full)
    ensures MergeColonies(was, Owe(part, fx)) == Owe(full, fx)
  {
    if fx.claim.Some? && fx.claim.value.peer in part {
      var peer := fx.claim.value.peer;
      var c := part[peer];
      var x := c.(netObligations := c.netObligations[fx.colony := fx.claim.value.obligations]);
      if peer in was {
        DebtMerges(was[peer], c, fx.colony, fx.claim.value.obligations);
      }
      OneMerges(was, part, full, peer, x, Owe(full, fx)[peer]);
    }
  }

  /** Posting on the part and writing back is posting on the whole. */
  lemma PostMerges(p: Platform, now: int, base: State, part: State, full: State, fx: Effect)
    requires Merge(base, part) == KeepBundles(base, full) && Within(base, part, full, fx)
    ensures Merge(base, Post(p, now, part, fx)) == KeepBundles(base, Post(p, now, full, fx))
  {
    hide MergeColonies, PostColonies, Prev, Within, Put;
    PostedColoniesMerge(p, now, base, part, full, fx);
    PutMerges(base.users, part.users, full.users, fx.user);
    PutMerges(base.trades, part.trades, full.trades, fx.trade);
    PutMerges(base.actions, part.actions, full.actions, fx.action);
    PutUnder(base.bundles, part.bundles, full.bundles, fx.bundle);
  }

  lemma PostedColoniesMerge(p: Platform, now: int, base: State, part: State, full: State, fx: Effect)
    requires MergeColonies(base.colonies, part.colonies) == full.colonies && Within(base, part, full, fx)
    ensures MergeColonies(base.colonies, PostColonies(p, now, Put(part.colonies, fx.founded), fx))
            == PostColonies(p, now, Put(full.colonies, fx.founded), fx)
  {
    hide MergeColonies, PostColonies, Prev;
    FoundMerges(base, part, full, fx);
    ColoniesMerge(p, now, base.colonies, Put(part.colonies, fx.founded), Put(full.colonies, fx.founded), fx);
  }

  lemma PutMerges<V>(was: map<Id, V>, part: map<Id, V>, full: map<Id, V>, row: Option<(Id, V)>)
    requires was + part == full
    ensures was + Put(part, row) == Put(full, row)
  {
  }

  lemma PutUnder<V>(was: map<Id, V>, part: map<Id, V>, full: map<Id, V>, row: Option<(Id, V)>)
    requires part + was == full + was
    ensures Put(part, row) + was == Put(full, row) + was
  {
    if row.Some? {
      var k := row.value.0;
      forall x | x in Put(part, row) + was ensures x in Put(full, row) + was && (Put(part, row) + was)[x] == (Put(full, row) + was)[x] {
        assert x != k && x !in was ==> x in part + was && (part + was)[x] == (full + was)[x];
      }
      forall x | x in Put(full, row) + was ensures x in Put(part, row) + was {
        assert x != k && x !in was ==> x in full + was;
      }
    }
  }

  // ---- the loaded rows keep answering while the handler works ---------------------------

  lemma TouchSees(f: Found, c: Colony, full: Colony, fx: Effect)
    requires SeesColony(f, c, full)
    ensures SeesColony(f, Touch(c, fx), Touch(full, fx))
  {
    forall u | Knows(f.users, u) ensures Same(Put(c.accounts, fx.account), Put(full.accounts, fx.account), u) {
      assert Same(c.accounts, full.accounts, u);
    }
  }

  lemma AppendSees(p: Platform, f: Found, id: Id, c: Colony, full: Colony, time: string, actor: Id, payload: Payload)
    requires SeesColony(f, c, full)
    ensures SeesColony(f, Append(p, id, c, time, actor, payload), Append(p, id, full, time, actor, payload))
  {
    hide HashLedgerEntry, Same, Knows;
  }

  lemma DebtSees(f: Found, c: Colony, full: Colony, colony: Id, owed: int64)
    requires SeesColony(f, c, full)
    ensures SeesColony(f, c.(netObligations := c.netObligations[colony := owed]), full.(netObligations := full.netObligations[colony := owed]))
  {
    hide Same, Knows;
  }

  lemma ColoniesSee(p: Platform, now: int, f: Found, part: map<Id, Colony>, full: map<Id, Colony>, fx: Effect)
    requires SeesColonies(f, part, full) && Knows(f.colonies, fx.colony)
    requires fx.claim.Some? ==> Knows(f.colonies, fx.claim.value.peer)
    ensures SeesColonies(f, PostColonies(p, now, part, fx), PostColonies(p, now, full, fx))
  {
    hide Append, Touch, SeesColony, Knows;
    if fx.colony in part {
      var id := fx.colony;
      TouchSees(f, part[id], full[id], fx);
      AppendSees(p, f, id, Touch(part[id], fx), Touch(full[id], fx), Stamp(p, now), fx.actor, fx.payload);
      var part1 := part[id := Append(p, id, Touch(part[id], fx), Stamp(p, now), fx.actor, fx.payload)];
      var full1 := full[id := Append(p, id, Touch(full[id], fx), Stamp(p, now), fx.actor, fx.payload)];
      assert SeesColonies(f, part1, full1);
      if fx.claim.Some? && fx.claim.value.peer in part1 {
        var peer := fx.claim.value.peer;
        DebtSees(f, part1[peer], full1[peer], id, fx.claim.value.obligations);
      }
    }
  }

  lemma PutSees<V>(ids: set<Id>, part: map<Id, V>, full: map<Id, V>, row: Option<(Id, V)>)
    requires forall k :: Knows(ids, k) ==> Same(part, full, k)
    ensures forall k :: Knows(ids, k) ==> Same(Put(part, row), Put(full, row), k)
  {
    forall k | Knows(ids, k) ensures Same(Put(part, row), Put(full, row), k) {
      assert Same(part, full, k);
    }
  }

  lemma PutSeesRows<V>(ids: set<Id>, part: map<Id, V>, full: map<Id, V>, row: Option<(Id, V)>)
    requires forall k :: k in ids ==> Same(part, full, k)
    ensures forall k :: k in ids ==> Same(Put(part, row), Put(full, row), k)
  {
    forall k | k in ids ensures Same(Put(part, row), Put(full, row), k) {
      assert Same(part, full, k);
    }
  }

  lemma PostSees(p: Platform, now: int, f: Found, part: State, full: State, fx: Effect)
    requires Sees(f, part, full) && fx.founded.None? && Knows(f.colonies, fx.colony)
    requires fx.claim.Some? ==> Knows(f.colonies, fx.claim.value.peer)
    ensures Sees(f, Post(p, now, part, fx), Post(p, now, full, fx))
  {
    hide PostColonies, SeesColonies, Put, Same, Knows;
    assert Put(part.colonies, fx.founded) == part.colonies && Put(full.colonies, fx.founded) == full.colonies by { NoRow(part.colonies); NoRow(full.colonies); }
    ColoniesSee(p, now, f, part.colonies, full.colonies, fx);
    PutSees(f.users, part.users, full.users, fx.user);
    PutSeesRows(f.trades, part.trades, full.trades, fx.trade);
    PutSees(f.actions, part.actions, full.actions, fx.action);
  }

  lemma NoRow<V>(m: map<Id, V>)
    ensures Put(m, None) == m
  {
  }

  lemma MarkSees(f: Found, part: State, full: State, colony: Id, e: Id)
    requires Sees(f, part, full) && Knows(f.colonies, colony)
    ensures Sees(f, MarkProcessed(part, colony, e), MarkProcessed(full, colony, e))
  {
    hide Same, Knows;
    if colony in part.colonies {
      assert SeesColony(f, part.colonies[colony], full.colonies[colony]);
    }
  }

  lemma MarkMerges(base: State, part: State, full: State, colony: Id, e: Id)
    requires Merge(base, part) == KeepBundles(base, full) && (colony in part.colonies <==> colony in full.colonies)
    ensures Merge(base, MarkProcessed(part, colony, e)) == KeepBundles(base, MarkProcessed(full, colony, e))
  {
    hide MergeColonies, MergeColony;
    if colony in part.colonies {
      var c := part.colonies[colony];
      var x := c.(processed := c.processed + {e});
      MarkedMerges(base.colonies, part.colonies, full.colonies, colony, e);
    }
  }

  lemma MarkedMerges(was: map<Id, Colony>, part: map<Id, Colony>, full: map<Id, Colony>, c: Id, e: Id)
    requires MergeColonies(was, part) == full && c in part && c in full
    ensures MergeColonies(was, part[c := part[c].(processed := part[c].processed + {e})])
            == full[c := full[c].(processed := full[c].processed + {e})]
  {
    var x := part[c].(processed := part[c].processed + {e});
    var y := full[c].(processed := full[c].processed + {e});
    if c in was {
      assert full[c] == MergeColony(was[c], part[c]);
      assert was[c].processed + x.processed == y.processed;
    }
    OneMerges(was, part, full, c, x, y);
  }
}
