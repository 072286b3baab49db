/** The file-backed store: every update runs on a private copy that replaces the live state only when it was saved. */
module Store {
  import opened Basics
  import opened Model
  import opened Handlers
  import opened Invariant
  import opened Runs
  import opened Service

  class Store {
    const p: Platform
    var live: State
    ghost var history: seq<State>

    /** The states the store went through form a run, and the live one is its last. */
    ghost predicate Valid()
      reads this
    {
      Run(p, history) && history[|history| - 1] == live
    }

    /** Whatever requests came, in whatever order, the live state keeps the platform's invariant. */
    lemma LiveIsGood()
      requires Valid()
      ensures Inv(p, live)
    {
      EveryStateIsGood(p, history, |history| - 1);
    }

    constructor (platform: Platform, start: State)
      requires Start(start)
      ensures Valid() && live == start && p == platform
    {
      p, live, history := platform, start, [start];
    }

    /** Replaces the live state by the saved copy. */
    method Swap(work: AppState, saved: bool, ghost op: Op, ghost o: Oracle) returns (r: Result<()>)
      requires Valid() && Fresh(live, o) && Exec(p, o, live, op) == Ok(work.View())
      modifies this
      ensures Valid()
      ensures if saved then r == Ok(()) && live == work.View() && history == old(history) + [live]
              else r == Err(Internal) && live == old(live) && history == old(history)
    {
      hide Exec, Start, Fresh;
      if !saved {
        return Err(Internal);
      }
      assert work.View() == After(p, o, live, op);
      assert Next(p, live, work.View());
      live := work.View();
      history := history + [live];
      return Ok(());
    }

    /** One request. `saved` says whether the copy could be written durably. */
    method Update(token: string, request: Request, o: Oracle, saved: bool) returns (r: Result<()>)
      requires Valid() && Fresh(live, o)
      modifies this
      ensures Valid()
      ensures var done := Exec(p, o, old(live), Act(token, request));
              if done.Ok? && saved then r == Ok(()) && live == done.value && history == old(history) + [live]
              else r == Err(if done.Ok? then Internal else done.error) && live == old(live) && history == old(history)
    {
      var work := new AppState(live);
      var done := work.Serve(p, o, token, request);
      if done.Err? {
        return done;
      }
      r := Swap(work, saved, Act(token, request), o);
    }

    /** A bundle is imported whole or not at all. */
    method Import(token: string, colony: Id, bundleId: Id, b: Bundle, o: Oracle, saved: bool) returns (r: Result<()>)
      requires Valid() && Fresh(live, o)
      modifies this
      ensures Valid()
      ensures var done := Exec(p, o, old(live), Op.Import(token, colony, bundleId, b));
              if done.Ok? && saved then r == Ok(()) && live == done.value && history == old(history) + [live]
              else r == Err(if done.Ok? then Internal else done.error) && live == old(live) && history == old(history)
    {
      hide Handlers.ImportBundle;
      var work := new AppState(live);
      var done := work.ImportBundle(p, o, token, colony, bundleId, b);
      if done.Err? {
        return Err(done.error);
      }
      r := Swap(work, saved, Op.Import(token, colony, bundleId, b), o);
    }

    method Sweep(o: Oracle, saved: bool) returns (r: Result<()>, ghost order: seq<Id>)
      requires Valid() && Fresh(live, o)
      modifies this
      ensures Valid() && forall id :: id in order <==> id in old(live.trades)
      ensures if saved then r == Ok(()) && live == Handlers.Sweep(p, o.now, old(live), order)
              else r == Err(Internal) && live == old(live)
    {
      hide Handlers.Sweep;
      var work := new AppState(live);
      var count;
      count, order := work.SweepExpired(p, o);
      r := Swap(work, saved, SweepExpired(order), o);
    }
  }
}
