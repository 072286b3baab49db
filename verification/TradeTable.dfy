/** The trade status machine: the transition table, reachability and per-trade idempotency. */
module TradeTable {

  // ---- paths in any finite transition table -------------------------------

  function Successors<T>(table: map<T, seq<T>>, s: T): seq<T> {
    if s in table then table[s] else []
  }

  ghost predicate IsPath<T>(table: map<T, seq<T>>, p: seq<T>) {
    |p| > 0 && forall i :: 0 < i < |p| ==> p[i] in Successors(table, p[i - 1])
  }

  ghost predicate Joins<T>(table: map<T, seq<T>>, p: seq<T>, from: T, to: T) {
    |p| >= 2 && IsPath(table, p) && p[0] == from && p[|p| - 1] == to
  }

  /** A path of one or more steps leads from `from` to `to`. */
  ghost predicate Reaches<T(!new)>(table: map<T, seq<T>>, from: T, to: T) {
    exists p :: Joins(table, p, from, to)
  }

  lemma EdgeReaches<T(!new)>(table: map<T, seq<T>>, from: T, to: T)
    requires to in Successors(table, from)
    ensures Reaches(table, from, to)
  {
    assert Joins(table, [from, to], from, to);
  }

  lemma ReachesTransitive<T(!new)>(table: map<T, seq<T>>, a: T, b: T, c: T)
    requires Reaches(table, a, b) && Reaches(table, b, c)
    ensures Reaches(table, a, c)
  {
    var p :| Joins(table, p, a, b);
    var q :| Joins(table, q, b, c);
    var r := p + q[1..];
    forall i | 0 < i < |r| ensures r[i] in Successors(table, r[i - 1]) {
      if i >= |p| {
        assert r[i] == q[i - |p| + 1] && r[i - 1] == q[i - |p|];
      }
    }
    assert Joins(table, r, a, c);
  }

  /** A set closed under the table confines every path that starts in it. */
  lemma {:induction false} ClosedConfines<T(!new)>(table: map<T, seq<T>>, closed: set<T>, p: seq<T>)
    requires IsPath(table, p) && p[0] in closed
    requires forall s :: s in closed ==> forall n :: n in Successors(table, s) ==> n in closed
    ensures forall i :: 0 <= i < |p| ==> p[i] in closed
    ensures |p| > 1 ==> p[|p| - 1] in Successors(table, p[|p| - 2])
  {
    if |p| > 1 {
      ClosedConfines(table, closed, p[..|p| - 1]);
      assert p[|p| - 2] == p[..|p| - 1][|p| - 2];
    }
  }

  /** Every successor of `s` is in `closed` and none is `to`. */
  ghost predicate Settled<T(!new)>(table: map<T, seq<T>>, closed: set<T>, s: T, to: T) {
    forall n :: n in Successors(table, s) ==> n in closed && n != to
  }

  lemma ClosedExcludes<T(!new)>(table: map<T, seq<T>>, closed: set<T>, from: T, to: T)
    requires from in closed
    requires forall s :: s in closed ==> Settled(table, closed, s, to)
    ensures !Reaches(table, from, to)
  {
    forall p | Joins(table, p, from, to) ensures false {
      ClosedConfines(table, closed, p);
    }
  }

  /** The breadth-first search terminates and decides reachability for every finite table. */
  method Reachable<T(==, !new)>(table: map<T, seq<T>>, from: T, to: T) returns (found: bool)
    ensures found <==> Reaches(table, from, to)
  {
    ghost var universe := {from} + set s, n | s in table && n in table[s] :: n;
    var seen := {from};
    var queue := [from];
    while |queue| > 0
      invariant from in seen && seen <= universe
      invariant forall s :: s in queue ==> s in seen
      invariant forall s :: s in seen && s != from ==> Reaches(table, from, s)
      invariant forall s :: s in seen && s !in queue ==> Settled(table, seen, s, to)
      decreases universe - seen, |queue|
    {
      var cur := queue[0];
      ghost var before, waiting := seen, queue;
      queue := queue[1..];
      assert forall s :: s in waiting ==> s == cur || s in waiting[1..];
      var next := if cur in table then table[cur] else [];
      for i := 0 to |next|
        invariant before <= seen <= universe
        invariant seen == before ==> queue == waiting[1..]
        invariant forall s :: s in waiting[1..] ==> s in queue
        invariant forall s :: s in queue ==> s in seen
        invariant forall s :: s in seen && s !in before ==> s in queue
        invariant forall s :: s in seen && s != from ==> Reaches(table, from, s)
        invariant forall j :: 0 <= j < i ==> next[j] in seen && next[j] != to
      {
        EdgeReaches(table, cur, next[i]);
        if cur != from {
          ReachesTransitive(table, from, cur, next[i]);
        }
        if next[i] == to {
          return true;
        }
        if next[i] !in seen {
          seen := seen + {next[i]};
          queue := queue + [next[i]];
        }
      }
      forall s | s in seen && s !in queue ensures Settled(table, seen, s, to) {
        assert s in before && s !in waiting[1..];
        if s != cur {
          assert Settled(table, before, s, to);
        }
      }
    }
    ClosedExcludes(table, seen, from, to);
    return false;
  }

  // ---- the table of the platform ------------------------------------------

  datatype Status =
    | OfferPendingExport
    | OfferReceived
    | AcceptancePendingExport
    | SettlementPendingExport
    | Completed
    | RefundPendingExport
    | Refunded
    | Expired
    | Cancelled

  function NextStatuses(s: Status): seq<Status> {
    match s
    case OfferPendingExport => [OfferReceived, Expired, Cancelled]
    case OfferReceived => [AcceptancePendingExport, Expired, Cancelled]
    case AcceptancePendingExport => [SettlementPendingExport, RefundPendingExport, Refunded]
    case SettlementPendingExport => [Completed]
    case RefundPendingExport => [Refunded]
    case Expired => [RefundPendingExport]
    case Cancelled => [RefundPendingExport]
    case Completed => []
    case Refunded => []
  }

  const TRADE_TRANSITIONS: map<Status, seq<Status>> := map s: Status | s in ALL_STATUSES :: NextStatuses(s)

  const ALL_STATUSES: set<Status> := {OfferPendingExport, OfferReceived, AcceptancePendingExport,
    SettlementPendingExport, Completed, RefundPendingExport, Refunded, Expired, Cancelled}

  lemma TableRows()
    ensures forall s :: Successors(TRADE_TRANSITIONS, s) == NextStatuses(s)
  {
    forall s ensures Successors(TRADE_TRANSITIONS, s) == NextStatuses(s) {
      match s {
        case OfferPendingExport => case OfferReceived => case AcceptancePendingExport =>
        case SettlementPendingExport => case Completed => case RefundPendingExport =>
        case Refunded => case Expired => case Cancelled =>
      }
    }
  }

  predicate IsEscrowed(s: Status) {
    s == AcceptancePendingExport || s == RefundPendingExport
  }

  predicate TransitionAllowed(from: Status, to: Status) {
    to in Successors(TRADE_TRANSITIONS, from)
  }

  /** One status for the whole run, or a path of transitions. */
  ghost predicate Leads(from: Status, to: Status) {
    from == to || Reaches(TRADE_TRANSITIONS, from, to)
  }

  datatype StepKind = StepApply | StepDuplicate | StepTooEarly

  ghost function StepOf(status: Status, pred: Status): StepKind {
    if status == pred then StepApply
    else if Reaches(TRADE_TRANSITIONS, status, pred) then StepTooEarly
    else StepDuplicate
  }

  method ClassifyStep(status: Status, pred: Status) returns (kind: StepKind)
    ensures kind == StepOf(status, pred)
  {
    if status == pred {
      return StepApply;
    }
    var early := Reachable(TRADE_TRANSITIONS, status, pred);
    return if early then StepTooEarly else StepDuplicate;
  }

  /** Position along the longest path: every transition moves strictly up. */
  function Rank(s: Status): nat {
    match s
    case OfferPendingExport => 0
    case OfferReceived => 1
    case AcceptancePendingExport => 2
    case Expired => 2
    case Cancelled => 2
    case SettlementPendingExport => 3
    case RefundPendingExport => 3
    case Completed => 4
    case Refunded => 4
  }

  lemma TransitionClimbs(from: Status, to: Status)
    requires TransitionAllowed(from, to)
    ensures Rank(from) < Rank(to) <= 4
  {
    TableRows();
  }

  /** No path of the table is longer than four transitions, so none repeats a status. */
  lemma {:induction false} AtMostFourChanges(p: seq<Status>)
    requires IsPath(TRADE_TRANSITIONS, p)
    ensures Rank(p[0]) + |p| - 1 <= Rank(p[|p| - 1])
    ensures |p| <= 5
  {
    if |p| > 1 {
      var q := p[..|p| - 1];
      AtMostFourChanges(q);
      assert q[|q| - 1] == p[|p| - 2];
      TransitionClimbs(p[|p| - 2], p[|p| - 1]);
    }
  }

  /** A step that is a duplicate now is a duplicate in every status the trade can still take. */
  lemma DuplicateStaysDuplicate(status: Status, later: Status, pred: Status)
    requires StepOf(status, pred) == StepDuplicate && Leads(status, later)
    ensures StepOf(later, pred) == StepDuplicate
  {
    if Leads(status, later) && status != later {
      if Reaches(TRADE_TRANSITIONS, later, pred) {
        ReachesTransitive(TRADE_TRANSITIONS, status, later, pred);
      }
    }
  }

  /** An applied step is over: afterwards the same step is a duplicate for good. */
  lemma AppliedBecomesDuplicate(pred: Status, to: Status, later: Status)
    requires TransitionAllowed(pred, to) && Leads(to, later)
    ensures StepOf(later, pred) == StepDuplicate
  {
    TransitionClimbs(pred, to);
    LeadsClimbs(to, later);
    if Reaches(TRADE_TRANSITIONS, later, pred) {
      LeadsClimbs(later, pred);
    }
  }

  lemma LeadsClimbs(from: Status, to: Status)
    requires Leads(from, to)
    ensures Rank(from) <= Rank(to)
    ensures from != to ==> Rank(from) < Rank(to)
  {
    if from != to {
      var p :| Joins(TRADE_TRANSITIONS, p, from, to);
      AtMostFourChanges(p);
    }
  }

  lemma LeadsTransitive(a: Status, b: Status, c: Status)
    requires Leads(a, b) && Leads(b, c)
    ensures Leads(a, c)
  {
    if a != b && b != c {
      ReachesTransitive(TRADE_TRANSITIONS, a, b, c);
    }
  }

  lemma EdgeLeads(from: Status, to: Status)
    requires TransitionAllowed(from, to)
    ensures Leads(from, to)
  {
    EdgeReaches(TRADE_TRANSITIONS, from, to);
  }

  /** How the four steps of the protocol classify every status. */
  lemma StepFacts(s: Status)
    ensures StepOf(s, OfferPendingExport) == if s == OfferPendingExport then StepApply else StepDuplicate
    ensures StepOf(s, AcceptancePendingExport) ==
            if s == AcceptancePendingExport then StepApply
            else if s == OfferPendingExport || s == OfferReceived then StepTooEarly else StepDuplicate
    ensures StepOf(s, SettlementPendingExport) ==
            if s == SettlementPendingExport then StepApply
            else if s in {OfferPendingExport, OfferReceived, AcceptancePendingExport} then StepTooEarly
            else StepDuplicate
    ensures StepOf(s, RefundPendingExport) ==
            if s == RefundPendingExport then StepApply
            else if s in {SettlementPendingExport, Completed, Refunded} then StepDuplicate else StepTooEarly
  {
    var t := TRADE_TRANSITIONS;
    if Reaches(t, s, OfferPendingExport) {
      LeadsClimbs(s, OfferPendingExport);
      if s == OfferPendingExport {
        var p :| Joins(t, p, s, s);
        AtMostFourChanges(p);
      }
    }
    if s in {OfferPendingExport, OfferReceived} {
      EdgeReaches(t, OfferReceived, AcceptancePendingExport);
      EdgeReaches(t, OfferPendingExport, OfferReceived);
      if s == OfferPendingExport {
        ReachesTransitive(t, OfferPendingExport, OfferReceived, AcceptancePendingExport);
      }
      EdgeReaches(t, AcceptancePendingExport, SettlementPendingExport);
      EdgeReaches(t, AcceptancePendingExport, RefundPendingExport);
      ReachesTransitive(t, s, AcceptancePendingExport, SettlementPendingExport);
      ReachesTransitive(t, s, AcceptancePendingExport, RefundPendingExport);
    } else {
      TableRows();
      if s != AcceptancePendingExport {
        var closed := {SettlementPendingExport, RefundPendingExport, Completed, Refunded, Expired, Cancelled};
        ClosedExcludes(t, closed, s, AcceptancePendingExport);
        ClosedExcludes(t, closed, s, SettlementPendingExport);
      } else {
        EdgeReaches(t, s, SettlementPendingExport);
        EdgeReaches(t, s, RefundPendingExport);
      }
      if s in {Expired, Cancelled} {
        EdgeReaches(t, s, RefundPendingExport);
      }
      if s in {SettlementPendingExport, Completed, Refunded} {
        ClosedExcludes(t, {SettlementPendingExport, Completed, Refunded}, s, RefundPendingExport);
      }
    }
  }
}
