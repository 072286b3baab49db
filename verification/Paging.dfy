/** Ledger pages: the binary-search page, the database page, and walking through both. */
module Paging {
  import opened Basics
  import opened Model
  import opened Handlers
  import opened Invariant

  const DEFAULT_LEDGER_LIMIT: int := 200
  const MAX_LEDGER_LIMIT: int := 1000

  function PageLimit(limit: int): (n: nat)
    ensures 1 <= n <= MAX_LEDGER_LIMIT
    ensures 1 <= limit <= MAX_LEDGER_LIMIT ==> n == limit
  {
    if limit <= 0 then DEFAULT_LEDGER_LIMIT else if limit > MAX_LEDGER_LIMIT then MAX_LEDGER_LIMIT else limit
  }

  predicate Ascending(ledger: seq<Entry>) {
    forall i, j :: 0 <= i < j < |ledger| ==> ledger[i].seqNo < ledger[j].seqNo
  }

  /** WHERE before = 0 OR seq < before. */
  function Matching(ledger: seq<Entry>, before: int): seq<Entry> {
    if ledger == [] then []
    else Matching(ledger[..|ledger| - 1], before)
         + (if before == 0 || ledger[|ledger| - 1].seqNo < before then [ledger[|ledger| - 1]] else [])
  }

  /** ORDER BY seq DESC LIMIT n, handed out ascending. */
  function SqlPage(ledger: seq<Entry>, limit: nat, before: int): seq<Entry> {
    var rows := Matching(ledger, before);
    if |rows| <= limit then rows else rows[|rows| - limit..]
  }

  /** sort.Search: the first index whose entry is not before `before`. */
  method Search(ledger: seq<Entry>, before: int) returns (end: nat)
    requires Ascending(ledger)
    ensures end <= |ledger|
    ensures forall i :: 0 <= i < end ==> ledger[i].seqNo < before
    ensures forall i :: end <= i < |ledger| ==> ledger[i].seqNo >= before
  {
    var lo, hi := 0, |ledger|;
    while lo < hi
      invariant 0 <= lo <= hi <= |ledger|
      invariant forall i :: 0 <= i < lo ==> ledger[i].seqNo < before
      invariant forall i :: hi <= i < |ledger| ==> ledger[i].seqNo >= before
    {
      var mid := (lo + hi) / 2;
      if ledger[mid].seqNo >= before {
        hi := mid;
      } else {
        lo := mid + 1;
      }
    }
    return lo;
  }

  lemma {:induction false} MatchingIsPrefix(ledger: seq<Entry>, before: int, end: nat)
    requires end <= |ledger| && before != 0
    requires forall i :: 0 <= i < end ==> ledger[i].seqNo < before
    requires forall i :: end <= i < |ledger| ==> ledger[i].seqNo >= before
    ensures Matching(ledger, before) == ledger[..end]
  {
    if ledger != [] {
      var rest := ledger[..|ledger| - 1];
      if end == |ledger| {
        MatchingIsPrefix(rest, before, end - 1);
        assert ledger[..end] == rest[..end - 1] + [ledger[end - 1]];
      } else {
        MatchingIsPrefix(rest, before, end);
        assert rest[..end] == ledger[..end];
      }
    }
  }

  lemma {:induction false} MatchingAll(ledger: seq<Entry>)
    ensures Matching(ledger, 0) == ledger
  {
    if ledger != [] {
      MatchingAll(ledger[..|ledger| - 1]);
    }
  }

  /** The page the handler cuts out of the entries it holds. */
  method CutPage(ledger: seq<Entry>, limit: nat, before: int) returns (page: seq<Entry>)
    requires Ascending(ledger)
    ensures page == SqlPage(ledger, limit, if before > 0 then before else 0)
  {
    var end := |ledger|;
    if before > 0 {
      end := Search(ledger, before);
      MatchingIsPrefix(ledger, before, end);
    } else {
      MatchingAll(ledger);
    }
    var start := end - limit;
    if start < 0 {
      start := 0;
    }
    return ledger[start..end];
  }

  predicate MayReadLedger(u: User, colony: Id) {
    HasRole(u, "super_admin") || u.colony == colony
  }

  /** ListLedgerPage on the whole state. */
  method ListLedgerPage(p: Platform, o: Oracle, s: State, token: string, colonyId: Id, limit: int, before: int) returns (r: Result<seq<Entry>>)
    requires forall c :: c in s.colonies ==> Ascending(s.colonies[c].ledger)
    ensures var actor := Actor(p, o, s, token);
            r == if actor.Err? then Err(actor.error)
                 else if colonyId !in s.colonies then Err(NotFound)
                 else if !MayReadLedger(s.users[actor.value], colonyId) then Err(Forbidden)
                 else Ok(SqlPage(s.colonies[colonyId].ledger, PageLimit(limit), if before > 0 then before else 0))
  {
    hide Actor, SqlPage, Ascending;
    var n := if limit <= 0 then DEFAULT_LEDGER_LIMIT else limit;
    if n > MAX_LEDGER_LIMIT {
      n := MAX_LEDGER_LIMIT;
    }
    var actor := Actor(p, o, s, token);
    if actor.Err? {
      return Err(actor.error);
    }
    if colonyId !in s.colonies {
      return Err(NotFound);
    }
    if !HasRole(s.users[actor.value], "super_admin") && s.users[actor.value].colony != colonyId {
      return Err(Forbidden);
    }
    var page := CutPage(s.colonies[colonyId].ledger, n, before);
    return Ok(page);
  }

  lemma ChainsAscend(p: Platform, s: State, c: Id)
    requires Inv(p, s) && c in s.colonies
    ensures Ascending(s.colonies[c].ledger) && forall i :: 0 <= i < |s.colonies[c].ledger| ==> s.colonies[c].ledger[i].seqNo == i + 1
  {
    hide Rows, Accounting, Conserved, Mirrored, Replays, Outcomes, SupplyBounds, DualControl;
    assert Chained(p, c, s.colonies[c]);
    forall i | 0 <= i < |s.colonies[c].ledger| ensures s.colonies[c].ledger[i].seqNo == i + 1 {
      assert EntrySealed(p, c, s.colonies[c].ledger, i);
    }
  }

  // ---- file and database agree ---------------------------------------------------

  lemma {:induction false} MatchingTwice(ledger: seq<Entry>, before: int)
    ensures forall e :: e in Matching(ledger, before) ==> before == 0 || e.seqNo < before
    ensures |Matching(ledger, before)| <= |ledger|
  {
    if ledger != [] {
      MatchingTwice(ledger[..|ledger| - 1], before);
    }
  }

  lemma {:induction false} AllMatch(rows: seq<Entry>, before: int)
    requires forall e :: e in rows ==> before == 0 || e.seqNo < before
    ensures Matching(rows, before) == rows
  {
    if rows != [] {
      AllMatch(rows[..|rows| - 1], before);
    }
  }

  /** The database loads one page and the handler cuts its page out of that: nothing more is lost. */
  lemma PageOfPage(ledger: seq<Entry>, limit: nat, before: int)
    ensures SqlPage(SqlPage(ledger, limit, before), limit, before) == SqlPage(ledger, limit, before)
  {
    MatchingTwice(ledger, before);
    AllMatch(SqlPage(ledger, limit, before), before);
  }

  lemma {:induction false} NegativeMatchesNone(ledger: seq<Entry>, before: int)
    requires before < 0 && forall i :: 0 <= i < |ledger| ==> ledger[i].seqNo > 0
    ensures Matching(ledger, before) == []
  {
    if ledger != [] {
      NegativeMatchesNone(ledger[..|ledger| - 1], before);
    }
  }

  /** A negative before_seq is where they differ: the handler reads it as "newest", the query as "nothing". */
  lemma BackendsAgreeExactly(ledger: seq<Entry>, limit: nat, before: int)
    requires limit > 0 && forall i :: 0 <= i < |ledger| ==> ledger[i].seqNo > 0
    ensures SqlPage(ledger, limit, if before > 0 then before else 0) == SqlPage(ledger, limit, before) <==> before >= 0 || ledger == []
  {
    MatchingAll(ledger);
    if before < 0 {
      NegativeMatchesNone(ledger, before);
    }
  }

  // ---- walking the pages -----------------------------------------------------------

  predicate Numbered(ledger: seq<Entry>) {
    forall i :: 0 <= i < |ledger| ==> ledger[i].seqNo == i + 1
  }

  /** How many entries lie before `before`. */
  function Upto(ledger: seq<Entry>, before: int): nat {
    if before <= 0 || before - 1 > |ledger| then |ledger| else before - 1
  }

  lemma PageIsSlice(ledger: seq<Entry>, limit: nat, before: nat)
    requires Numbered(ledger)
    ensures var end := Upto(ledger, before);
            SqlPage(ledger, limit, before) == if end <= limit then ledger[..end] else ledger[end - limit..end]
  {
    if before == 0 {
      MatchingAll(ledger);
    } else {
      MatchingIsPrefix(ledger, before, Upto(ledger, before));
    }
  }

  /** The pages a reader gets by passing the first seq of each page as the next before_seq, newest page first. */
  function Walk(ledger: seq<Entry>, limit: nat, before: nat): seq<seq<Entry>>
    requires Numbered(ledger) && limit > 0
    decreases if before > 0 then before else |ledger| + 1
  {
    PageIsSlice(ledger, limit, before);
    var page := SqlPage(ledger, limit, before);
    if page == [] then [] else [page] + Walk(ledger, limit, page[0].seqNo)
  }

  /** The pages put back in ledger order. */
  function Joined(pages: seq<seq<Entry>>): seq<Entry> {
    if pages == [] then [] else Joined(pages[1..]) + pages[0]
  }

  /** One page, then the pages before its first entry. */
  lemma WalkStep(ledger: seq<Entry>, limit: nat, before: nat)
    requires Numbered(ledger) && limit > 0
    ensures var end := Upto(ledger, before);
            var start := if end <= limit then 0 else end - limit;
            Walk(ledger, limit, before) == if end == 0 then [] else [ledger[start..end]] + Walk(ledger, limit, start + 1)
  {
    hide SqlPage, Matching;
    PageIsSlice(ledger, limit, before);
  }

  lemma JoinedStep(page: seq<Entry>, pages: seq<seq<Entry>>)
    ensures Joined([page] + pages) == Joined(pages) + page
  {
    assert ([page] + pages)[1..] == pages;
  }

  lemma {:induction false} WalkJoins(ledger: seq<Entry>, limit: nat, before: nat)
    requires Numbered(ledger) && limit > 0
    ensures Joined(Walk(ledger, limit, before)) == ledger[..Upto(ledger, before)]
    ensures forall page :: page in Walk(ledger, limit, before) ==> 0 < |page| <= limit
    ensures |Walk(ledger, limit, before)| <= Upto(ledger, before)
    decreases if before > 0 then before else |ledger| + 1
  {
    hide Walk, Joined, Numbered;
    WalkStep(ledger, limit, before);
    var end := Upto(ledger, before);
    if end == 0 {
      NothingJoined();
    } else {
      var start := if end <= limit then 0 else end - limit;
      WalkJoins(ledger, limit, start + 1);
      JoinedStep(ledger[start..end], Walk(ledger, limit, start + 1));
      assert ledger[..start] + ledger[start..end] == ledger[..end];
    }
  }

  lemma NothingJoined()
    ensures Joined([]) == []
  {
  }

  /** Walking from the newest page ends, and hands out every entry exactly once. */
  lemma WalkIsExact(p: Platform, s: State, c: Id, limit: int)
    requires Inv(p, s) && c in s.colonies
    ensures Numbered(s.colonies[c].ledger)
    ensures var pages := Walk(s.colonies[c].ledger, PageLimit(limit), 0);
            Joined(pages) == s.colonies[c].ledger && forall page :: page in pages ==> 0 < |page| <= PageLimit(limit)
  {
    hide Inv;
    ChainsAscend(p, s, c);
    WalkJoins(s.colonies[c].ledger, PageLimit(limit), 0);
  }
}
