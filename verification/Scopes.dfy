/** Handlers on a partly loaded state: which rows a scope discovers, and why that is enough. */
module Scopes {
  import opened Model
  import opened Invariant

  /** The rows a handler declares it will touch. */
  datatype Scope = Scope(tokens: seq<string>, users: seq<Id>, trades: seq<Id>, actions: seq<Id>, colonies: seq<Id>,
                         envelopes: seq<Id>, userColonies: bool)

  /** The ids discovery ends with; the empty id is never one of them. */
  datatype Found = Found(users: set<Id>, trades: set<Id>, colonies: set<Id>, actions: set<Id>, envelopes: set<Id>, tokens: set<string>)

  /** idSet.add: the empty id is dropped. */
  function Ids(xs: seq<Id>): set<Id> {
    set x | x in xs && x != ""
  }

  function NonBlank(xs: set<Id>): set<Id> {
    xs - {""}
  }

  /** The session row as the database sees it: still running at the start of the transaction. */
  predicate SessionLive(p: Platform, x: Session, dbNow: int) {
    var expiry := p.parse(x.expiresAt);
    expiry.Some? && dbNow < expiry.value * SECOND
  }

  function SessionUsers(p: Platform, s: State, tokens: seq<string>, dbNow: int): set<Id> {
    set k | k in s.sessions && k in tokens && SessionLive(p, s.sessions[k], dbNow) :: s.sessions[k].user
  }

  function Deciding(s: State, actions: set<Id>): map<Id, Action> {
    map a | a in actions && a in s.actions :: s.actions[a]
  }

  function Trading(s: State, trades: set<Id>): map<Id, Trade> {
    map t | t in trades && t in s.trades :: s.trades[t]
  }

  // The ids one column of the found rows refers to.

  function ActionColonies(acts: map<Id, Action>): set<Id> {
    NonBlank(set a | a in acts :: acts[a].colony)
  }

  function ActionTrades(acts: map<Id, Action>): set<Id> {
    NonBlank(set a | a in acts :: acts[a].trade)
  }

  function ActionUsers(acts: map<Id, Action>): set<Id> {
    NonBlank(set a | a in acts :: acts[a].user)
  }

  function DealUsers(deals: map<Id, Trade>): set<Id> {
    NonBlank((set t | t in deals :: deals[t].seller) + (set t | t in deals :: deals[t].buyer))
  }

  function DealColonies(deals: map<Id, Trade>): set<Id> {
    NonBlank((set t | t in deals :: deals[t].sellerColony) + (set t | t in deals :: deals[t].buyerColony))
  }

  function OwnerColonies(users: map<Id, User>, ids: set<Id>): set<Id> {
    NonBlank(set u | u in ids && u in users :: users[u].colony)
  }

  /** load's discovery: the declared ids, the session's user, and what actions and trades refer to. */
  function Discover(p: Platform, s: State, sc: Scope, dbNow: int): Found {
    var actions := Ids(sc.actions);
    var acts := Deciding(s, actions);
    var trades := Ids(sc.trades) + ActionTrades(acts);
    var deals := Trading(s, trades);
    var users := Ids(sc.users) + NonBlank(SessionUsers(p, s, sc.tokens, dbNow)) + ActionUsers(acts) + DealUsers(deals);
    var colonies := Ids(sc.colonies) + ActionColonies(acts) + DealColonies(deals)
                    + if sc.userColonies then OwnerColonies(s.users, users) else {};
    Found(users, trades, colonies, actions, set e | e in sc.envelopes, set k | k in sc.tokens)
  }

  // ---- the working state -------------------------------------------------------

  function Restrict<V>(m: map<Id, V>, ids: set<Id>): map<Id, V> {
    map k | k in ids && k in m :: m[k]
  }

  /** A colony loaded for update: its header and outbox, and of the rest only the rows asked for. */
  function LoadColony(c: Colony, f: Found): Colony {
    c.(accounts := Restrict(c.accounts, f.users), processed := c.processed * f.envelopes, ledger := [])
  }

  function Load(s: State, f: Found): State {
    State(map c | c in f.colonies && c in s.colonies :: LoadColony(s.colonies[c], f),
          Restrict(s.users, f.users), map k | k in f.tokens && k in s.sessions :: s.sessions[k],
          Restrict(s.trades, f.trades), map[], Restrict(s.actions, f.actions))
  }

  // ---- writing it back ------------------------------------------------------------

  function MergeColony(was: Colony, c: Colony): Colony {
    c.(accounts := was.accounts + c.accounts, processed := was.processed + c.processed, ledger := was.ledger + c.ledger)
  }

  function MergeColonies(was: map<Id, Colony>, part: map<Id, Colony>): map<Id, Colony> {
    map c | c in was.Keys + part.Keys ::
      if c !in part then was[c] else if c in was then MergeColony(was[c], part[c]) else part[c]
  }

  /** The whole state after the rows of `part` were written over it; a stored bundle is never overwritten. */
  function Merge(base: State, part: State): State {
    State(MergeColonies(base.colonies, part.colonies), base.users + part.users, base.sessions + part.sessions,
          base.trades + part.trades, part.bundles + base.bundles, base.actions + part.actions)
  }

  /** `s` with the bundles that `base` already stored kept as they were. */
  function KeepBundles(base: State, s: State): State {
    s.(bundles := s.bundles + base.bundles)
  }

  // ---- seeing the same rows ----------------------------------------------------------

  predicate Knows(ids: set<Id>, id: Id) {
    id == "" || id in ids
  }

  predicate Same<K, V(==)>(a: map<K, V>, b: map<K, V>, k: K) {
    (k in a <==> k in b) && (k in a ==> a[k] == b[k])
  }

  /** What the next ledger entry chains to. */
  function Prev(c: Colony): string {
    if c.lastHash == "" && |c.ledger| > 0 then HeadHash(c.ledger) else c.lastHash
  }

  ghost predicate SeesColony(f: Found, c: Colony, full: Colony) {
    && c == full.(accounts := c.accounts, processed := c.processed, ledger := c.ledger)
    && (forall u :: Knows(f.users, u) ==> Same(c.accounts, full.accounts, u))
    && (forall e :: e in f.envelopes ==> (e in c.processed <==> e in full.processed))
    && Prev(c) == Prev(full)
  }

  ghost predicate SeesColonies(f: Found, part: map<Id, Colony>, full: map<Id, Colony>) {
    forall c :: Knows(f.colonies, c) ==>
      (c in part <==> c in full) && (c in part ==> SeesColony(f, part[c], full[c]))
  }

  /** On every id found, the part answers what the whole state answers; only the trade table may hold the empty id. */
  ghost predicate Sees(f: Found, part: State, full: State) {
    && (forall u :: Knows(f.users, u) ==> Same(part.users, full.users, u))
    && (forall t :: t in f.trades ==> Same(part.trades, full.trades, t))
    && (forall a :: Knows(f.actions, a) ==> Same(part.actions, full.actions, a))
    && (forall k :: k in f.tokens ==> Same(part.sessions, full.sessions, k))
    && SeesColonies(f, part.colonies, full.colonies)
  }

  /** The rows found lead only to rows found. */
  predicate ClosedTrade(f: Found, t: Trade) {
    Knows(f.users, t.seller) && Knows(f.users, t.buyer) && Knows(f.colonies, t.sellerColony) && Knows(f.colonies, t.buyerColony)
  }

  ghost predicate Closed(f: Found, s: State) {
    && (forall t :: t in f.trades && t in s.trades ==> ClosedTrade(f, s.trades[t]))
    && (forall a :: Knows(f.actions, a) && a in s.actions ==>
          Knows(f.colonies, s.actions[a].colony) && Knows(f.trades, s.actions[a].trade) && Knows(f.users, s.actions[a].user))
  }

  /** No user, colony or action has the empty id; a trade may. */
  predicate NoBlankIds(s: State) {
    "" !in s.users && "" !in s.colonies && "" !in s.actions
  }

  /** While no trade has the empty id, looking it up is as good as having found it. */
  function Widened(f: Found, s: State): Found {
    if "" in s.trades then f else f.(trades := f.trades + {""})
  }

  /** Discovery can tell this trade apart from no trade at all. */
  predicate Findable(s: State, t: Id) {
    t != "" || "" !in s.trades
  }

  lemma LoadSeesColony(f: Found, c: Colony)
    requires "" !in c.accounts && c.lastHash == HeadHash(c.ledger)
    ensures SeesColony(f, LoadColony(c, f), c)
  {
  }

  /** What was loaded answers every lookup of a found row as the whole state does. */
  lemma LoadSees(p: Platform, s: State, f: Found)
    requires Inv(p, s) && NoBlankIds(s)
    ensures Sees(f, Load(s, f), s)
  {
    hide Inv, SeesColony, LoadColony, Chained, Homes, TradeRow, ClaimRows;
    forall c | c in s.colonies ensures SeesColony(f, LoadColony(s.colonies[c], f), s.colonies[c]) {
      ColonyHeads(p, s, c);
      LoadSeesColony(f, s.colonies[c]);
    }
  }

  lemma ColonyHeads(p: Platform, s: State, c: Id)
    requires Inv(p, s) && c in s.colonies
    ensures "" !in s.colonies[c].accounts && s.colonies[c].lastHash == HeadHash(s.colonies[c].ledger)
  {
    hide Accounting, Conserved, Mirrored, Replays, Outcomes, SupplyBounds, DualControl, EntrySealed;
    assert Chained(p, c, s.colonies[c]);
    assert "" in s.colonies[c].accounts ==> Lives(s, "", c);
  }

  lemma LoadMergesColony(f: Found, c: Colony)
    ensures MergeColony(c, LoadColony(c, f)) == c
  {
    var l := LoadColony(c, f);
    assert c.accounts + l.accounts == c.accounts;
    assert c.processed + l.processed == c.processed;
    assert c.ledger + [] == c.ledger;
  }

  lemma LoadMergesColonies(m: map<Id, Colony>, part: map<Id, Colony>)
    requires forall c :: c in part ==> c in m && MergeColony(m[c], part[c]) == m[c]
    ensures MergeColonies(m, part) == m
  {
    hide MergeColony;
  }

  lemma SubMerges<K, V>(m: map<K, V>, part: map<K, V>)
    requires forall k :: k in part ==> k in m && part[k] == m[k]
    ensures m + part == m
  {
  }

  /** Writing back what was loaded changes nothing. */
  lemma LoadMerges(s: State, f: Found)
    ensures Merge(s, Load(s, f)) == s
  {
    hide MergeColony, LoadColony, MergeColonies;
    forall c | c in s.colonies ensures MergeColony(s.colonies[c], LoadColony(s.colonies[c], f)) == s.colonies[c] {
      LoadMergesColony(f, s.colonies[c]);
    }
    var part := Load(s, f);
    LoadMergesColonies(s.colonies, part.colonies);
    SubMerges(s.users, part.users);
    SubMerges(s.sessions, part.sessions);
    SubMerges(s.trades, part.trades);
    SubMerges(s.actions, part.actions);
    assert map[] + s.bundles == s.bundles;
  }

  /** Discovery follows every reference of the rows it finds. */
  lemma DiscoverCloses(p: Platform, s: State, sc: Scope, dbNow: int)
    requires NoBlankIds(s)
    ensures Closed(Discover(p, s, sc, dbNow), s)
  {
    var f := Discover(p, s, sc, dbNow);
    forall a | a in f.actions && a in s.actions
      ensures Knows(f.colonies, s.actions[a].colony) && Knows(f.trades, s.actions[a].trade) && Knows(f.users, s.actions[a].user) {
      ActionsFollowed(p, s, sc, dbNow, a);
    }
    forall t | t in f.trades && t in s.trades ensures ClosedTrade(f, s.trades[t]) {
      TradesFollowed(p, s, sc, dbNow, t);
    }
  }

  lemma ActionsFollowed(p: Platform, s: State, sc: Scope, dbNow: int, a: Id)
    requires a in Discover(p, s, sc, dbNow).actions && a in s.actions
    ensures var f, row := Discover(p, s, sc, dbNow), s.actions[a];
            Knows(f.colonies, row.colony) && Knows(f.trades, row.trade) && Knows(f.users, row.user)
  {
    hide SessionUsers, Trading;
    assert Deciding(s, Ids(sc.actions))[a] == s.actions[a];
  }

  lemma TradesFollowed(p: Platform, s: State, sc: Scope, dbNow: int, t: Id)
    requires t in Discover(p, s, sc, dbNow).trades && t in s.trades
    ensures ClosedTrade(Discover(p, s, sc, dbNow), s.trades[t])
  {
    hide SessionUsers, Deciding, ActionUsers, ActionColonies, OwnerColonies;
    var f := Discover(p, s, sc, dbNow);
    assert Trading(s, f.trades)[t] == s.trades[t];
  }

  lemma WidenedLoads(f: Found, s: State)
    ensures Load(s, Widened(f, s)) == Load(s, f)
  {
    assert Restrict(s.trades, Widened(f, s).trades) == Restrict(s.trades, f.trades);
  }

  lemma WidenedCloses(f: Found, s: State)
    requires Closed(f, s)
    ensures Closed(Widened(f, s), s)
  {
  }
}
