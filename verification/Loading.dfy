/** Reading the rows of a scope: discovery, then one pass over each table. */
module Loading {
  import opened Basics
  import opened Model
  import opened Scopes
  import opened Statements
  import opened Tables
  import opened Persist

  // ---- discovery ----------------------------------------------------------------

  method AddIds(into: set<Id>, xs: seq<Id>) returns (out: set<Id>)
    ensures out == into + Ids(xs)
  {
    out := into;
    for i := 0 to |xs|
      invariant out == into + Ids(xs[..i])
    {
      assert xs[..i + 1] == xs[..i] + [xs[i]];
      if xs[i] != "" {
        out := out + {xs[i]};
      }
    }
    assert xs[..|xs|] == xs;
  }

  /** The rows pending actions refer to. */
  method FollowActions(table: map<Id, Action>, ids: set<Id>, ghost s: State) returns (colonies: set<Id>, trades: set<Id>, users: set<Id>)
    requires table == s.actions
    ensures var acts := Deciding(s, ids);
            colonies == ActionColonies(acts) && trades == ActionTrades(acts) && users == ActionUsers(acts)
  {
    colonies, trades, users := {}, {}, {};
    var remaining := ids;
    ghost var done: map<Id, Action> := map[];
    while remaining != {}
      invariant remaining <= ids
      invariant done == map a | a in ids && a !in remaining && a in table :: table[a]
      invariant colonies == ActionColonies(done) && trades == ActionTrades(done) && users == ActionUsers(done)
      decreases remaining
    {
      var a :| a in remaining;
      if a in table {
        ActionAdded(done, a, table[a]);
        done := done[a := table[a]];
        colonies, trades, users := colonies + NonBlank({table[a].colony}), trades + NonBlank({table[a].trade}), users + NonBlank({table[a].user});
      }
      remaining := remaining - {a};
    }
    assert done == Deciding(s, ids);
  }

  lemma ActionAdded(done: map<Id, Action>, a: Id, row: Action)
    requires a !in done
    ensures ActionColonies(done[a := row]) == ActionColonies(done) + NonBlank({row.colony})
    ensures ActionTrades(done[a := row]) == ActionTrades(done) + NonBlank({row.trade})
    ensures ActionUsers(done[a := row]) == ActionUsers(done) + NonBlank({row.user})
  {
    var m := done[a := row];
    assert a in m && m[a] == row;
    assert forall k :: k in done ==> k in m && m[k] == done[k];
  }

  /** The rows trades refer to. */
  method FollowTrades(table: map<Id, Trade>, ids: set<Id>, ghost s: State) returns (users: set<Id>, colonies: set<Id>)
    requires table == s.trades
    ensures var deals := Trading(s, ids); users == DealUsers(deals) && colonies == DealColonies(deals)
  {
    colonies, users := {}, {};
    var remaining := ids;
    ghost var done: map<Id, Trade> := map[];
    while remaining != {}
      invariant remaining <= ids
      invariant done == map t | t in ids && t !in remaining && t in table :: table[t]
      invariant users == DealUsers(done) && colonies == DealColonies(done)
      decreases remaining
    {
      var t :| t in remaining;
      if t in table {
        DealAdded(done, t, table[t]);
        done := done[t := table[t]];
        users := users + NonBlank({table[t].seller, table[t].buyer});
        colonies := colonies + NonBlank({table[t].sellerColony, table[t].buyerColony});
      }
      remaining := remaining - {t};
    }
    assert done == Trading(s, ids);
  }

  lemma DealAdded(done: map<Id, Trade>, t: Id, row: Trade)
    requires t !in done
    ensures DealUsers(done[t := row]) == DealUsers(done) + NonBlank({row.seller, row.buyer})
    ensures DealColonies(done[t := row]) == DealColonies(done) + NonBlank({row.sellerColony, row.buyerColony})
  {
    var m := done[t := row];
    assert t in m && m[t] == row;
    assert forall k :: k in done ==> k in m && m[k] == done[k];
  }

  method FollowUsers(table: map<Id, User>, ids: set<Id>) returns (colonies: set<Id>)
    ensures colonies == OwnerColonies(table, ids)
  {
    colonies := {};
    var remaining := ids;
    while remaining != {}
      invariant remaining <= ids
      invariant colonies == OwnerColonies(table, ids - remaining)
      decreases remaining
    {
      var u :| u in remaining;
      if u in table {
        colonies := colonies + NonBlank({table[u].colony});
      }
      assert ids - (remaining - {u}) == (ids - remaining) + {u};
      OwnerAdded(table, ids - remaining, u);
      remaining := remaining - {u};
    }
    assert ids - {} == ids;
  }

  lemma OwnerAdded(table: map<Id, User>, ids: set<Id>, u: Id)
    ensures OwnerColonies(table, ids + {u}) == OwnerColonies(table, ids) + if u in table then NonBlank({table[u].colony}) else {}
  {
    forall k | k in ids && k in table ensures k in ids + {u} {
    }
    assert u in ids + {u};
  }

  predicate OpenedBy(p: Platform, s: State, token: string, user: Id, dbNow: int) {
    token in s.sessions && SessionLive(p, s.sessions[token], dbNow) && s.sessions[token].user == user
  }

  method LiveUsers(p: Platform, sessions: map<string, Session>, tokens: seq<string>, dbNow: int, ghost s: State) returns (out: set<Id>)
    requires sessions == s.sessions
    ensures out == NonBlank(SessionUsers(p, s, tokens, dbNow))
  {
    out := {};
    for i := 0 to |tokens|
      invariant forall x :: x in out <==> x != "" && exists j :: 0 <= j < i && OpenedBy(p, s, tokens[j], x, dbNow)
    {
      var k := tokens[i];
      if k in sessions && SessionLive(p, sessions[k], dbNow) && sessions[k].user != "" {
        out := out + {sessions[k].user};
      }
    }
    ghost var spec := SessionUsers(p, s, tokens, dbNow);
    forall x ensures x in out <==> x in NonBlank(spec) {
      if x in spec {
        var k :| k in tokens && OpenedBy(p, s, k, x, dbNow);
        var j :| 0 <= j < |tokens| && tokens[j] == k;
      }
    }
  }

  method FindRows(p: Platform, t: Tables, sc: Scope, dbNow: int, ghost whole: State) returns (f: Found)
    requires Stores(t, whole)
    ensures f == Discover(p, whole, sc, dbNow)
  {
    hide StoresColonies, StoresAccounts, StoresLedger, StoresOutbox, StoresProcessed, SessionLive, Ids, NonBlank,
         ActionColonies, ActionTrades, ActionUsers, DealUsers, DealColonies, OwnerColonies, Deciding, Trading;
    var actions := AddIds({}, sc.actions);
    var live := LiveUsers(p, t.sessions, sc.tokens, dbNow, whole);
    var users := AddIds({}, sc.users);
    var trades := AddIds({}, sc.trades);
    var colonies := AddIds({}, sc.colonies);
    var actionColonies, actionTrades, actionUsers := FollowActions(t.actions, actions, whole);
    trades := trades + actionTrades;
    var dealUsers, dealColonies := FollowTrades(t.trades, trades, whole);
    users := users + live + actionUsers + dealUsers;
    colonies := colonies + actionColonies + dealColonies;
    if sc.userColonies {
      var owners := FollowUsers(t.users, users);
      colonies := colonies + owners;
    }
    f := Found(users, trades, colonies, actions, set e | e in sc.envelopes, set k | k in sc.tokens);
    EmptyUnions(sc, colonies);
  }

  lemma EmptyUnions(sc: Scope, colonies: set<Id>)
    ensures {} + Ids(sc.actions) == Ids(sc.actions) && {} + Ids(sc.users) == Ids(sc.users)
    ensures {} + Ids(sc.trades) == Ids(sc.trades) && {} + Ids(sc.colonies) == Ids(sc.colonies) && colonies + {} == colonies
  {
  }

  // ---- rows -----------------------------------------------------------------------

  method Select<K(==), V>(table: map<K, V>, ids: set<K>) returns (rows: map<K, V>)
    ensures rows == map k | k in ids && k in table :: table[k]
  {
    rows := map[];
    var remaining := ids;
    while remaining != {}
      invariant remaining <= ids
      invariant rows == map k | k in ids && k !in remaining && k in table :: table[k]
      decreases remaining
    {
      var k :| k in remaining;
      if k in table {
        rows := rows[k := table[k]];
      }
      remaining := remaining - {k};
    }
  }

  function AccountRows(table: map<(Id, Id), int64>, colonies: set<Id>, users: set<Id>): map<(Id, Id), int64> {
    map k | k in table && k.0 in colonies && k.1 in users :: table[k]
  }

  /** The balances read, colony by colony, are the rows read. */
  ghost predicate Sorted(rows: map<(Id, Id), int64>, m: map<Id, map<Id, int64>>) {
    && (forall c, u :: (c, u) in rows <==> c in m && u in m[c])
    && (forall c, u :: c in m && u in m[c] ==> rows[(c, u)] == m[c][u])
  }

  lemma AccountRead(rows: map<(Id, Id), int64>, m: map<Id, map<Id, int64>>, c: Id, u: Id, balance: int64)
    requires Sorted(rows, m) && c in m
    ensures var mine: map<Id, int64> := m[c][u := balance]; Sorted(rows[(c, u) := balance], m[c := mine])
  {
  }

  lemma NothingSorted(m: map<Id, map<Id, int64>>)
    requires forall c :: c in m ==> m[c] == map[]
    ensures Sorted(map[], m)
  {
  }

  lemma AllRead(table: map<(Id, Id), int64>, colonies: set<Id>, users: set<Id>, rows: map<(Id, Id), int64>)
    requires forall k :: k in rows <==> k in table && k.0 in colonies && k.1 in users
    requires forall k :: k in rows ==> rows[k] == table[k]
    ensures rows == AccountRows(table, colonies, users)
  {
  }

  method ReadAccounts(colonies: set<Id>, table: map<(Id, Id), int64>, users: set<Id>)
    returns (out: map<Id, map<Id, int64>>, orig: map<(Id, Id), int64>)
    ensures out.Keys == colonies && Sorted(orig, out) && orig == AccountRows(table, colonies, users)
  {
    hide Sorted, AccountRows;
    out, orig := map c | c in colonies :: map[], map[];
    var remaining := table.Keys;
    NothingSorted(out);
    while remaining != {}
      invariant remaining <= table.Keys
      invariant forall k :: k in orig <==> k in table && k !in remaining && k.0 in colonies && k.1 in users
      invariant forall k :: k in orig ==> orig[k] == table[k]
      invariant out.Keys == colonies && Sorted(orig, out)
      decreases remaining
    {
      var k :| k in remaining;
      var (c, u) := k;
      if c in out && u in users {
        AccountRead(orig, out, c, u, table[k]);
        var mine: map<Id, int64> := out[c][u := table[k]];
        out := out[c := mine];
        orig := orig[k := table[k]];
      }
      remaining := remaining - {k};
    }
    AllRead(table, colonies, users, orig);
  }

  predicate Waits(rows: seq<Row>, colonies: set<Id>, id: Id) {
    exists i :: 0 <= i < |rows| && rows[i].0 in colonies && rows[i].1.id == id
  }

  lemma RowRead(rows: seq<Row>, i: nat, colonies: set<Id>)
    requires i < |rows|
    ensures forall c :: OutboxOf(rows[..i + 1], c) == if c == rows[i].0 then OutboxOf(rows[..i], c) + [rows[i].1] else OutboxOf(rows[..i], c)
    ensures forall id :: Waits(rows[..i + 1], colonies, id) <==> Waits(rows[..i], colonies, id) || (rows[i].0 in colonies && rows[i].1.id == id)
  {
    var before, after := rows[..i], rows[..i + 1];
    assert after[..i] == before && after[i] == rows[i];
    forall id | Waits(before, colonies, id) ensures Waits(after, colonies, id) {
      var j :| 0 <= j < |before| && before[j].0 in colonies && before[j].1.id == id;
      assert after[j] == before[j];
    }
  }

  lemma NoRows(colonies: set<Id>)
    ensures forall c :: OutboxOf([], c) == []
    ensures forall id :: !Waits([], colonies, id)
  {
  }

  method FillOutbox(colonies: map<Id, Colony>, rows: seq<Row>) returns (out: map<Id, Colony>, orig: set<Id>)
    requires forall c :: c in colonies ==> colonies[c].outbox == []
    ensures out.Keys == colonies.Keys && forall c :: c in out ==> out[c] == colonies[c].(outbox := OutboxOf(rows, c))
    ensures forall id :: id in orig <==> Waits(rows, colonies.Keys, id)
  {
    hide OutboxOf, Waits;
    out, orig := colonies, {};
    NoRows(colonies.Keys);
    assert rows[..0] == [];
    for i := 0 to |rows|
      invariant out.Keys == colonies.Keys && forall c :: c in out ==> out[c] == colonies[c].(outbox := OutboxOf(rows[..i], c))
      invariant forall id :: id in orig <==> Waits(rows[..i], colonies.Keys, id)
    {
      var (c, e) := rows[i];
      RowRead(rows, i, colonies.Keys);
      if c in out {
        out := out[c := out[c].(outbox := out[c].outbox + [e])];
        orig := orig + {e.id};
      }
    }
    assert rows[..|rows|] == rows;
  }

  method FillProcessed(colonies: map<Id, Colony>, table: set<(Id, Id)>, envelopes: set<Id>) returns (out: map<Id, Colony>, orig: set<(Id, Id)>)
    requires forall c :: c in colonies ==> colonies[c].processed == {}
    ensures out.Keys == colonies.Keys && forall c :: c in out ==> out[c] == colonies[c].(processed := out[c].processed)
    ensures forall c, e :: c in out ==> (e in out[c].processed <==> (c, e) in table && e in envelopes)
    ensures StoresProcessed(orig, out)
  {
    out, orig := colonies, {};
    var remaining := table;
    while remaining != {}
      invariant remaining <= table
      invariant out.Keys == colonies.Keys && forall c :: c in out ==> out[c] == colonies[c].(processed := out[c].processed)
      invariant forall c, e :: c in out ==> (e in out[c].processed <==> (c, e) in table && (c, e) !in remaining && e in envelopes)
      invariant StoresProcessed(orig, out)
      decreases remaining
    {
      var k :| k in remaining;
      var (c, e) := k;
      if c in out && e in envelopes {
        out := out[c := out[c].(processed := out[c].processed + {e})];
        orig := orig + {k};
      }
      remaining := remaining - {k};
    }
  }

  // ---- the working state ---------------------------------------------------------------

  method LoadColonies(t: Tables, f: Found, ghost whole: State)
    returns (headers: map<Id, Colony>, out: map<Id, Colony>, accounts: map<(Id, Id), int64>, mail: set<Id>, processed: set<(Id, Id)>)
    requires Stores(t, whole)
    ensures out == Load(whole, f).colonies && headers == Headers(out)
    ensures StoresAccounts(accounts, out) && StoresProcessed(processed, out) && forall id :: id in mail <==> Mails(out, id)
  {
    hide StoresColonies, StoresAccounts, StoresLedger, StoresOutbox, StoresProcessed, AccountRows, Waits, OutboxOf, Load, Mails, Header, Headers, Sorted;
    headers := Select(t.colonies, f.colonies);
    BlankHeaders(t.colonies, whole.colonies, f.colonies);
    var balances;
    balances, accounts := ReadAccounts(headers.Keys, t.accounts, f.users);
    out := map c | c in headers :: headers[c].(accounts := balances[c]);
    ghost var c1 := out;
    AccountsSorted(accounts, balances, c1);
    out, mail := FillOutbox(out, t.outbox);
    ghost var c2 := out;
    out, processed := FillProcessed(out, t.processed, f.envelopes);
    ChildrenRead(headers, c1, c2, out, t.outbox);
    ReadIsLoaded(t, whole, f, headers, c1, out, accounts, mail);
  }

  /** The colonies as they were read, child table by child table, are the loaded ones. */
  lemma ReadIsLoaded(t: Tables, whole: State, f: Found, headers: map<Id, Colony>, c1: map<Id, Colony>, out: map<Id, Colony>,
                     accounts: map<(Id, Id), int64>, mail: set<Id>)
    requires Stores(t, whole) && headers == (map c | c in f.colonies && c in t.colonies :: t.colonies[c]) && headers.Keys == c1.Keys == out.Keys
    requires StoresAccounts(accounts, c1) && accounts == AccountRows(t.accounts, headers.Keys, f.users)
    requires forall c :: c in out ==>
               && out[c] == headers[c].(accounts := out[c].accounts, processed := out[c].processed, outbox := OutboxOf(t.outbox, c))
               && out[c].accounts == c1[c].accounts && out[c].outbox == OutboxOf(t.outbox, c)
    requires forall c, e :: c in out ==> (e in out[c].processed <==> (c, e) in t.processed && e in f.envelopes)
    requires forall id :: id in mail <==> Waits(t.outbox, out.Keys, id)
    ensures out == Load(whole, f).colonies && StoresAccounts(accounts, out) && forall id :: id in mail <==> Mails(out, id)
  {
    hide StoresColonies, StoresAccounts, StoresLedger, StoresOutbox, StoresProcessed, AccountRows, Waits, OutboxOf, Load, Mails, Header;
    BlankHeaders(t.colonies, whole.colonies, f.colonies);
    AccountsIgnoreMail(accounts, c1, out);
    ColoniesLoaded(t, whole, f, headers, out, accounts);
    OrigMail(t.outbox, whole.colonies, out, mail);
  }

  lemma AccountsSorted(rows: map<(Id, Id), int64>, m: map<Id, map<Id, int64>>, out: map<Id, Colony>)
    requires Sorted(rows, m) && out.Keys == m.Keys && forall c :: c in out ==> out[c].accounts == m[c]
    ensures StoresAccounts(rows, out)
  {
  }

  lemma ChildrenRead(headers: map<Id, Colony>, c1: map<Id, Colony>, c2: map<Id, Colony>, c3: map<Id, Colony>, rows: seq<Row>)
    requires headers.Keys == c1.Keys == c2.Keys == c3.Keys
    requires forall c :: c in headers ==> headers[c] == Header(headers[c])
    requires forall c :: c in c1 ==> c1[c] == headers[c].(accounts := c1[c].accounts)
    requires forall c :: c in c2 ==> c2[c] == c1[c].(outbox := OutboxOf(rows, c))
    requires forall c :: c in c3 ==> c3[c] == c2[c].(processed := c3[c].processed)
    ensures headers == Headers(c3)
    ensures forall c :: c in c3 ==>
              c3[c] == headers[c].(accounts := c3[c].accounts, processed := c3[c].processed, outbox := OutboxOf(rows, c))
              && c3[c].accounts == c1[c].accounts && c3[c].outbox == OutboxOf(rows, c)
  {
    hide OutboxOf;
  }

  /** Rows of the scope, and a note of what was read. */
  method LoadRows(t: Tables, f: Found, ghost whole: State) returns (part: State, orig: Orig)
    requires Stores(t, whole)
    ensures part == Load(whole, f) && Remembers(orig, part)
  {
    hide StoresColonies, StoresAccounts, StoresLedger, StoresOutbox, StoresProcessed, LoadColony, Headers, Mails;
    var headers, colonies, accounts, mail, processed := LoadColonies(t, f, whole);
    var users := Select(t.users, f.users);
    var trades := Select(t.trades, f.trades);
    var actions := Select(t.actions, f.actions);
    var sessions := Select(t.sessions, f.tokens);
    part := State(colonies, users, sessions, trades, map[], actions);
    orig := Orig(headers, users, sessions, trades, actions, accounts, mail, processed);
  }

  lemma BlankHeaders(headers: map<Id, Colony>, m: map<Id, Colony>, ids: set<Id>)
    requires StoresColonies(headers, m)
    ensures forall c :: c in ids && c in headers ==>
              c in m && headers[c] == Header(m[c]) == Header(headers[c]) && headers[c].outbox == [] && headers[c].processed == {}
    ensures headers.Keys == m.Keys
  {
  }

  lemma AccountsIgnoreMail(accounts: map<(Id, Id), int64>, a: map<Id, Colony>, b: map<Id, Colony>)
    requires StoresAccounts(accounts, a) && a.Keys == b.Keys && forall c :: c in a ==> a[c].accounts == b[c].accounts
    ensures StoresAccounts(accounts, b)
  {
  }

  lemma ColoniesLoaded(t: Tables, whole: State, f: Found, headers: map<Id, Colony>, out: map<Id, Colony>, accounts: map<(Id, Id), int64>)
    requires Stores(t, whole) && accounts == AccountRows(t.accounts, headers.Keys, f.users) && StoresAccounts(accounts, out)
    requires headers.Keys == f.colonies * whole.colonies.Keys == out.Keys
    requires forall c :: c in out ==>
               && out[c] == Header(whole.colonies[c]).(accounts := out[c].accounts, processed := out[c].processed, outbox := OutboxOf(t.outbox, c))
               && (forall e :: e in out[c].processed <==> (c, e) in t.processed && e in f.envelopes)
    ensures out == Load(whole, f).colonies
  {
    hide StoresLedger, UniqueMail;
    forall c | c in out ensures out[c] == LoadColony(whole.colonies[c], f) {
      ColonyLoaded(t, whole, f, c, out, accounts, headers.Keys);
    }
  }

  lemma ColonyLoaded(t: Tables, whole: State, f: Found, c: Id, out: map<Id, Colony>, accounts: map<(Id, Id), int64>, ids: set<Id>)
    requires StoresAccounts(t.accounts, whole.colonies) && StoresOutbox(t.outbox, whole.colonies) && StoresProcessed(t.processed, whole.colonies)
    requires accounts == AccountRows(t.accounts, ids, f.users) && StoresAccounts(accounts, out) && c in out && c in whole.colonies && c in ids
    requires out[c] == Header(whole.colonies[c]).(accounts := out[c].accounts, processed := out[c].processed, outbox := OutboxOf(t.outbox, c))
    requires forall e :: e in out[c].processed <==> (c, e) in t.processed && e in f.envelopes
    ensures out[c] == LoadColony(whole.colonies[c], f)
  {
    hide UniqueMail, OutboxOf;
    forall u ensures u in out[c].accounts <==> u in whole.colonies[c].accounts && u in f.users {
      assert u in out[c].accounts <==> (c, u) in accounts;
    }
    forall u | u in out[c].accounts ensures out[c].accounts[u] == whole.colonies[c].accounts[u] {
      assert accounts[(c, u)] == t.accounts[(c, u)];
    }
    assert out[c].accounts == Restrict(whole.colonies[c].accounts, f.users);
    assert out[c].processed == whole.colonies[c].processed * f.envelopes;
  }

  lemma OrigMail(rows: seq<Row>, whole: map<Id, Colony>, part: map<Id, Colony>, mail: set<Id>)
    requires StoresOutbox(rows, whole) && part.Keys <= whole.Keys
    requires forall c :: c in part ==> part[c].outbox == OutboxOf(rows, c)
    requires forall id :: id in mail <==> Waits(rows, part.Keys, id)
    ensures forall id :: id in mail <==> Mails(part, id)
  {
    forall id ensures Waits(rows, part.Keys, id) <==> Mails(part, id) {
      if Waits(rows, part.Keys, id) {
        var i :| 0 <= i < |rows| && rows[i].0 in part.Keys && rows[i].1.id == id;
        RowInOutbox(rows, i);
      }
      if Mails(part, id) {
        var c, k :| c in part && 0 <= k < |part[c].outbox| && part[c].outbox[k].id == id;
        RowOf(rows, c, k);
      }
    }
  }
}
