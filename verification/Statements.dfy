/** The statements a transaction issues for the rows that changed. */
module Statements {
  import opened Basics
  import opened Model
  import opened Scopes
  import opened Tables

  /** What was loaded, so that only differences are written. */
  datatype Orig = Orig(
    colonies: map<Id, Colony>, users: map<Id, User>, sessions: map<string, Session>, trades: map<Id, Trade>, actions: map<Id, Action>,
    accounts: map<(Id, Id), int64>, outbox: set<Id>, processed: set<(Id, Id)>)

  ghost predicate Mails(m: map<Id, Colony>, id: Id) {
    exists c, i :: c in m && 0 <= i < |m[c].outbox| && m[c].outbox[i].id == id
  }

  ghost predicate Remembers(orig: Orig, part: State) {
    && orig.colonies == Headers(part.colonies)
    && orig.users == part.users && orig.sessions == part.sessions && orig.trades == part.trades && orig.actions == part.actions
    && StoresAccounts(orig.accounts, part.colonies) && StoresProcessed(orig.processed, part.colonies)
    && (forall id :: id in orig.outbox <==> Mails(part.colonies, id))
  }

  predicate SubMap<K, V(==)>(a: map<K, V>, b: map<K, V>) {
    forall k :: k in a ==> k in b && b[k] == a[k]
  }

  predicate PartOfColony(c: Colony, full: Colony) {
    && c == full.(accounts := c.accounts, processed := c.processed, ledger := [])
    && SubMap(c.accounts, full.accounts) && c.processed <= full.processed
  }

  predicate PartOfColonies(part: map<Id, Colony>, full: map<Id, Colony>) {
    forall c :: c in part ==> c in full && PartOfColony(part[c], full[c])
  }

  /** Loaded rows are rows of the whole state. */
  predicate PartOf(part: State, full: State) {
    && SubMap(part.users, full.users) && SubMap(part.sessions, full.sessions) && SubMap(part.trades, full.trades)
    && SubMap(part.actions, full.actions) && part.bundles == map[]
    && PartOfColonies(part.colonies, full.colonies)
  }

  lemma LoadIsPart(s: State, f: Found)
    ensures PartOf(Load(s, f), s)
  {
  }

  // ---- one statement per changed row --------------------------------------------

  /** A row may be written when it was loaded or its key is free. */
  predicate KeysFree<K, V>(table: map<K, V>, orig: map<K, V>, rows: map<K, V>) {
    forall k :: k in rows ==> k in orig || k !in table
  }

  /** INSERT rows that were not loaded, UPDATE rows that changed; a taken key aborts. */
  method Upsert<K(==), V(==)>(table: map<K, V>, orig: map<K, V>, rows: map<K, V>) returns (r: Result<map<K, V>>)
    requires SubMap(orig, table)
    ensures r == if KeysFree(table, orig, rows) then Ok(table + rows) else Err(Conflict)
  {
    var out, remaining := table, rows.Keys;
    while remaining != {}
      invariant remaining <= rows.Keys
      invariant out == table + (map k | k in rows.Keys - remaining :: rows[k])
      invariant forall k :: k in rows && k !in remaining ==> k in orig || k !in table
      decreases remaining
    {
      var k :| k in remaining;
      if k !in orig {
        if k in out {
          assert k in table;
          return Err(Conflict);
        }
        out := out[k := rows[k]];
      } else if orig[k] != rows[k] {
        out := out[k := rows[k]];
      }
      remaining := remaining - {k};
    }
    assert (map k | k in rows.Keys - remaining :: rows[k]) == rows;
    return Ok(out);
  }

  /** Balances of one colony: unique key, known user, and the balance check. */
  predicate AccountsFit(table: map<(Id, Id), int64>, orig: map<(Id, Id), int64>, users: map<Id, User>, c: Id, rows: map<Id, int64>) {
    forall u :: u in rows ==>
      if (c, u) in orig then orig[(c, u)] == rows[u] || rows[u] >= 0
      else (c, u) !in table && u in users && rows[u] >= 0
  }

  function KeyedAccounts(c: Id, rows: map<Id, int64>): map<(Id, Id), int64> {
    map k | k in (set u | u in rows :: (c, u)) :: rows[k.1]
  }

  lemma KeyedRows(table: map<(Id, Id), int64>, c: Id, rows: map<Id, int64>, out: map<(Id, Id), int64>)
    requires forall d, u :: (d, u) in out <==> (d, u) in table || (d == c && u in rows)
    requires forall d, u :: (d, u) in out ==> out[(d, u)] == if d == c && u in rows then rows[u] else table[(d, u)]
    ensures out == table + KeyedAccounts(c, rows)
  {
    var keyed := KeyedAccounts(c, rows);
    forall k: (Id, Id) ensures k in keyed <==> k.0 == c && k.1 in rows {
      assert k == (k.0, k.1);
    }
    forall k: (Id, Id) ensures k in out <==> k in table + keyed {
      assert k == (k.0, k.1);
    }
    forall k: (Id, Id) | k in out ensures out[k] == (table + keyed)[k] {
      assert k == (k.0, k.1);
    }
  }

  method WriteAccounts(table: map<(Id, Id), int64>, orig: map<(Id, Id), int64>, users: map<Id, User>, c: Id, rows: map<Id, int64>)
    returns (r: Result<map<(Id, Id), int64>>)
    requires forall u :: (c, u) in orig ==> (c, u) in table && table[(c, u)] == orig[(c, u)]
    ensures r == if AccountsFit(table, orig, users, c, rows) then Ok(table + KeyedAccounts(c, rows)) else Err(Conflict)
  {
    var out, remaining := table, rows.Keys;
    while remaining != {}
      invariant remaining <= rows.Keys
      invariant forall d, u :: (d, u) in out <==> (d, u) in table || (d == c && u in rows && u !in remaining)
      invariant forall d, u :: (d, u) in out ==> out[(d, u)] == if d == c && u in rows && u !in remaining then rows[u] else table[(d, u)]
      invariant forall u :: u in rows && u !in remaining ==> AccountsFit(table, orig, users, c, map[u := rows[u]])
      decreases remaining
    {
      var u :| u in remaining;
      var balance := rows[u];
      if (c, u) !in orig {
        if (c, u) in out || u !in users || balance < 0 {
          return Err(Conflict);
        }
        out := out[(c, u) := balance];
      } else if orig[(c, u)] != balance {
        if balance < 0 {
          return Err(Conflict);
        }
        out := out[(c, u) := balance];
      }
      remaining := remaining - {u};
    }
    forall u | u in rows
      ensures if (c, u) in orig then orig[(c, u)] == rows[u] || rows[u] >= 0 else (c, u) !in table && u in users && rows[u] >= 0 {
      assert AccountsFit(table, orig, users, c, map[u := rows[u]]);
      assert u in map[u := rows[u]];
    }
    KeyedRows(table, c, rows, out);
    return Ok(out);
  }

  /** New entries continue a stored chain of `n` entries. */
  predicate Continues(n: nat, entries: seq<Entry>) {
    forall i :: 0 <= i < |entries| ==> entries[i].seqNo == n + i + 1
  }

  /** Rows n+1, n+2, ... of colony `c` were added and nothing else changed. */
  ghost predicate Appended(table: map<(Id, int), Entry>, table': map<(Id, int), Entry>, c: Id, n: nat, entries: seq<Entry>) {
    && (forall d, k :: (d, k) in table' <==> (d, k) in table || (d == c && n < k <= n + |entries|))
    && (forall d, k :: (d, k) in table' ==> table'[(d, k)] == if d == c && n < k <= n + |entries| then entries[k - n - 1] else table[(d, k)])
  }

  /** No entry has the number of a stored row or of an earlier entry. */
  predicate EntriesFree(table: map<(Id, int), Entry>, c: Id, entries: seq<Entry>) {
    forall i :: 0 <= i < |entries| ==>
      (c, entries[i].seqNo) !in table && forall j :: 0 <= j < i ==> entries[j].seqNo != entries[i].seqNo
  }

  predicate Numbered(entries: seq<Entry>, k: int) {
    exists i :: 0 <= i < |entries| && entries[i].seqNo == k
  }

  /** Every entry is a row of colony `c` under its number, next to the rows there were. */
  ghost predicate Inserted(table: map<(Id, int), Entry>, table': map<(Id, int), Entry>, c: Id, entries: seq<Entry>) {
    && (forall d, k :: (d, k) in table' <==> (d, k) in table || (d == c && Numbered(entries, k)))
    && (forall d, k :: (d, k) in table ==> table'[(d, k)] == table[(d, k)])
    && (forall i :: 0 <= i < |entries| ==> table'[(c, entries[i].seqNo)] == entries[i])
  }

  method InsertEntries(table: map<(Id, int), Entry>, c: Id, entries: seq<Entry>) returns (r: Result<map<(Id, int), Entry>>)
    ensures if EntriesFree(table, c, entries) then r.Ok? && Inserted(table, r.value, c, entries) else r == Err(Conflict)
  {
    var out := table;
    for i := 0 to |entries|
      invariant EntriesFree(table, c, entries[..i]) && Inserted(table, out, c, entries[..i])
    {
      var e := entries[i];
      if (c, e.seqNo) in out {
        return Err(Conflict);
      }
      NextInserted(table, out, c, entries[..i], e);
      assert entries[..i + 1] == entries[..i] + [e];
      out := out[(c, e.seqNo) := e];
    }
    assert entries[..|entries|] == entries;
    return Ok(out);
  }

  lemma NextInserted(table: map<(Id, int), Entry>, out: map<(Id, int), Entry>, c: Id, entries: seq<Entry>, e: Entry)
    requires EntriesFree(table, c, entries) && Inserted(table, out, c, entries) && (c, e.seqNo) !in out
    ensures EntriesFree(table, c, entries + [e]) && Inserted(table, out[(c, e.seqNo) := e], c, entries + [e])
  {
    forall j | 0 <= j < |entries| ensures entries[j].seqNo != e.seqNo {
      assert Numbered(entries, entries[j].seqNo);
    }
    forall k ensures Numbered(entries + [e], k) <==> Numbered(entries, k) || k == e.seqNo {
      assert (entries + [e])[|entries|] == e;
      if Numbered(entries, k) {
        var i :| 0 <= i < |entries| && entries[i].seqNo == k;
        assert (entries + [e])[i].seqNo == k;
      }
    }
  }

  lemma ContinuedAreFree(table: map<(Id, int), Entry>, c: Id, entries: seq<Entry>, n: nat)
    requires Continues(n, entries) && forall k :: (c, k) in table ==> k <= n
    ensures EntriesFree(table, c, entries)
  {
  }

  /** Entries that continue a stored chain of `n` entries become rows n+1, n+2, ... */
  lemma ContinuedAreAppended(table: map<(Id, int), Entry>, table': map<(Id, int), Entry>, c: Id, entries: seq<Entry>, n: nat)
    requires Continues(n, entries) && EntriesFree(table, c, entries) && Inserted(table, table', c, entries)
    ensures Appended(table, table', c, n, entries)
  {
    forall k ensures Numbered(entries, k) <==> n < k <= n + |entries| {
      if n < k <= n + |entries| {
        assert entries[k - n - 1].seqNo == k;
      }
    }
    forall d, k | (d, k) in table' ensures table'[(d, k)] == if d == c && n < k <= n + |entries| then entries[k - n - 1] else table[(d, k)] {
      if d == c && n < k <= n + |entries| {
        assert entries[k - n - 1].seqNo == k;
      }
    }
  }

  /** Outbox rows of one colony: those not loaded are appended in order; a repeated envelope id aborts. */
  method InsertMail(rows: seq<Row>, c: Id, mail: seq<Envelope>, orig: set<Id>, present: set<Id>)
    returns (r: Result<seq<Row>>, seen: set<Id>)
    requires UniqueMail(rows)
    ensures seen == present + (set i | 0 <= i < |mail| :: mail[i].id) || r.Err?
    ensures r.Ok? ==> r.value == rows + Tagged(c, Sent(mail, orig)) && UniqueMail(r.value)
    ensures UniqueMail(rows + Tagged(c, Sent(mail, orig))) ==> r.Ok?
  {
    var out := rows;
    seen := present;
    for i := 0 to |mail|
      invariant out == rows + Tagged(c, Sent(mail[..i], orig)) && UniqueMail(out)
      invariant seen == present + set j | 0 <= j < i :: mail[j].id
    {
      assert mail[..i + 1][..i] == mail[..i];
      seen := seen + {mail[i].id};
      if mail[i].id !in orig {
        assert Tagged(c, Sent(mail[..i + 1], orig)) == Tagged(c, Sent(mail[..i], orig)) + [(c, mail[i])];
        if HasMail(out, mail[i].id) {
          RepeatedMail(rows, c, mail, orig, i, out);
          return Err(Conflict), seen;
        }
        out := out + [(c, mail[i])];
      } else {
        assert Sent(mail[..i + 1], orig) == Sent(mail[..i], orig);
      }
    }
    assert mail[..|mail|] == mail;
    return Ok(out), seen;
  }

  lemma {:induction false} SentPrefix(mail: seq<Envelope>, known: set<Id>, i: nat)
    requires i <= |mail|
    ensures |Sent(mail[..i], known)| <= |Sent(mail, known)| && Sent(mail, known)[..|Sent(mail[..i], known)|] == Sent(mail[..i], known)
  {
    if i < |mail| {
      var rest := mail[..|mail| - 1];
      SentPrefix(rest, known, i);
      assert rest[..i] == mail[..i];
    } else {
      assert mail[..i] == mail;
    }
  }

  lemma RepeatedMail(rows: seq<Row>, c: Id, mail: seq<Envelope>, orig: set<Id>, i: nat, out: seq<Row>)
    requires i < |mail| && mail[i].id !in orig && out == rows + Tagged(c, Sent(mail[..i], orig)) && HasMail(out, mail[i].id)
    ensures !UniqueMail(rows + Tagged(c, Sent(mail, orig)))
  {
    var all := rows + Tagged(c, Sent(mail, orig));
    SentPrefix(mail, orig, i + 1);
    assert mail[..i + 1][..i] == mail[..i];
    assert Sent(mail[..i + 1], orig) == Sent(mail[..i], orig) + [mail[i]];
    var k := |Sent(mail[..i], orig)|;
    assert Sent(mail, orig)[..k + 1] == Sent(mail[..i], orig) + [mail[i]];
    assert Sent(mail, orig)[k] == mail[i] by { assert Sent(mail, orig)[..k + 1][k] == mail[i]; }
    var j :| 0 <= j < |out| && out[j].1.id == mail[i].id;
    assert all[j] == out[j] by {
      if j >= |rows| {
        assert Sent(mail, orig)[..k + 1][j - |rows|] == Sent(mail[..i], orig)[j - |rows|];
      }
    }
    assert all[|rows| + k] == (c, mail[i]);
  }

  method InsertProcessed(table: set<(Id, Id)>, c: Id, ids: set<Id>, orig: set<(Id, Id)>) returns (r: Result<set<(Id, Id)>>)
    requires orig <= table
    ensures r == if forall e :: e in ids ==> (c, e) in orig || (c, e) !in table then Ok(table + set e | e in ids :: (c, e)) else Err(Conflict)
  {
    var out, remaining := table, ids;
    while remaining != {}
      invariant remaining <= ids
      invariant forall d, e :: (d, e) in out <==> (d, e) in table || (d == c && e in ids && e !in remaining)
      invariant forall e :: e in ids && e !in remaining ==> (c, e) in orig || (c, e) !in table
      decreases remaining
    {
      var e :| e in remaining;
      if (c, e) !in orig {
        if (c, e) in out {
          assert (c, e) in table;
          return Err(Conflict);
        }
        out := out + {(c, e)};
      }
      remaining := remaining - {e};
    }
    forall k: (Id, Id) ensures k in out <==> k in table + set e | e in ids :: (c, e) {
      assert k == (k.0, k.1);
    }
    assert out == table + set e | e in ids :: (c, e);
    return Ok(out);
  }

  method DeleteMail(rows: seq<Row>, orig: set<Id>, present: set<Id>) returns (out: seq<Row>)
    ensures out == Undeleted(rows, orig, present)
  {
    out := [];
    for i := 0 to |rows|
      invariant out == Undeleted(rows[..i], orig, present)
    {
      assert rows[..i + 1][..i] == rows[..i];
      if !(rows[i].1.id in orig && rows[i].1.id !in present) {
        out := out + [rows[i]];
      }
    }
    assert rows[..|rows|] == rows;
  }

  /** First writer wins. */
  method InsertBundles(table: map<Id, Bundle>, rows: map<Id, Bundle>) returns (out: map<Id, Bundle>)
    ensures out == rows + table
  {
    out := table;
    var remaining := rows.Keys;
    while remaining != {}
      invariant remaining <= rows.Keys
      invariant out == (map k | k in rows.Keys - remaining :: rows[k]) + table
      decreases remaining
    {
      var k :| k in remaining;
      if k !in out {
        out := out[k := rows[k]];
      }
      remaining := remaining - {k};
    }
    assert (map k | k in rows.Keys - remaining :: rows[k]) == rows;
  }
}
