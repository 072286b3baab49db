/** Writing a working state back: only differences, and never a row that was not loaded. */
module Persist {
  import opened Basics
  import opened Model
  import opened Scopes
  import opened Statements
  import opened Tables

  // ---- persist ---------------------------------------------------------------------

  function Before(m: map<Id, Colony>, c: Id): (seq<Envelope>, nat) {
    if c in m then (m[c].outbox, |m[c].ledger|) else ([], 0)
  }

  /** What handlers may do to a loaded part: entries are appended to the chain, mail is only filtered and appended. */
  ghost predicate Grown(whole: State, st: State, orig: Orig, present: set<Id>) {
    && orig.colonies.Keys <= st.colonies.Keys && orig.sessions.Keys <= st.sessions.Keys
    && (forall id :: id in present <==> Mails(st.colonies, id))
    && (forall c :: c in st.colonies ==>
          && Continues(Before(whole.colonies, c).1, st.colonies[c].ledger)
          && st.colonies[c].outbox == Surviving(Before(whole.colonies, c).0, orig.outbox, present) + Sent(st.colonies[c].outbox, orig.outbox))
  }

  /** The accounts a colony writes are loaded ones or free ones, of known users, and not negative. */
  predicate AccountsFree(was: map<Id, Colony>, orig: Orig, users: map<Id, User>, c: Id, rows: map<Id, int64>) {
    forall u :: u in rows ==>
      if (c, u) in orig.accounts then orig.accounts[(c, u)] == rows[u] || rows[u] >= 0
      else !(c in was && u in was[c].accounts) && u in users && rows[u] >= 0
  }

  predicate ProcessedFree(was: map<Id, Colony>, orig: Orig, c: Id, ids: set<Id>) {
    forall e :: e in ids ==> (c, e) in orig.processed || !(c in was && e in was[c].processed)
  }

  predicate ColonyFree(was: map<Id, Colony>, orig: Orig, users: map<Id, User>, c: Id, x: Colony) {
    AccountsFree(was, orig, users, c, x.accounts) && ProcessedFree(was, orig, c, x.processed)
  }

  ghost predicate NewMail(orig: set<Id>, m: map<Id, Colony>, c: Id, i: int) {
    c in m && 0 <= i < |m[c].outbox| && m[c].outbox[i].id !in orig
  }

  ghost predicate MailFree(was: map<Id, Colony>, orig: set<Id>, m: map<Id, Colony>) {
    && (forall c, i :: NewMail(orig, m, c, i) ==> !Mails(was, m[c].outbox[i].id))
    && (forall c, i, d, j :: NewMail(orig, m, c, i) && NewMail(orig, m, d, j) && m[c].outbox[i].id == m[d].outbox[j].id ==> c == d && i == j)
  }

  /** No constraint of the schema is in the way. */
  ghost predicate Acceptable(whole: State, orig: Orig, st: State) {
    && KeysFree(whole.colonies, orig.colonies, st.colonies) && KeysFree(whole.users, orig.users, st.users)
    && KeysFree(whole.sessions, orig.sessions, st.sessions) && KeysFree(whole.trades, orig.trades, st.trades)
    && KeysFree(whole.actions, orig.actions, st.actions)
    && (forall c :: c in st.colonies ==> ColonyFree(whole.colonies, orig, whole.users + st.users, c, st.colonies[c]))
    && MailFree(whole.colonies, orig.outbox, st.colonies)
  }

  function Only(m: map<Id, Colony>, ids: set<Id>): map<Id, Colony> {
    map c | c in m && c in ids :: m[c]
  }

  /** The colonies once those in `done` have been written back. */
  function Halfway(whole: map<Id, Colony>, part: map<Id, Colony>, done: set<Id>): map<Id, Colony> {
    MergeColonies(whole, Only(part, done))
  }

  lemma HalfwayStep(whole: map<Id, Colony>, part: map<Id, Colony>, done: set<Id>, c: Id)
    requires c in part && c !in done
    ensures c in Halfway(whole, part, done) <==> c in whole
    ensures c in whole ==> Halfway(whole, part, done)[c] == whole[c]
    ensures Halfway(whole, part, done + {c})
            == Halfway(whole, part, done)[c := if c in whole then MergeColony(whole[c], part[c]) else part[c]]
    ensures forall d :: d in whole ==> d in Halfway(whole, part, done) && whole[d].processed <= Halfway(whole, part, done)[d].processed
  {
  }

  lemma HalfwayEnds(whole: map<Id, Colony>, part: map<Id, Colony>)
    ensures Halfway(whole, part, {}) == whole
    ensures Halfway(whole, part, part.Keys) == MergeColonies(whole, part)
  {
    hide MergeColony;
    assert Only(part, part.Keys) == part;
  }

  lemma AccountsStep(table: map<(Id, Id), int64>, m: map<Id, Colony>, c: Id, rows: map<Id, int64>, y: Colony)
    requires StoresAccounts(table, m) && y.accounts == (if c in m then m[c].accounts else map[]) + rows
    ensures StoresAccounts(table + KeyedAccounts(c, rows), m[c := y])
  {
    var keyed, m' := KeyedAccounts(c, rows), m[c := y];
    forall d, u ensures (d, u) in keyed <==> d == c && u in rows {
    }
  }

  lemma ProcessedStep(table: set<(Id, Id)>, m: map<Id, Colony>, c: Id, ids: set<Id>, y: Colony)
    requires StoresProcessed(table, m) && y.processed == (if c in m then m[c].processed else {}) + ids
    ensures StoresProcessed(table + (set e | e in ids :: (c, e)), m[c := y])
  {
  }

  lemma LedgerStep(table: map<(Id, int), Entry>, table': map<(Id, int), Entry>, m: map<Id, Colony>, c: Id, entries: seq<Entry>, y: Colony)
    requires Appended(table, table', c, Before(m, c).1, entries)
    requires StoresLedger(table, m) && y.ledger == (if c in m then m[c].ledger else []) + entries
    ensures StoresLedger(table', m[c := y])
  {
  }

  // ---- one colony's child rows ---------------------------------------------------------

  ghost predicate FromDone(m: map<Id, Colony>, done: set<Id>, orig: set<Id>, id: Id) {
    exists c, i :: c in done && NewMail(orig, m, c, i) && m[c].outbox[i].id == id
  }

  /** The outbox table once the new mail of `done` has been inserted. */
  ghost predicate MailHalfway(rows: seq<Row>, whole: map<Id, Colony>, part: map<Id, Colony>, orig: set<Id>, done: set<Id>) {
    && UniqueMail(rows)
    && (forall d :: OutboxOf(rows, d) == Before(whole, d).0 + if d in done && d in part then Sent(part[d].outbox, orig) else [])
    && (forall i :: 0 <= i < |rows| ==> rows[i].0 in whole || rows[i].0 in done)
    && (forall i :: 0 <= i < |rows| ==> Mails(whole, rows[i].1.id) || FromDone(part, done, orig, rows[i].1.id))
  }

  ghost predicate ChildrenHalfway(t: Tables, whole: map<Id, Colony>, part: map<Id, Colony>, orig: set<Id>, done: set<Id>) {
    && StoresAccounts(t.accounts, Halfway(whole, part, done)) && StoresLedger(t.ledger, Halfway(whole, part, done))
    && StoresProcessed(t.processed, Halfway(whole, part, done)) && MailHalfway(t.outbox, whole, part, orig, done)
  }

  lemma {:induction false} SentIsNew(mail: seq<Envelope>, known: set<Id>, k: nat)
    requires k < |Sent(mail, known)|
    ensures exists i :: 0 <= i < |mail| && mail[i] == Sent(mail, known)[k] && mail[i].id !in known
  {
    var rest := mail[..|mail| - 1];
    if k < |Sent(rest, known)| {
      SentIsNew(rest, known, k);
      var i :| 0 <= i < |rest| && rest[i] == Sent(rest, known)[k] && rest[i].id !in known;
      assert mail[i] == rest[i];
    }
  }

  lemma MailStep(rows: seq<Row>, whole: map<Id, Colony>, part: map<Id, Colony>, orig: set<Id>, done: set<Id>, c: Id)
    requires MailHalfway(rows, whole, part, orig, done) && c in part && c !in done
    requires UniqueMail(rows + Tagged(c, Sent(part[c].outbox, orig)))
    ensures MailHalfway(rows + Tagged(c, Sent(part[c].outbox, orig)), whole, part, orig, done + {c})
  {
    hide UniqueMail, OutboxOf, Sent, Mails, FromDone, Before, Tagged;
    var sent := Sent(part[c].outbox, orig);
    forall d ensures OutboxOf(rows + Tagged(c, sent), d)
                     == Before(whole, d).0 + if d in done + {c} && d in part then Sent(part[d].outbox, orig) else [] {
      OutboxAppend(rows, Tagged(c, sent), d);
      OutboxTagged(c, sent, d);
      Unchanged(Before(whole, d).0, sent);
    }
    TaggedRows(c, sent);
    NewRowsKnown(rows, whole, part, orig, done, c);
  }

  lemma Unchanged(a: seq<Envelope>, b: seq<Envelope>)
    ensures a + [] == a && (a + []) + b == a + b
  {
  }

  lemma TaggedRows(c: Id, mail: seq<Envelope>)
    ensures |Tagged(c, mail)| == |mail| && forall i :: 0 <= i < |mail| ==> Tagged(c, mail)[i] == (c, mail[i])
  {
  }

  /** Where the rows of the outbox table come from. */
  lemma NewRowsKnown(rows: seq<Row>, whole: map<Id, Colony>, part: map<Id, Colony>, orig: set<Id>, done: set<Id>, c: Id)
    requires c in part
    requires forall i :: 0 <= i < |rows| ==> Mails(whole, rows[i].1.id) || FromDone(part, done, orig, rows[i].1.id)
    ensures var rows' := rows + Tagged(c, Sent(part[c].outbox, orig));
            forall i :: 0 <= i < |rows'| ==> Mails(whole, rows'[i].1.id) || FromDone(part, done + {c}, orig, rows'[i].1.id)
  {
    hide Mails, FromDone, Sent;
    var sent := Sent(part[c].outbox, orig);
    var rows' := rows + Tagged(c, sent);
    forall i | 0 <= i < |rows'| ensures Mails(whole, rows'[i].1.id) || FromDone(part, done + {c}, orig, rows'[i].1.id) {
      if i < |rows| {
        assert rows'[i] == rows[i];
        DoneGrows(part, done, c, orig, rows[i].1.id);
      } else {
        assert rows'[i].1 == sent[i - |rows|];
        SentFromDone(part, done, c, orig, i - |rows|);
      }
    }
  }

  lemma SentFromDone(m: map<Id, Colony>, done: set<Id>, c: Id, orig: set<Id>, k: nat)
    requires c in m && k < |Sent(m[c].outbox, orig)|
    ensures FromDone(m, done + {c}, orig, Sent(m[c].outbox, orig)[k].id)
  {
    SentIsNew(m[c].outbox, orig, k);
    var j :| 0 <= j < |m[c].outbox| && m[c].outbox[j] == Sent(m[c].outbox, orig)[k] && m[c].outbox[j].id !in orig;
    assert NewMail(orig, m, c, j);
  }

  lemma DoneGrows(m: map<Id, Colony>, done: set<Id>, c: Id, orig: set<Id>, id: Id)
    ensures FromDone(m, done, orig, id) ==> FromDone(m, done + {c}, orig, id)
  {
    if FromDone(m, done, orig, id) {
      var d, i :| d in done && NewMail(orig, m, d, i) && m[d].outbox[i].id == id;
      assert d in done + {c};
    }
  }

  lemma {:induction false} SentDistinct(mail: seq<Envelope>, known: set<Id>)
    requires forall i, j :: 0 <= i < j < |mail| && mail[i].id !in known && mail[j].id !in known ==> mail[i].id != mail[j].id
    ensures forall i, j :: 0 <= i < j < |Sent(mail, known)| ==> Sent(mail, known)[i].id != Sent(mail, known)[j].id
  {
    if mail != [] {
      var rest, last := mail[..|mail| - 1], mail[|mail| - 1];
      SentDistinct(rest, known);
      if last.id !in known {
        forall k | 0 <= k < |Sent(rest, known)| ensures Sent(rest, known)[k].id != last.id {
          SentIsNew(rest, known, k);
          var i :| 0 <= i < |rest| && rest[i] == Sent(rest, known)[k] && rest[i].id !in known;
          assert mail[i] == rest[i];
        }
      }
    }
  }

  lemma NewIsUnused(id: Id, whole: map<Id, Colony>, part: map<Id, Colony>, orig: set<Id>, done: set<Id>, c: Id, k: nat)
    requires MailFree(whole, orig, part) && c in part && c !in done && k < |Sent(part[c].outbox, orig)|
    requires Mails(whole, id) || FromDone(part, done, orig, id)
    ensures Sent(part[c].outbox, orig)[k].id != id
  {
    SentIsNew(part[c].outbox, orig, k);
    var i :| 0 <= i < |part[c].outbox| && part[c].outbox[i] == Sent(part[c].outbox, orig)[k] && part[c].outbox[i].id !in orig;
    assert NewMail(orig, part, c, i);
    if FromDone(part, done, orig, id) {
      var d, j :| d in done && NewMail(orig, part, d, j) && part[d].outbox[j].id == id;
    }
  }

  /** New mail never repeats an envelope id when the drawn ids are free. */
  lemma MailFits(rows: seq<Row>, whole: map<Id, Colony>, part: map<Id, Colony>, orig: set<Id>, done: set<Id>, c: Id)
    requires MailHalfway(rows, whole, part, orig, done) && MailFree(whole, orig, part) && c in part && c !in done
    ensures UniqueMail(rows + Tagged(c, Sent(part[c].outbox, orig)))
  {
    hide Mails, FromDone, OutboxOf, Sent;
    var sent := Sent(part[c].outbox, orig);
    var all := rows + Tagged(c, sent);
    SentDistinct(part[c].outbox, orig) by {
      forall i, j | 0 <= i < j < |part[c].outbox| && part[c].outbox[i].id !in orig && part[c].outbox[j].id !in orig
        ensures part[c].outbox[i].id != part[c].outbox[j].id {
        assert NewMail(orig, part, c, i) && NewMail(orig, part, c, j);
      }
    }
    forall i, j | 0 <= i < j < |all| ensures all[i].1.id != all[j].1.id {
      if i < |rows| <= j {
        assert all[i] == rows[i] && all[j].1 == sent[j - |rows|];
        NewIsUnused(rows[i].1.id, whole, part, orig, done, c, j - |rows|);
      } else if |rows| <= i {
        assert all[i].1 == sent[i - |rows|] && all[j].1 == sent[j - |rows|];
      }
    }
  }

  /** What was loaded is what the tables hold. */
  ghost predicate Inside(orig: Orig, whole: map<Id, Colony>) {
    && (forall c, u :: (c, u) in orig.accounts ==> c in whole && u in whole[c].accounts && whole[c].accounts[u] == orig.accounts[(c, u)])
    && (forall c, e :: (c, e) in orig.processed ==> c in whole && e in whole[c].processed)
  }

  /** Before a colony's turn: its loaded rows are stored, its entries are free, and free rows fit. */
  lemma ColonyReady(t: Tables, orig: Orig, c: Id, x: Colony, whole: map<Id, Colony>, part: map<Id, Colony>, done: set<Id>)
    requires ChildrenHalfway(t, whole, part, orig.outbox, done) && c in part && c !in done && x == part[c]
    requires Inside(orig, whole) && Continues(Before(whole, c).1, x.ledger)
    ensures forall u :: (c, u) in orig.accounts ==> (c, u) in t.accounts && t.accounts[(c, u)] == orig.accounts[(c, u)]
    ensures orig.processed <= t.processed
    ensures EntriesFree(t.ledger, c, x.ledger)
    ensures UniqueMail(t.outbox)
    ensures ColonyFree(whole, orig, t.users, c, x) ==>
              && AccountsFit(t.accounts, orig.accounts, t.users, c, x.accounts)
              && forall e :: e in x.processed ==> (c, e) in orig.processed || (c, e) !in t.processed
    ensures MailFree(whole, orig.outbox, part) ==> UniqueMail(t.outbox + Tagged(c, Sent(x.outbox, orig.outbox)))
  {
    hide MailHalfway, MailFree, Continues, UniqueMail, EntriesFree, Halfway, Sent, Tagged, OutboxOf, AccountsFit, AccountsFree, ProcessedFree,
         StoresAccounts, StoresLedger, StoresProcessed, Inside;
    var m := Halfway(whole, part, done);
    HalfwayStep(whole, part, done, c);
    LoadedRowsStored(t, orig, whole, m, c);
    AccountsFitIfFree(t.accounts, whole, m, orig, t.users, c, x.accounts);
    ProcessedFitsIfFree(t.processed, whole, m, orig, c, x.processed);
    ContinuedAreFree(t.ledger, c, x.ledger, Before(whole, c).1);
    UniqueHalfway(t.outbox, whole, part, orig.outbox, done);
    MailFitsIfFree(t.outbox, whole, part, orig.outbox, done, c);
  }

  /** Child rows of one colony: accounts, new entries, new mail and new processed ids. */
  method PersistColony(t: Tables, orig: Orig, c: Id, x: Colony, present: set<Id>, ghost whole: State, ghost st: State, ghost done: set<Id>)
    returns (r: Result<Tables>, seen: set<Id>)
    requires ChildrenHalfway(t, whole.colonies, st.colonies, orig.outbox, done) && t.users == whole.users + st.users
    requires c in st.colonies && c !in done && x == st.colonies[c]
    requires Inside(orig, whole.colonies) && Continues(Before(whole.colonies, c).1, x.ledger)
    ensures r.Ok? ==>
              && seen == present + (set i | 0 <= i < |x.outbox| :: x.outbox[i].id)
              && r.value == t.(accounts := r.value.accounts, ledger := r.value.ledger, outbox := r.value.outbox, processed := r.value.processed)
              && ChildrenHalfway(r.value, whole.colonies, st.colonies, orig.outbox, done + {c})
    ensures ColonyFree(whole.colonies, orig, t.users, c, x) && MailFree(whole.colonies, orig.outbox, st.colonies) ==> r.Ok?
  {
    hide MailHalfway, MailFree, Continues, UniqueMail, Appended, Inserted, Numbered, EntriesFree, Halfway, Sent, Tagged, OutboxOf, AccountsFit,
         ColonyFree, StoresAccounts, StoresLedger, StoresProcessed, Inside;
    seen := present;
    ColonyReady(t, orig, c, x, whole.colonies, st.colonies, done);
    var accounts := WriteAccounts(t.accounts, orig.accounts, t.users, c, x.accounts);
    if accounts.Err? {
      return Err(accounts.error), seen;
    }
    var ledger := InsertEntries(t.ledger, c, x.ledger);
    ContinuedAreAppended(t.ledger, ledger.value, c, x.ledger, Before(whole.colonies, c).1);
    var mail;
    mail, seen := InsertMail(t.outbox, c, x.outbox, orig.outbox, present);
    if mail.Err? {
      return Err(mail.error), seen;
    }
    var processed := InsertProcessed(t.processed, c, x.processed, orig.processed);
    if processed.Err? {
      return Err(processed.error), seen;
    }
    ColonyStored(t, ledger.value, whole.colonies, st.colonies, done, c);
    MailStep(t.outbox, whole.colonies, st.colonies, orig.outbox, done, c);
    return Ok(t.(accounts := accounts.value, ledger := ledger.value, outbox := mail.value, processed := processed.value)), seen;
  }

  /** The three keyed child tables of a colony, once its rows are written. */
  lemma ColonyStored(t: Tables, ledger: map<(Id, int), Entry>, whole: map<Id, Colony>, part: map<Id, Colony>, done: set<Id>, c: Id)
    requires c in part && c !in done
    requires var m := Halfway(whole, part, done); StoresAccounts(t.accounts, m) && StoresLedger(t.ledger, m) && StoresProcessed(t.processed, m)
    requires Appended(t.ledger, ledger, c, Before(whole, c).1, part[c].ledger)
    ensures var m := Halfway(whole, part, done + {c});
            && StoresAccounts(t.accounts + KeyedAccounts(c, part[c].accounts), m) && StoresLedger(ledger, m)
            && StoresProcessed(t.processed + (set e | e in part[c].processed :: (c, e)), m)
  {
    hide StoresAccounts, StoresLedger, StoresProcessed, Halfway, Appended;
    var m := Halfway(whole, part, done);
    HalfwayStep(whole, part, done, c);
    var y := if c in whole then MergeColony(whole[c], part[c]) else part[c];
    assert map[] + part[c].accounts == part[c].accounts && {} + part[c].processed == part[c].processed && [] + part[c].ledger == part[c].ledger;
    AccountsStep(t.accounts, m, c, part[c].accounts, y);
    LedgerStep(t.ledger, ledger, m, c, part[c].ledger, y);
    ProcessedStep(t.processed, m, c, part[c].processed, y);
  }

  lemma MailFitsIfFree(rows: seq<Row>, whole: map<Id, Colony>, part: map<Id, Colony>, orig: set<Id>, done: set<Id>, c: Id)
    requires MailHalfway(rows, whole, part, orig, done) && c in part && c !in done
    ensures MailFree(whole, orig, part) ==> UniqueMail(rows + Tagged(c, Sent(part[c].outbox, orig)))
  {
    hide MailHalfway, UniqueMail, MailFree;
    if MailFree(whole, orig, part) {
      MailFits(rows, whole, part, orig, done, c);
    }
  }

  lemma UniqueHalfway(rows: seq<Row>, whole: map<Id, Colony>, part: map<Id, Colony>, orig: set<Id>, done: set<Id>)
    requires MailHalfway(rows, whole, part, orig, done)
    ensures UniqueMail(rows)
  {
    hide UniqueMail;
  }

  lemma LoadedRowsStored(t: Tables, orig: Orig, whole: map<Id, Colony>, m: map<Id, Colony>, c: Id)
    requires StoresAccounts(t.accounts, m) && StoresLedger(t.ledger, m) && StoresProcessed(t.processed, m) && Inside(orig, whole)
    requires c in m <==> c in whole
    requires c in whole ==> m[c] == whole[c]
    requires forall d :: d in whole ==> d in m && whole[d].processed <= m[d].processed
    ensures forall u :: (c, u) in orig.accounts ==> (c, u) in t.accounts && t.accounts[(c, u)] == orig.accounts[(c, u)]
    ensures forall k :: (c, k) in t.ledger ==> k <= Before(whole, c).1
    ensures orig.processed <= t.processed
  {
    forall k | k in orig.processed ensures k in t.processed {
      assert k == (k.0, k.1);
    }
  }

  lemma AccountsFitIfFree(table: map<(Id, Id), int64>, whole: map<Id, Colony>, m: map<Id, Colony>, orig: Orig, users: map<Id, User>, c: Id, rows: map<Id, int64>)
    requires StoresAccounts(table, m) && (c in m <==> c in whole) && (c in whole ==> m[c] == whole[c])
    ensures AccountsFree(whole, orig, users, c, rows) ==> AccountsFit(table, orig.accounts, users, c, rows)
  {
  }

  lemma ProcessedFitsIfFree(table: set<(Id, Id)>, whole: map<Id, Colony>, m: map<Id, Colony>, orig: Orig, c: Id, ids: set<Id>)
    requires StoresProcessed(table, m) && (c in m <==> c in whole) && (c in whole ==> m[c] == whole[c])
    ensures ProcessedFree(whole, orig, c, ids) ==> forall e :: e in ids ==> (c, e) in orig.processed || (c, e) !in table
  {
  }

  // ---- the whole diff --------------------------------------------------------------------

  lemma {:induction false} RowOf(rows: seq<Row>, c: Id, k: nat)
    requires k < |OutboxOf(rows, c)|
    ensures exists i :: 0 <= i < |rows| && rows[i] == (c, OutboxOf(rows, c)[k])
  {
    var rest := rows[..|rows| - 1];
    if k < |OutboxOf(rest, c)| {
      RowOf(rest, c, k);
      var i :| 0 <= i < |rest| && rest[i] == (c, OutboxOf(rest, c)[k]);
      assert rows[i] == rest[i];
    } else {
      assert rows[|rows| - 1] == (c, OutboxOf(rows, c)[k]);
    }
  }

  /** An envelope waits in one colony's outbox only. */
  lemma OneOutbox(rows: seq<Row>, m: map<Id, Colony>, c: Id, i: nat, d: Id, j: nat)
    requires StoresOutbox(rows, m) && c in m && d in m && i < |m[c].outbox| && j < |m[d].outbox|
    requires m[c].outbox[i].id == m[d].outbox[j].id
    ensures c == d
  {
    RowOf(rows, c, i);
    RowOf(rows, d, j);
    var x :| 0 <= x < |rows| && rows[x] == (c, m[c].outbox[i]);
    var y :| 0 <= y < |rows| && rows[y] == (d, m[d].outbox[j]);
    assert x == y;
  }

  lemma {:induction false} NoneDeleted(mail: seq<Envelope>, known: set<Id>, present: set<Id>)
    requires forall i :: 0 <= i < |mail| ==> mail[i].id !in known
    ensures Surviving(mail, known, present) == mail
  {
    if mail != [] {
      NoneDeleted(mail[..|mail| - 1], known, present);
    }
  }

  lemma OthersKeepMail(rows: seq<Row>, whole: map<Id, Colony>, orig: Orig, part: State, c: Id, present: set<Id>)
    requires StoresOutbox(rows, whole) && c in whole && c !in part.colonies && PartOfColonies(part.colonies, whole)
    requires forall id :: id in orig.outbox <==> Mails(part.colonies, id)
    ensures Surviving(whole[c].outbox, orig.outbox, present) == whole[c].outbox
  {
    forall i | 0 <= i < |whole[c].outbox| ensures whole[c].outbox[i].id !in orig.outbox {
      if Mails(part.colonies, whole[c].outbox[i].id) {
        var d, j :| d in part.colonies && 0 <= j < |part.colonies[d].outbox| && part.colonies[d].outbox[j].id == whole[c].outbox[i].id;
        assert PartOfColony(part.colonies[d], whole[d]);
        OneOutbox(rows, whole, c, i, d, j);
      }
    }
    NoneDeleted(whole[c].outbox, orig.outbox, present);
  }

  /** After the deletions every outbox reads as the merged state says. */
  lemma MailEnds(before: seq<Row>, rows: seq<Row>, whole: State, part: State, st: State, orig: Orig, present: set<Id>)
    requires StoresOutbox(before, whole.colonies) && PartOf(part, whole) && Remembers(orig, part) && Grown(whole, st, orig, present)
    requires MailHalfway(rows, whole.colonies, st.colonies, orig.outbox, st.colonies.Keys)
    ensures StoresOutbox(Undeleted(rows, orig.outbox, present), MergeColonies(whole.colonies, st.colonies))
  {
    hide Continues, MailHalfway, Mails, FromDone, Sent, Surviving, OutboxOf, Undeleted, PartOfColonies, StoresAccounts, StoresProcessed, UniqueMail, MergeColony;
    var m := MergeColonies(whole.colonies, st.colonies);
    forall c | c in m ensures OutboxOf(Undeleted(rows, orig.outbox, present), c) == m[c].outbox {
      OutboxUndeleted(rows, orig.outbox, present, c);
      HalfwayOutbox(rows, whole.colonies, st.colonies, orig.outbox, c);
      if c in st.colonies {
        SurvivingAppend(Before(whole.colonies, c).0, Sent(st.colonies[c].outbox, orig.outbox), orig.outbox, present);
        SentSurvives(st.colonies[c].outbox, orig.outbox, present);
        MergedMail(whole.colonies, st.colonies, c);
      } else {
        OthersKeepMail(before, whole.colonies, orig, part, c, present);
      }
    }
    DeletedRows(rows, whole.colonies, st.colonies, orig.outbox, present);
  }

  lemma MergedMail(whole: map<Id, Colony>, part: map<Id, Colony>, c: Id)
    requires c in part
    ensures MergeColonies(whole, part)[c].outbox == part[c].outbox
  {
  }

  lemma HalfwayOutbox(rows: seq<Row>, whole: map<Id, Colony>, part: map<Id, Colony>, orig: set<Id>, c: Id)
    requires MailHalfway(rows, whole, part, orig, part.Keys)
    ensures OutboxOf(rows, c) == if c in part then Before(whole, c).0 + Sent(part[c].outbox, orig) else Before(whole, c).0
  {
    hide OutboxOf, Sent, UniqueMail, Mails, FromDone;
    if c !in part {
      assert Before(whole, c).0 + [] == Before(whole, c).0;
    }
  }

  lemma DeletedRows(rows: seq<Row>, whole: map<Id, Colony>, part: map<Id, Colony>, orig: set<Id>, present: set<Id>)
    requires MailHalfway(rows, whole, part, orig, part.Keys)
    ensures var left := Undeleted(rows, orig, present);
            UniqueMail(left) && forall i :: 0 <= i < |left| ==> left[i].0 in MergeColonies(whole, part)
  {
    hide OutboxOf, Sent, Mails, FromDone, MergeColony;
    UndeletedRows(rows, orig, present);
    var left := Undeleted(rows, orig, present);
    forall i | 0 <= i < |left| ensures left[i].0 in MergeColonies(whole, part) {
      var j :| 0 <= j < |rows| && rows[j] == left[i];
    }
  }

  lemma HeadersMerge(whole: map<Id, Colony>, part: map<Id, Colony>)
    ensures Headers(whole) + Headers(part) == Headers(MergeColonies(whole, part))
  {
  }

  lemma OrigInside(orig: Orig, part: State, whole: State)
    requires Remembers(orig, part) && PartOf(part, whole)
    ensures Inside(orig, whole.colonies)
    ensures SubMap(orig.colonies, Headers(whole.colonies)) && SubMap(orig.users, whole.users) && SubMap(orig.sessions, whole.sessions)
    ensures SubMap(orig.trades, whole.trades) && SubMap(orig.actions, whole.actions)
  {
    forall c | c in part.colonies ensures c in whole.colonies && PartOfColony(part.colonies[c], whole.colonies[c]) {
    }
  }

  lemma StartHalfway(t: Tables, whole: State, st: State, orig: Orig)
    requires Stores(t, whole)
    ensures ChildrenHalfway(t, whole.colonies, st.colonies, orig.outbox, {})
  {
    hide StoresAccounts, StoresLedger, StoresProcessed, Halfway, UniqueMail;
    HalfwayEnds(whole.colonies, st.colonies);
    forall d ensures OutboxOf(t.outbox, d) == Before(whole.colonies, d).0 + [] {
      if d !in whole.colonies && OutboxOf(t.outbox, d) != [] {
        RowOf(t.outbox, d, 0);
      }
    }
    forall i | 0 <= i < |t.outbox| ensures Mails(whole.colonies, t.outbox[i].1.id) {
      RowIsMail(t.outbox, whole.colonies, i);
    }
  }

  lemma {:induction false} RowInOutbox(rows: seq<Row>, i: nat)
    requires i < |rows|
    ensures exists k :: 0 <= k < |OutboxOf(rows, rows[i].0)| && OutboxOf(rows, rows[i].0)[k] == rows[i].1
  {
    var rest := rows[..|rows| - 1];
    if i < |rest| {
      RowInOutbox(rest, i);
      var k :| 0 <= k < |OutboxOf(rest, rows[i].0)| && OutboxOf(rest, rows[i].0)[k] == rows[i].1;
      assert OutboxOf(rows, rows[i].0)[k] == rows[i].1;
    } else {
      assert OutboxOf(rows, rows[i].0)[|OutboxOf(rest, rows[i].0)|] == rows[i].1;
    }
  }

  lemma RowIsMail(rows: seq<Row>, m: map<Id, Colony>, i: nat)
    requires StoresOutbox(rows, m) && i < |rows|
    ensures Mails(m, rows[i].1.id)
  {
    RowInOutbox(rows, i);
  }

  ghost predicate ChildrenFree(whole: State, orig: Orig, st: State) {
    && (forall c :: c in st.colonies ==> ColonyFree(whole.colonies, orig, whole.users + st.users, c, st.colonies[c]))
    && MailFree(whole.colonies, orig.outbox, st.colonies)
  }

  ghost predicate SeenMail(seen: set<Id>, m: map<Id, Colony>, done: set<Id>) {
    forall id :: id in seen <==> Mails(Only(m, done), id)
  }

  lemma SeenStep(seen: set<Id>, seen': set<Id>, m: map<Id, Colony>, done: set<Id>, c: Id)
    requires SeenMail(seen, m, done) && c in m && seen' == seen + set i | 0 <= i < |m[c].outbox| :: m[c].outbox[i].id
    ensures SeenMail(seen', m, done + {c})
  {
    forall id ensures id in seen' <==> Mails(Only(m, done + {c}), id) {
      if Mails(Only(m, done + {c}), id) {
        var d, i :| d in Only(m, done + {c}) && 0 <= i < |m[d].outbox| && m[d].outbox[i].id == id;
        assert d != c ==> d in Only(m, done);
      }
      if id in seen {
        var d, i :| d in Only(m, done) && 0 <= i < |Only(m, done)[d].outbox| && Only(m, done)[d].outbox[i].id == id;
        assert d in Only(m, done + {c});
      } else if id in seen' {
        var i :| 0 <= i < |m[c].outbox| && m[c].outbox[i].id == id;
        assert c in Only(m, done + {c});
      }
    }
  }

  lemma SeenAll(seen: set<Id>, m: map<Id, Colony>, mail: set<Id>)
    requires SeenMail(seen, m, m.Keys) && forall id :: id in mail <==> Mails(m, id)
    ensures seen == mail
  {
    assert Only(m, m.Keys) == m;
  }

  /** The loop over the colonies, then the deletions. */
  method PersistChildren(t: Tables, st: State, orig: Orig, ghost before: seq<Row>, ghost whole: State, ghost part: State, ghost mail: set<Id>)
    returns (r: Result<Tables>)
    requires ChildrenHalfway(t, whole.colonies, st.colonies, orig.outbox, {}) && t.users == whole.users + st.users
    requires StoresOutbox(before, whole.colonies) && PartOf(part, whole) && Remembers(orig, part) && Grown(whole, st, orig, mail)
    ensures r.Ok? ==>
              var m := MergeColonies(whole.colonies, st.colonies);
              && r.value == t.(accounts := r.value.accounts, ledger := r.value.ledger, outbox := r.value.outbox, processed := r.value.processed)
              && StoresAccounts(r.value.accounts, m) && StoresLedger(r.value.ledger, m)
              && StoresProcessed(r.value.processed, m) && StoresOutbox(r.value.outbox, m)
    ensures ChildrenFree(whole, orig, st) ==> r.Ok?
  {
    hide StoresAccounts, StoresLedger, StoresProcessed, StoresOutbox, MailHalfway, PartOf, Remembers, Inside, MailFree, ColonyFree,
         MergeColonies, Halfway, SeenMail, Mails, Sent, Surviving, Continues, ChildrenHalfway;
    OrigInside(orig, part, whole);
    var out, remaining, present := t, st.colonies.Keys, {};
    NothingSeen(st.colonies);
    assert st.colonies.Keys - remaining == {};
    while remaining != {}
      invariant remaining <= st.colonies.Keys
      invariant out == t.(accounts := out.accounts, ledger := out.ledger, outbox := out.outbox, processed := out.processed)
      invariant ChildrenHalfway(out, whole.colonies, st.colonies, orig.outbox, st.colonies.Keys - remaining)
      invariant SeenMail(present, st.colonies, st.colonies.Keys - remaining)
      decreases remaining
    {
      var c :| c in remaining;
      ghost var done := st.colonies.Keys - remaining;
      var step, seen := PersistColony(out, orig, c, st.colonies[c], present, whole, st, done);
      if step.Err? {
        return step;
      }
      SeenStep(present, seen, st.colonies, done, c);
      out, present, remaining := step.value, seen, remaining - {c};
      assert st.colonies.Keys - remaining == done + {c};
    }
    var left := DeleteMail(out.outbox, orig.outbox, present);
    assert st.colonies.Keys - {} == st.colonies.Keys;
    SeenAll(present, st.colonies, mail);
    ChildrenEnd(out, before, whole, part, st, orig, mail);
    return Ok(out.(outbox := left));
  }

  lemma NothingSeen(m: map<Id, Colony>)
    ensures SeenMail({}, m, m.Keys - m.Keys)
  {
  }

  lemma ChildrenEnd(t: Tables, before: seq<Row>, whole: State, part: State, st: State, orig: Orig, mail: set<Id>)
    requires ChildrenHalfway(t, whole.colonies, st.colonies, orig.outbox, st.colonies.Keys)
    requires StoresOutbox(before, whole.colonies) && PartOf(part, whole) && Remembers(orig, part) && Grown(whole, st, orig, mail)
    ensures var m := MergeColonies(whole.colonies, st.colonies);
            && StoresAccounts(t.accounts, m) && StoresLedger(t.ledger, m) && StoresProcessed(t.processed, m)
            && StoresOutbox(Undeleted(t.outbox, orig.outbox, mail), m)
  {
    hide StoresAccounts, StoresLedger, StoresProcessed, StoresOutbox, MailHalfway, PartOf, Remembers, Grown, MergeColonies, Halfway;
    HalfwayEnds(whole.colonies, st.colonies);
    MailEnds(before, t.outbox, whole, part, st, orig, mail);
  }

  /** Written back, the working state and the rows that were never loaded make up the merged state. */
  method Persist(t: Tables, st: State, orig: Orig, ghost whole: State, ghost part: State, ghost mail: set<Id>) returns (r: Result<Tables>)
    requires Stores(t, whole) && PartOf(part, whole) && Remembers(orig, part) && Grown(whole, st, orig, mail)
    ensures r.Ok? ==> Stores(r.value, Merge(whole, st)) && KeysFree(whole.trades, orig.trades, st.trades)
    ensures Acceptable(whole, orig, st) ==> r.Ok?
  {
    hide StoresAccounts, StoresLedger, StoresProcessed, StoresOutbox, Grown, PartOf, Remembers, ChildrenHalfway, Inside, SubMap, KeysFree,
         MailFree, ColonyFree, MergeColonies, Headers;
    OrigInside(orig, part, whole);
    FreeKeys(whole, orig, st);
    var colonies := Upsert(t.colonies, orig.colonies, Headers(st.colonies));
    if colonies.Err? { return Err(colonies.error); }
    var users := Upsert(t.users, orig.users, st.users);
    if users.Err? { return Err(users.error); }
    var sessions := Upsert(t.sessions, orig.sessions, st.sessions);
    if sessions.Err? { return Err(sessions.error); }
    var trades := Upsert(t.trades, orig.trades, st.trades);
    if trades.Err? { return Err(trades.error); }
    var actions := Upsert(t.actions, orig.actions, st.actions);
    if actions.Err? { return Err(actions.error); }
    var out := t.(colonies := colonies.value, users := users.value, sessions := sessions.value, trades := trades.value, actions := actions.value);
    HeadersMerge(whole.colonies, st.colonies);
    StartHalfway(t, whole, st, orig);
    ChildrenOnly(t, out, whole.colonies, st.colonies, orig.outbox, {});
    r := PersistChildren(out, st, orig, t.outbox, whole, part, mail);
    if r.Ok? {
      var bundles := InsertBundles(t.bundles, st.bundles);
      r := Ok(r.value.(bundles := bundles));
    }
  }

  lemma ChildrenOnly(t: Tables, t': Tables, whole: map<Id, Colony>, part: map<Id, Colony>, orig: set<Id>, done: set<Id>)
    requires ChildrenHalfway(t, whole, part, orig, done)
    requires t'.accounts == t.accounts && t'.ledger == t.ledger && t'.outbox == t.outbox && t'.processed == t.processed
    ensures ChildrenHalfway(t', whole, part, orig, done)
  {
    hide StoresAccounts, StoresLedger, StoresProcessed, MailHalfway;
  }

  lemma FreeKeys(whole: State, orig: Orig, st: State)
    ensures KeysFree(whole.colonies, orig.colonies, st.colonies) <==> KeysFree(Headers(whole.colonies), orig.colonies, Headers(st.colonies))
  {
  }
}
