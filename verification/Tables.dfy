/** The relational schema, and which whole state a set of tables stands for. */
module Tables {
  import opened Basics
  import opened Model

  type Row = (Id, Envelope)

  /** One field per table; the outbox is ordered by its `ord` column. */
  datatype Tables = Tables(
    colonies: map<Id, Colony>, users: map<Id, User>, sessions: map<string, Session>, trades: map<Id, Trade>,
    actions: map<Id, Action>, bundles: map<Id, Bundle>,
    accounts: map<(Id, Id), int64>, ledger: map<(Id, int), Entry>, outbox: seq<Row>, processed: set<(Id, Id)>)

  /** colonyHeader: the colony document without its child rows. */
  function Header(c: Colony): Colony {
    c.(accounts := map[], processed := {}, outbox := [], ledger := [])
  }

  function Headers(colonies: map<Id, Colony>): map<Id, Colony> {
    map c | c in colonies :: Header(colonies[c])
  }

  /** A colony's outbox: its rows in `ord` order. */
  function OutboxOf(rows: seq<Row>, c: Id): seq<Envelope> {
    if rows == [] then []
    else OutboxOf(rows[..|rows| - 1], c) + (if rows[|rows| - 1].0 == c then [rows[|rows| - 1].1] else [])
  }

  predicate HasMail(rows: seq<Row>, id: Id) {
    exists i :: 0 <= i < |rows| && rows[i].1.id == id
  }

  predicate UniqueMail(rows: seq<Row>) {
    forall i, j :: 0 <= i < j < |rows| ==> rows[i].1.id != rows[j].1.id
  }

  // ---- table by table ---------------------------------------------------------

  ghost predicate StoresColonies(headers: map<Id, Colony>, m: map<Id, Colony>) {
    headers == Headers(m)
  }

  ghost predicate StoresAccounts(accounts: map<(Id, Id), int64>, m: map<Id, Colony>) {
    && (forall c, u :: (c, u) in accounts <==> c in m && u in m[c].accounts)
    && (forall c, u :: c in m && u in m[c].accounts ==> accounts[(c, u)] == m[c].accounts[u])
  }

  ghost predicate StoresLedger(ledger: map<(Id, int), Entry>, m: map<Id, Colony>) {
    && (forall c, k :: (c, k) in ledger <==> c in m && 1 <= k <= |m[c].ledger|)
    && (forall c, k :: c in m && 1 <= k <= |m[c].ledger| ==> ledger[(c, k)] == m[c].ledger[k - 1])
  }

  ghost predicate StoresOutbox(rows: seq<Row>, m: map<Id, Colony>) {
    && UniqueMail(rows)
    && (forall c :: c in m ==> OutboxOf(rows, c) == m[c].outbox)
    && (forall i :: 0 <= i < |rows| ==> rows[i].0 in m)
  }

  ghost predicate StoresProcessed(processed: set<(Id, Id)>, m: map<Id, Colony>) {
    forall c, e :: (c, e) in processed <==> c in m && e in m[c].processed
  }

  /** The tables hold exactly the state `s`. */
  ghost predicate Stores(t: Tables, s: State) {
    && t.users == s.users && t.sessions == s.sessions && t.trades == s.trades && t.actions == s.actions && t.bundles == s.bundles
    && StoresColonies(t.colonies, s.colonies) && StoresAccounts(t.accounts, s.colonies) && StoresLedger(t.ledger, s.colonies)
    && StoresOutbox(t.outbox, s.colonies) && StoresProcessed(t.processed, s.colonies)
  }

  // ---- the outbox as an ordered log ---------------------------------------------

  /** Rows of one colony. */
  function Tagged(c: Id, mail: seq<Envelope>): seq<Row> {
    seq(|mail|, i requires 0 <= i < |mail| => (c, mail[i]))
  }

  /** The envelopes that are not yet rows. */
  function Sent(mail: seq<Envelope>, known: set<Id>): seq<Envelope> {
    if mail == [] then []
    else Sent(mail[..|mail| - 1], known) + (if mail[|mail| - 1].id in known then [] else [mail[|mail| - 1]])
  }

  /** What deleting leaves: a known envelope survives only while it is still present. */
  function Surviving(mail: seq<Envelope>, known: set<Id>, present: set<Id>): seq<Envelope> {
    if mail == [] then []
    else Surviving(mail[..|mail| - 1], known, present)
         + (if mail[|mail| - 1].id in known && mail[|mail| - 1].id !in present then [] else [mail[|mail| - 1]])
  }

  function Undeleted(rows: seq<Row>, known: set<Id>, present: set<Id>): seq<Row> {
    if rows == [] then []
    else Undeleted(rows[..|rows| - 1], known, present)
         + (if rows[|rows| - 1].1.id in known && rows[|rows| - 1].1.id !in present then [] else [rows[|rows| - 1]])
  }

  lemma {:induction false} OutboxAppend(a: seq<Row>, b: seq<Row>, c: Id)
    ensures OutboxOf(a + b, c) == OutboxOf(a, c) + OutboxOf(b, c)
  {
    if b == [] {
      assert a + b == a;
    } else {
      OutboxAppend(a, b[..|b| - 1], c);
      assert (a + b)[..|a + b| - 1] == a + b[..|b| - 1];
    }
  }

  lemma {:induction false} OutboxTagged(c: Id, mail: seq<Envelope>, d: Id)
    ensures OutboxOf(Tagged(c, mail), d) == if c == d then mail else []
  {
    if mail != [] {
      OutboxTagged(c, mail[..|mail| - 1], d);
      assert Tagged(c, mail)[..|mail| - 1] == Tagged(c, mail[..|mail| - 1]);
    }
  }

  /** Deleting rows and reading one colony's outbox commute. */
  lemma {:induction false} OutboxUndeleted(rows: seq<Row>, known: set<Id>, present: set<Id>, c: Id)
    ensures OutboxOf(Undeleted(rows, known, present), c) == Surviving(OutboxOf(rows, c), known, present)
  {
    if rows != [] {
      var rest, last := rows[..|rows| - 1], rows[|rows| - 1];
      var tail := if last.1.id in known && last.1.id !in present then [] else [last];
      var mine := if last.0 == c then [last.1] else [];
      OutboxUndeleted(rest, known, present, c);
      OutboxAppend(Undeleted(rest, known, present), tail, c);
      SurvivingAppend(OutboxOf(rest, c), mine, known, present);
      assert [last][..0] == [] && [last.1][..0] == [];
    }
  }

  lemma {:induction false} SurvivingAppend(a: seq<Envelope>, b: seq<Envelope>, known: set<Id>, present: set<Id>)
    ensures Surviving(a + b, known, present) == Surviving(a, known, present) + Surviving(b, known, present)
  {
    if b == [] {
      assert a + b == a;
    } else {
      SurvivingAppend(a, b[..|b| - 1], known, present);
      assert (a + b)[..|a + b| - 1] == a + b[..|b| - 1];
    }
  }

  lemma {:induction false} SentSurvives(mail: seq<Envelope>, known: set<Id>, present: set<Id>)
    ensures Surviving(Sent(mail, known), known, present) == Sent(mail, known)
  {
    if mail != [] {
      var rest, last := mail[..|mail| - 1], mail[|mail| - 1];
      SentSurvives(rest, known, present);
      if last.id !in known {
        SurvivingAppend(Sent(rest, known), [last], known, present);
        assert [last][..0] == [];
      } else {
        assert Sent(rest, known) + [] == Sent(rest, known);
      }
    }
  }

  lemma {:induction false} UndeletedRows(rows: seq<Row>, known: set<Id>, present: set<Id>)
    ensures forall i :: 0 <= i < |Undeleted(rows, known, present)| ==> Undeleted(rows, known, present)[i] in rows
    ensures UniqueMail(rows) ==> UniqueMail(Undeleted(rows, known, present))
  {
    if rows != [] {
      UndeletedRows(rows[..|rows| - 1], known, present);
      var kept := Undeleted(rows[..|rows| - 1], known, present);
      forall i | 0 <= i < |kept| && UniqueMail(rows) ensures kept[i].1.id != rows[|rows| - 1].1.id {
        var j :| 0 <= j < |rows| - 1 && rows[j] == kept[i];
      }
    }
  }
}
