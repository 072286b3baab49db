/** Every handler's differences satisfy the schema, so a transaction that got this far commits. */
module Transactions {
  import opened Basics
  import opened TradeTable
  import opened Model
  import opened Handlers
  import opened Invariant
  import opened Runs
  import opened Scopes
  import opened Statements
  import opened Tables
  import opened Persist
  import opened Working

  // ---- export ------------------------------------------------------------------------

  lemma {:induction false} OutboxUnique(rows: seq<Row>, c: Id)
    requires UniqueMail(rows)
    ensures var mail := OutboxOf(rows, c); forall i, j :: 0 <= i < j < |mail| ==> mail[i].id != mail[j].id
  {
    if rows != [] {
      var rest, last := rows[..|rows| - 1], rows[|rows| - 1];
      var before := OutboxOf(rest, c);
      OutboxUnique(rest, c);
      forall i | 0 <= i < |before| ensures before[i].id != last.1.id {
        RowOf(rest, c, i);
        var x :| 0 <= x < |rest| && rest[x] == (c, before[i]);
        assert rows[x] == rest[x];
      }
      OneMore(before, last.1);
    }
  }

  lemma OneMore(mail: seq<Envelope>, e: Envelope)
    requires forall i, j :: 0 <= i < j < |mail| ==> mail[i].id != mail[j].id
    requires forall i :: 0 <= i < |mail| ==> mail[i].id != e.id
    ensures var more := mail + [e]; forall i, j :: 0 <= i < j < |more| ==> more[i].id != more[j].id
  {
  }

  lemma KeptElsewhere(mail: seq<Envelope>, to: Id, i: nat, k: nat)
    requires forall x, y :: 0 <= x < y < |mail| ==> mail[x].id != mail[y].id
    requires i < |mail| && mail[i].to == to && k < |Kept(mail, to)|
    ensures Kept(mail, to)[k].id != mail[i].id
  {
    KeptIsKept(mail, to, k);
    var x :| 0 <= x < |mail| && mail[x] == Kept(mail, to)[k];
    assert x < i || i < x;
  }

  /** The colonies after an export: one outbox keeps only what goes elsewhere. */
  function Exported(m: map<Id, Colony>, from: Id, to: Id): map<Id, Colony>
    requires from in m
  {
    m[from := m[from].(outbox := Kept(m[from].outbox, to))]
  }

  /** An exported envelope is nowhere else. */
  lemma ExportedIsGone(rows: seq<Row>, whole: map<Id, Colony>, part: map<Id, Colony>, from: Id, to: Id, i: nat)
    requires StoresOutbox(rows, whole) && PartOfColonies(part, whole) && from in part && i < |part[from].outbox|
    ensures Mails(Exported(part, from, to), part[from].outbox[i].id) <==> part[from].outbox[i].to != to
  {
    hide UniqueMail;
    var m, mail := Exported(part, from, to), part[from].outbox;
    forall c | c in part ensures c in whole && part[c].outbox == whole[c].outbox {
      assert PartOfColony(part[c], whole[c]);
    }
    OutboxUnique(rows, from);
    assert OutboxOf(rows, from) == mail;
    if mail[i].to == to {
      forall d, j | d in m && 0 <= j < |m[d].outbox| ensures m[d].outbox[j].id != mail[i].id {
        if d == from {
          KeptElsewhere(mail, to, i, j);
        } else if m[d].outbox[j].id == mail[i].id {
          OneOutbox(rows, whole, from, i, d, j);
        }
      }
    } else {
      KeptHas(mail, to, i);
      var k :| 0 <= k < |Kept(mail, to)| && Kept(mail, to)[k] == mail[i];
      assert m[from].outbox[k].id == mail[i].id;
    }
  }

  lemma ExportGrows(rows: seq<Row>, whole: State, part: State, orig: Orig, mail: set<Id>, from: Id, to: Id, c: Id)
    requires StoresOutbox(rows, whole.colonies) && PartOf(part, whole) && Remembers(orig, part) && from in part.colonies && c in part.colonies
    requires forall id :: id in mail <==> Mails(Exported(part.colonies, from, to), id)
    ensures var out := Exported(part.colonies, from, to)[c].outbox;
            && out == Surviving(Before(whole.colonies, c).0, orig.outbox, mail) + Sent(out, orig.outbox)
            && forall i :: 0 <= i < |out| ==> out[i].id in orig.outbox
  {
    hide StoresOutbox, StoresAccounts, StoresProcessed, Headers;
    var m := Exported(part.colonies, from, to);
    var was := part.colonies[c].outbox;
    assert PartOfColony(part.colonies[c], whole.colonies[c]);
    forall i | 0 <= i < |was| ensures was[i].id in orig.outbox {
      assert Mails(part.colonies, was[i].id);
    }
    if c == from {
      forall i | 0 <= i < |was| ensures was[i].id in mail <==> was[i].to != to {
        ExportedIsGone(rows, whole.colonies, part.colonies, from, to, i);
      }
      KeptSurvives(was, to, orig.outbox, mail);
      forall k | 0 <= k < |Kept(was, to)| ensures Kept(was, to)[k].id in orig.outbox {
        KeptIsKept(was, to, k);
      }
      assert Kept(was, to) + [] == Kept(was, to);
    } else {
      assert m[c].outbox == was;
      forall i | 0 <= i < |was| ensures was[i].id in mail {
        assert m[c].outbox[i] == was[i];
      }
      AllSurvive(was, orig.outbox, mail);
      SentAfter(was, [], orig.outbox);
      assert was + [] == was;
    }
  }

  // ---- keys ------------------------------------------------------------------------------

  /** Every row the handler wrote was loaded, or its key is not in the tables. */
  ghost predicate RowsCovered(whole: State, part: State, st: State) {
    && (forall t :: t in st.trades ==> t in part.trades || t !in whole.trades)
    && (forall u :: u in st.users ==> u in part.users || u !in whole.users)
    && (forall a :: a in st.actions ==> a in part.actions || a !in whole.actions)
    && st.sessions == part.sessions
  }

  predicate Balanced(whole: map<Id, Colony>, part: map<Id, Colony>, c: Id, x: Colony) {
    && (forall u :: u in x.accounts ==> (c in part && u in part[c].accounts) || !(c in whole && u in whole[c].accounts))
    && (forall e :: e in x.processed ==> (c in part && e in part[c].processed) || !(c in whole && e in whole[c].processed))
  }

  ghost predicate ColoniesCovered(whole: map<Id, Colony>, part: map<Id, Colony>, m: map<Id, Colony>) {
    forall c :: c in m ==> (c in part || c !in whole) && Balanced(whole, part, c, m[c])
  }

  /** With the merged state sound, nothing in the schema is in the way. */
  lemma CoveredIsAcceptable(p: Platform, whole: State, part: State, st: State, orig: Orig)
    requires Inv(p, Merge(whole, st)) && Remembers(orig, part)
    requires RowsCovered(whole, part, st) && ColoniesCovered(whole.colonies, part.colonies, st.colonies) && MailFree(whole.colonies, orig.outbox, st.colonies)
    ensures Acceptable(whole, orig, st)
  {
    hide Inv, MailFree, Balanced, StoresAccounts, StoresProcessed, ColonyFree, MergeColonies;
    forall c | c in st.colonies ensures ColonyFree(whole.colonies, orig, whole.users + st.users, c, st.colonies[c]) {
      MergedAccounts(p, whole, st, c);
      ColonyIsFree(whole, part, st, orig, c);
    }
  }

  lemma ColonyIsFree(whole: State, part: State, st: State, orig: Orig, c: Id)
    requires StoresAccounts(orig.accounts, part.colonies) && StoresProcessed(orig.processed, part.colonies)
    requires c in st.colonies && Balanced(whole.colonies, part.colonies, c, st.colonies[c])
    requires forall u :: u in st.colonies[c].accounts ==> st.colonies[c].accounts[u] >= 0 && u in whole.users + st.users
    ensures ColonyFree(whole.colonies, orig, whole.users + st.users, c, st.colonies[c])
  {
  }

  lemma MergedAccounts(p: Platform, whole: State, st: State, c: Id)
    requires Inv(p, Merge(whole, st)) && c in st.colonies
    ensures forall u :: u in st.colonies[c].accounts ==> st.colonies[c].accounts[u] >= 0 && u in whole.users + st.users
  {
    hide Conserved, Mirrored, AllChained, Replays, Outcomes, SupplyBounds, DualControl, TradeRow, ClaimRows;
    var m := Merge(whole, st);
    forall u | u in st.colonies[c].accounts ensures st.colonies[c].accounts[u] >= 0 && u in whole.users + st.users {
      assert u in m.colonies[c].accounts && m.colonies[c].accounts[u] == st.colonies[c].accounts[u];
      assert AccountExact(m, c, u);
      assert Lives(m, u, c);
    }
  }

  // ---- requests ------------------------------------------------------------------------------

  /** The rows an effect writes were read by the handler, or carry the id it just drew. */
  predicate WritesKnown(o: Oracle, part: State, fx: Effect) {
    && (fx.trade.Some? ==> fx.trade.value.0 in part.trades || fx.trade.value.0 == o.newId)
    && (fx.user.Some? ==> fx.user.value.0 == o.newId)
    && (fx.action.Some? ==> fx.action.value.0 in part.actions || fx.action.value.0 == o.newId)
    && (fx.account.Some? ==> fx.account.value.0 == o.newId
                             || (fx.colony in part.colonies && fx.account.value.0 in part.colonies[fx.colony].accounts))
    && (fx.founded.Some? ==> fx.founded.value == (o.newId, NewColony(o.newId, o.pub, o.priv)) && fx.colony == o.newId)
    && (fx.drain.None? ==> MailsNext(fx, o, 0))
    && (fx.drain.Some? ==> fx.emit == [] && fx.account.None? && fx.claim.None? && fx.founded.None?)
  }

  lemma DecisionWrites(p: Platform, o: Oracle, s: State, token: string, request: Request)
    requires request.DecideApproval? && Plan(p, o, s, token, request).Ok?
    ensures WritesKnown(o, s, Plan(p, o, s, token, request).value)
  {
    hide Actor, AddChecked, Past, TransitionAllowed;
  }

  lemma OfferWrites(p: Platform, o: Oracle, s: State, token: string, request: Request)
    requires request.CreateOffer? && Plan(p, o, s, token, request).Ok?
    ensures WritesKnown(o, s, Plan(p, o, s, token, request).value)
  {
    hide Actor, Wrap, TrimSpace, Stamp;
  }

  lemma TradeWrites(p: Platform, o: Oracle, s: State, token: string, request: Request)
    requires Plan(p, o, s, token, request).Ok? && (request.AcceptTrade? || request.CancelTrade?)
    ensures WritesKnown(o, s, Plan(p, o, s, token, request).value)
  {
    hide Actor, IsExpired, Wrap, TransitionAllowed, Stamp;
  }

  lemma QuietWrites(p: Platform, o: Oracle, s: State, token: string, request: Request)
    requires Plan(p, o, s, token, request).Ok? && !request.CreateOffer? && !request.AcceptTrade? && !request.CancelTrade? && !request.DecideApproval?
    ensures WritesKnown(o, s, Plan(p, o, s, token, request).value)
  {
    hide Actor, AddChecked, TrimSpace, Picked, Wrapped, Stamp, EffectiveMintCap, CanManageColony, CanRelay, HasRole, ValidatePolicy;
  }

  lemma RequestWrites(p: Platform, o: Oracle, s: State, token: string, request: Request)
    requires Plan(p, o, s, token, request).Ok?
    ensures WritesKnown(o, s, Plan(p, o, s, token, request).value)
  {
    hide Plan, WritesKnown;
    if request.DecideApproval? {
      DecisionWrites(p, o, s, token, request);
    } else if request.AcceptTrade? || request.CancelTrade? {
      TradeWrites(p, o, s, token, request);
    } else if request.CreateOffer? {
      OfferWrites(p, o, s, token, request);
    } else {
      QuietWrites(p, o, s, token, request);
    }
  }

  lemma RequestRowsCovered(p: Platform, now: int, o: Oracle, whole: State, f: Found, fx: Effect)
    requires Fresh(whole, o) && WritesKnown(o, Load(whole, f), fx)
    ensures RowsCovered(whole, Load(whole, f), Post(p, now, Load(whole, f), fx))
  {
    hide PostColonies, LoadColony;
  }

  /** What posting can do to one colony's keyed rows. */
  lemma PostedKeys(p: Platform, now: int, m: map<Id, Colony>, fx: Effect, c: Id)
    requires c in m
    ensures var x := PostColonies(p, now, m, fx);
            && x.Keys == m.Keys && x[c].processed == m[c].processed
            && x[c].accounts == if c == fx.colony then Put(m[c].accounts, fx.account) else m[c].accounts
  {
    hide HashLedgerEntry;
  }

  lemma RequestColoniesCovered(p: Platform, now: int, o: Oracle, whole: State, f: Found, fx: Effect)
    requires Fresh(whole, o) && WritesKnown(o, Load(whole, f), fx) && Homes(whole)
    ensures ColoniesCovered(whole.colonies, Load(whole, f).colonies, Post(p, now, Load(whole, f), fx).colonies)
  {
    hide PostColonies, LoadColony, Balanced;
    var part := Load(whole, f);
    var m := Put(part.colonies, fx.founded);
    forall c | c in m ensures PostColonies(p, now, m, fx).Keys == m.Keys && (c in part.colonies || c !in whole.colonies)
                              && Balanced(whole.colonies, part.colonies, c, PostColonies(p, now, m, fx)[c]) {
      PostedKeys(p, now, m, fx, c);
      RequestBalanced(o, whole, f, fx, c, PostColonies(p, now, m, fx)[c]);
    }
  }

  lemma RequestBalanced(o: Oracle, whole: State, f: Found, fx: Effect, c: Id, x: Colony)
    requires Fresh(whole, o) && WritesKnown(o, Load(whole, f), fx) && Homes(whole)
    requires var m := Put(Load(whole, f).colonies, fx.founded);
             && c in m && x.processed == m[c].processed
             && x.accounts == if c == fx.colony then Put(m[c].accounts, fx.account) else m[c].accounts
    ensures Balanced(whole.colonies, Load(whole, f).colonies, c, x)
  {
    hide MailsNext;
    NewIdHasNoAccount(o, whole, c);
  }

  lemma NewIdHasNoAccount(o: Oracle, s: State, c: Id)
    requires Fresh(s, o) && Homes(s)
    ensures c in s.colonies ==> o.newId !in s.colonies[c].accounts
  {
    forall u | c in s.colonies && u in s.colonies[c].accounts ensures u != o.newId {
      assert Lives(s, u, c);
    }
  }

  // ---- a request's differences are accepted -----------------------------------------------------

  lemma FoundedFirst(p: Platform, now: int, s: State, fx: Effect)
    ensures Post(p, now, s, fx) == Post(p, now, s.(colonies := Put(s.colonies, fx.founded)), fx.(founded := None))
  {
    hide Append;
    var fx' := fx.(founded := None);
    assert forall c: Colony :: Touch(c, fx) == Touch(c, fx');
    assert PostColonies(p, now, Put(s.colonies, fx.founded), fx) == PostColonies(p, now, Put(s.colonies, fx.founded), fx');
  }

  lemma UnfoundMails(o: Oracle, fx: Effect)
    requires MailsNext(fx, o, 0)
    ensures MailsNext(fx.(founded := None), o, 0)
  {
  }

  lemma RequestWorks(p: Platform, now: int, o: Oracle, whole: State, f: Found, fx: Effect)
    requires Fresh(whole, o) && FreshMail(o, whole) && WritesKnown(o, Load(whole, f), fx) && fx.drain.None?
    requires forall c :: c in whole.colonies ==> whole.colonies[c].nextSeq == |whole.colonies[c].ledger|
    ensures var m := Post(p, now, Load(whole, f), fx).colonies;
            Works(whole.colonies, m, o, 1) && NoneSkipped(whole.colonies, Load(whole, f).colonies, m)
  {
    hide Works, FreshMail, LoadColony, PostColonies, MailsNext;
    var part := Load(whole, f);
    LoadWorks(p, whole, f, o);
    if fx.founded.Some? {
      FoundWorks(whole.colonies, part.colonies, o, o.newId, o.pub, o.priv);
    }
    FoundedFirst(p, now, part, fx);
    UnfoundMails(o, fx);
    PostWorks(p, now, whole, part.(colonies := Put(part.colonies, fx.founded)), o, 0, fx.(founded := None));
  }

  lemma PostedChain(p: Platform, now: int, m: map<Id, Colony>, fx: Effect, c: Id, n: nat)
    requires c in m && Continues(n, m[c].ledger) && m[c].nextSeq == n + |m[c].ledger|
    ensures c in PostColonies(p, now, m, fx) && Continues(n, PostColonies(p, now, m, fx)[c].ledger)
  {
    hide HashLedgerEntry;
  }

  lemma ExportedMail(p: Platform, now: int, m: map<Id, Colony>, fx: Effect)
    requires fx.drain.Some? && fx.emit == [] && fx.claim.None? && fx.colony in m
    ensures var x := PostColonies(p, now, m, fx);
            x.Keys == m.Keys && forall c :: c in m ==> x[c].outbox == Exported(m, fx.colony, fx.drain.value)[c].outbox
  {
    hide HashLedgerEntry;
    assert Kept(m[fx.colony].outbox, fx.drain.value) + [] == Kept(m[fx.colony].outbox, fx.drain.value);
  }

  lemma SameMail(a: map<Id, Colony>, b: map<Id, Colony>, id: Id)
    requires a.Keys == b.Keys && forall c :: c in a ==> a[c].outbox == b[c].outbox
    ensures Mails(a, id) ==> Mails(b, id)
  {
  }

  lemma ExportIsGrown(p: Platform, now: int, whole: State, f: Found, orig: Orig, mail: set<Id>, rows: seq<Row>, fx: Effect)
    requires StoresOutbox(rows, whole.colonies) && Remembers(orig, Load(whole, f)) && fx.colony in Load(whole, f).colonies
    requires fx.drain.Some? && fx.emit == [] && fx.claim.None? && fx.founded.None?
    requires forall c :: c in whole.colonies ==> whole.colonies[c].nextSeq == |whole.colonies[c].ledger|
    requires forall id :: id in mail <==> Mails(Post(p, now, Load(whole, f), fx).colonies, id)
    ensures var st := Post(p, now, Load(whole, f), fx); Grown(whole, st, orig, mail) && MailFree(whole.colonies, orig.outbox, st.colonies)
  {
    hide StoresOutbox, Remembers, PostColonies, Exported, Mails, Sent, Surviving, Continues, Kept;
    var part := Load(whole, f);
    var m := Post(p, now, part, fx).colonies;
    LoadIsPart(whole, f);
    ExportedMail(p, now, part.colonies, fx);
    var e := Exported(part.colonies, fx.colony, fx.drain.value);
    ExportedKeys(part.colonies, fx.colony, fx.drain.value);
    forall id ensures Mails(m, id) <==> Mails(e, id) {
      SameMail(m, e, id);
      SameMail(e, m, id);
    }
    forall c | c in part.colonies
      ensures && c in m && m[c].outbox == e[c].outbox && Continues(Before(whole.colonies, c).1, m[c].ledger)
              && m[c].outbox == Surviving(Before(whole.colonies, c).0, orig.outbox, mail) + Sent(m[c].outbox, orig.outbox)
              && forall i :: 0 <= i < |m[c].outbox| ==> m[c].outbox[i].id in orig.outbox {
      BlankChain(whole, f, c);
      PostedChain(p, now, part.colonies, fx, c, Before(whole.colonies, c).1);
      ExportGrows(rows, whole, part, orig, mail, fx.colony, fx.drain.value, c);
    }
    RememberedKeys(orig, part);
    NoneSent(whole.colonies, orig.outbox, m);
  }

  lemma ExportedKeys(m: map<Id, Colony>, from: Id, to: Id)
    requires from in m
    ensures Exported(m, from, to).Keys == m.Keys
  {
  }

  lemma RememberedKeys(orig: Orig, part: State)
    requires Remembers(orig, part)
    ensures orig.colonies.Keys == part.colonies.Keys && orig.sessions == part.sessions
  {
    hide StoresAccounts, StoresProcessed;
  }

  lemma BlankChain(whole: State, f: Found, c: Id)
    requires c in Load(whole, f).colonies && whole.colonies[c].nextSeq == |whole.colonies[c].ledger|
    ensures var n, x := Before(whole.colonies, c).1, Load(whole, f).colonies[c]; Continues(n, x.ledger) && x.nextSeq == n + |x.ledger|
  {
  }

  lemma NoneSent(whole: map<Id, Colony>, known: set<Id>, m: map<Id, Colony>)
    requires forall c :: c in m ==> forall i :: 0 <= i < |m[c].outbox| ==> m[c].outbox[i].id in known
    ensures MailFree(whole, known, m)
  {
    hide Mails;
  }

  /** Whatever a request decided, its differences can be written and meet no constraint. */
  lemma RequestCommits(p: Platform, o: Oracle, whole: State, f: Found, orig: Orig, mail: set<Id>, rows: seq<Row>, fx: Effect)
    requires Fresh(whole, o) && FreshMail(o, whole) && WritesKnown(o, Load(whole, f), fx) && Inv(p, whole)
    requires Inv(p, Merge(whole, Post(p, o.now, Load(whole, f), fx)))
    requires StoresOutbox(rows, whole.colonies) && Remembers(orig, Load(whole, f)) && (fx.drain.Some? ==> fx.colony in Load(whole, f).colonies)
    requires forall id :: id in mail <==> Mails(Post(p, o.now, Load(whole, f), fx).colonies, id)
    ensures var st := Post(p, o.now, Load(whole, f), fx); Grown(whole, st, orig, mail) && Acceptable(whole, orig, st)
  {
    hide Post, Load, Inv, Fresh, FreshMail, WritesKnown, Grown, Acceptable, Remembers, StoresOutbox, Mails, MailFree, RowsCovered, ColoniesCovered;
    var part := Load(whole, f);
    var st := Post(p, o.now, part, fx);
    LoadIsPart(whole, f);
    ChainsCount(p, whole);
    if fx.drain.Some? {
      DrainShape(o, part, fx);
      ExportIsGrown(p, o.now, whole, f, orig, mail, rows, fx);
    } else {
      RequestWorks(p, o.now, o, whole, f, fx);
      PostKeepsSessions(p, o.now, part, fx);
      WorksGrown(whole, part, st, orig, mail, o, 1);
    }
    RequestRowsCovered(p, o.now, o, whole, f, fx);
    SoundHomes(p, whole);
    RequestColoniesCovered(p, o.now, o, whole, f, fx);
    CoveredIsAcceptable(p, whole, part, st, orig);
  }

  lemma DrainShape(o: Oracle, part: State, fx: Effect)
    requires WritesKnown(o, part, fx) && fx.drain.Some?
    ensures fx.emit == [] && fx.claim.None? && fx.founded.None?
  {
  }

  lemma PostKeepsSessions(p: Platform, now: int, s: State, fx: Effect)
    ensures Post(p, now, s, fx).sessions == s.sessions
  {
  }

  lemma SoundHomes(p: Platform, s: State)
    requires Inv(p, s)
    ensures Homes(s)
  {
    hide Homes, Accounting, Conserved, Mirrored, AllChained, Replays, Outcomes, SupplyBounds, DualControl;
  }

  lemma ChainsCount(p: Platform, s: State)
    requires Inv(p, s)
    ensures forall c :: c in s.colonies ==> s.colonies[c].nextSeq == |s.colonies[c].ledger|
  {
    hide Homes, Accounting, Conserved, Mirrored, Replays, Outcomes, SupplyBounds, DualControl, EntrySealed;
    forall c | c in s.colonies ensures s.colonies[c].nextSeq == |s.colonies[c].ledger| {
      assert Chained(p, c, s.colonies[c]);
    }
  }
}
