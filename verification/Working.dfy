/** Handlers only append to what they loaded, so their differences can always be written back. */
module Working {
  import opened Model
  import opened Handlers
  import opened Scopes
  import opened Statements
  import opened Tables
  import opened Persist

  /** The envelope ids a handler draws are new, and no two of them are equal. */
  ghost predicate FreshMail(o: Oracle, s: State) {
    && (forall i: nat :: !Mails(s.colonies, o.envelopeId(i)))
    && (forall i: nat, j: nat :: i < j ==> o.envelopeId(i) != o.envelopeId(j))
  }

  /** Entries continue the stored chain and new mail follows the stored mail. */
  predicate WorksColony(before: (seq<Envelope>, nat), c: Colony) {
    Continues(before.1, c.ledger) && c.nextSeq == before.1 + |c.ledger| && before.0 <= c.outbox
  }

  ghost predicate NewAt(whole: map<Id, Colony>, m: map<Id, Colony>, c: Id, i: int) {
    c in m && |Before(whole, c).0| <= i < |m[c].outbox|
  }

  ghost predicate DrawnBy(o: Oracle, n: nat, id: Id) {
    exists k: nat :: k < n && id == o.envelopeId(k)
  }

  /** Mail a handler added carries ids it drew, each once. */
  ghost predicate MailDrawn(whole: map<Id, Colony>, m: map<Id, Colony>, o: Oracle, n: nat) {
    && (forall c, i :: NewAt(whole, m, c, i) ==> DrawnBy(o, n, m[c].outbox[i].id))
    && (forall c, i, d, j :: NewAt(whole, m, c, i) && NewAt(whole, m, d, j) && m[c].outbox[i].id == m[d].outbox[j].id ==> c == d && i == j)
  }

  ghost predicate Works(whole: map<Id, Colony>, m: map<Id, Colony>, o: Oracle, n: nat) {
    (forall c :: c in m ==> WorksColony(Before(whole, c), m[c])) && MailDrawn(whole, m, o, n)
  }

  /** The part holds a colony whenever the whole does and the working state has it. */
  predicate NoneSkipped(whole: map<Id, Colony>, part: map<Id, Colony>, m: map<Id, Colony>) {
    part.Keys <= m.Keys && forall c :: c in m && c in whole ==> c in part
  }

  lemma {:induction false} AllSurvive(mail: seq<Envelope>, known: set<Id>, present: set<Id>)
    requires forall i :: 0 <= i < |mail| ==> mail[i].id in present
    ensures Surviving(mail, known, present) == mail
  {
    if mail != [] {
      AllSurvive(mail[..|mail| - 1], known, present);
    }
  }

  /** Of old mail followed by new mail, the new mail is what gets sent. */
  lemma {:induction false} SentAfter(was: seq<Envelope>, added: seq<Envelope>, known: set<Id>)
    requires forall i :: 0 <= i < |was| ==> was[i].id in known
    requires forall i :: 0 <= i < |added| ==> added[i].id !in known
    ensures Sent(was + added, known) == added
    decreases |was| + |added|
  {
    if added != [] {
      SentAfter(was, added[..|added| - 1], known);
      assert (was + added)[..|was + added| - 1] == was + added[..|added| - 1];
    } else if was != [] {
      SentAfter(was[..|was| - 1], [], known);
      assert was + [] == was && was[..|was| - 1] + [] == was[..|was| - 1];
    }
  }

  lemma ColonyGrows(whole: map<Id, Colony>, part: map<Id, Colony>, m: map<Id, Colony>, known: set<Id>, present: set<Id>, o: Oracle, n: nat, c: Id)
    requires Works(whole, m, o, n) && PartOfColonies(part, whole) && NoneSkipped(whole, part, m) && c in m
    requires forall i: nat :: !Mails(whole, o.envelopeId(i))
    requires forall id :: id in known <==> Mails(part, id)
    requires forall id :: id in present <==> Mails(m, id)
    ensures m[c].outbox == Surviving(Before(whole, c).0, known, present) + Sent(m[c].outbox, known)
  {
    var was := Before(whole, c).0;
    var added := m[c].outbox[|was|..];
    assert WorksColony(Before(whole, c), m[c]);
    assert m[c].outbox == was + added;
    forall i | 0 <= i < |was| ensures was[i].id in present && was[i].id in known {
      assert m[c].outbox[i] == was[i];
      assert PartOfColony(part[c], whole[c]);
      assert part[c].outbox[i] == was[i];
    }
    forall i | 0 <= i < |added| ensures added[i].id !in known {
      assert NewAt(whole, m, c, |was| + i) && m[c].outbox[|was| + i] == added[i];
      if Mails(part, added[i].id) {
        var d, j :| d in part && 0 <= j < |part[d].outbox| && part[d].outbox[j].id == added[i].id;
        assert PartOfColony(part[d], whole[d]);
        assert Mails(whole, added[i].id);
      }
    }
    AllSurvive(was, known, present);
    SentAfter(was, added, known);
  }

  lemma OldMailIsKnown(whole: map<Id, Colony>, part: map<Id, Colony>, m: map<Id, Colony>, known: set<Id>, o: Oracle, n: nat, c: Id, i: int)
    requires Works(whole, m, o, n) && PartOfColonies(part, whole) && NoneSkipped(whole, part, m)
    requires forall id :: id in known <==> Mails(part, id)
    requires c in m && 0 <= i < |Before(whole, c).0|
    ensures i < |m[c].outbox| && m[c].outbox[i].id in known
  {
    assert WorksColony(Before(whole, c), m[c]);
    assert PartOfColony(part[c], whole[c]);
    assert part[c].outbox[i] == m[c].outbox[i];
  }

  lemma NewIsNew(whole: map<Id, Colony>, part: map<Id, Colony>, m: map<Id, Colony>, known: set<Id>, o: Oracle, n: nat, c: Id, i: int)
    requires Works(whole, m, o, n) && PartOfColonies(part, whole) && NoneSkipped(whole, part, m)
    requires forall id :: id in known <==> Mails(part, id)
    requires NewMail(known, m, c, i)
    ensures NewAt(whole, m, c, i)
  {
    hide Mails, Works;
    forall j | 0 <= j < |Before(whole, c).0| ensures j < |m[c].outbox| && m[c].outbox[j].id in known {
      OldMailIsKnown(whole, part, m, known, o, n, c, j);
    }
  }

  /** What a handler leaves can be persisted, and its mail meets no unique constraint. */
  lemma WorksGrown(whole: State, part: State, st: State, orig: Orig, mail: set<Id>, o: Oracle, n: nat)
    requires Works(whole.colonies, st.colonies, o, n) && PartOf(part, whole) && Remembers(orig, part) && FreshMail(o, whole)
    requires NoneSkipped(whole.colonies, part.colonies, st.colonies) && st.sessions == part.sessions
    requires forall id :: id in mail <==> Mails(st.colonies, id)
    ensures Grown(whole, st, orig, mail) && MailFree(whole.colonies, orig.outbox, st.colonies)
  {
    hide PartOfColonies, Mails, Sent, Surviving, Continues, StoresAccounts, StoresProcessed, NewMail, NewAt, DrawnBy;
    forall c | c in st.colonies
      ensures st.colonies[c].outbox == Surviving(Before(whole.colonies, c).0, orig.outbox, mail) + Sent(st.colonies[c].outbox, orig.outbox) {
      ColonyGrows(whole.colonies, part.colonies, st.colonies, orig.outbox, mail, o, n, c);
    }
    forall c, i | NewMail(orig.outbox, st.colonies, c, i)
      ensures NewAt(whole.colonies, st.colonies, c, i) && !Mails(whole.colonies, NewId(st.colonies, c, i)) {
      NewIsNew(whole.colonies, part.colonies, st.colonies, orig.outbox, o, n, c, i);
      DrawnIsUnknown(whole, st.colonies, o, n, c, i);
    }
    MailIsFree(whole.colonies, orig.outbox, st.colonies, o, n);
  }

  function NewId(m: map<Id, Colony>, c: Id, i: int): Id {
    if c in m && 0 <= i < |m[c].outbox| then m[c].outbox[i].id else ""
  }

  lemma DrawnIsUnknown(whole: State, m: map<Id, Colony>, o: Oracle, n: nat, c: Id, i: int)
    requires MailDrawn(whole.colonies, m, o, n) && FreshMail(o, whole) && NewAt(whole.colonies, m, c, i)
    ensures !Mails(whole.colonies, NewId(m, c, i))
  {
    assert DrawnBy(o, n, m[c].outbox[i].id);
  }

  lemma MailIsFree(whole: map<Id, Colony>, known: set<Id>, m: map<Id, Colony>, o: Oracle, n: nat)
    requires MailDrawn(whole, m, o, n)
    requires forall c, i :: NewMail(known, m, c, i) ==> NewAt(whole, m, c, i) && !Mails(whole, NewId(m, c, i))
    ensures MailFree(whole, known, m)
  {
    hide Mails;
  }

  // ---- posting keeps it so --------------------------------------------------------------

  /** The effect mails at most one envelope, under the next drawn id, and empties no outbox. */
  predicate MailsNext(fx: Effect, o: Oracle, n: nat) {
    fx.drain.None? && (fx.emit == [] || (|fx.emit| == 1 && fx.emit[0].id == o.envelopeId(n)))
  }

  lemma PostedColony(p: Platform, now: int, before: (seq<Envelope>, nat), id: Id, c: Colony, fx: Effect)
    requires WorksColony(before, c) && fx.drain.None?
    ensures var c' := Append(p, id, Touch(c, fx), Stamp(p, now), fx.actor, fx.payload);
            WorksColony(before, c') && c'.outbox == c.outbox + fx.emit
  {
    hide HashLedgerEntry;
  }

  lemma DrawnGrows(o: Oracle, n: nat)
    ensures forall id :: DrawnBy(o, n, id) ==> DrawnBy(o, n + 1, id)
    ensures DrawnBy(o, n + 1, o.envelopeId(n))
  {
    forall id | DrawnBy(o, n, id) ensures DrawnBy(o, n + 1, id) {
      var k: nat :| k < n && id == o.envelopeId(k);
      assert k < n + 1;
    }
  }

  /** One more envelope at the end of one outbox. */
  lemma MailAdded(whole: map<Id, Colony>, m: map<Id, Colony>, m': map<Id, Colony>, o: Oracle, n: nat, id: Id, fx: Effect)
    requires MailDrawn(whole, m, o, n) && MailsNext(fx, o, n) && id in m && m'.Keys == m.Keys
    requires forall i: nat, j: nat :: i < j ==> o.envelopeId(i) != o.envelopeId(j)
    requires forall c :: c in m ==> m'[c].outbox == if c == id then m[c].outbox + fx.emit else m[c].outbox
    ensures MailDrawn(whole, m', o, n + 1)
  {
    DrawnGrows(o, n);
    forall c, i | NewAt(whole, m', c, i) ensures if NewAt(whole, m, c, i) then m'[c].outbox[i] == m[c].outbox[i] && DrawnBy(o, n, m[c].outbox[i].id)
                                                 else c == id && i == |m[c].outbox| && m'[c].outbox[i].id == o.envelopeId(n) {
      if i < |m[c].outbox| {
        assert NewAt(whole, m, c, i);
      }
    }
    NextIsUndrawn(o, n);
  }

  lemma NextIsUndrawn(o: Oracle, n: nat)
    requires forall i: nat, j: nat :: i < j ==> o.envelopeId(i) != o.envelopeId(j)
    ensures !DrawnBy(o, n, o.envelopeId(n))
  {
  }

  lemma PostColoniesWork(p: Platform, now: int, m: map<Id, Colony>, fx: Effect, c: Id, before: (seq<Envelope>, nat))
    requires c in m && WorksColony(before, m[c]) && fx.drain.None?
    ensures var m' := PostColonies(p, now, m, fx);
            m'.Keys == m.Keys && WorksColony(before, m'[c])
            && m'[c].outbox == if c == fx.colony then m[c].outbox + fx.emit else m[c].outbox
  {
    hide Append, Touch, Continues;
    if fx.colony in m && c == fx.colony {
      PostedColony(p, now, before, c, m[c], fx);
    }
  }

  lemma PostWorks(p: Platform, now: int, whole: State, st: State, o: Oracle, n: nat, fx: Effect)
    requires Works(whole.colonies, st.colonies, o, n) && MailsNext(fx, o, n) && FreshMail(o, whole) && fx.founded.None?
    ensures Works(whole.colonies, Post(p, now, st, fx).colonies, o, n + 1)
  {
    hide WorksColony, PostColonies, MailDrawn;
    var m, m' := st.colonies, Post(p, now, st, fx).colonies;
    forall c | c in m ensures m'.Keys == m.Keys && WorksColony(Before(whole.colonies, c), m'[c])
                              && m'[c].outbox == if c == fx.colony then m[c].outbox + fx.emit else m[c].outbox {
      PostColoniesWork(p, now, m, fx, c, Before(whole.colonies, c));
    }
    if fx.colony in m {
      MailAdded(whole.colonies, m, m', o, n, fx.colony, fx);
    } else {
      assert m' == m by { Untouched(p, now, m, fx); }
      DrawnLater(whole.colonies, m, o, n);
    }
  }

  lemma Untouched(p: Platform, now: int, m: map<Id, Colony>, fx: Effect)
    requires fx.colony !in m
    ensures PostColonies(p, now, m, fx) == m
  {
  }

  lemma DrawnLater(whole: map<Id, Colony>, m: map<Id, Colony>, o: Oracle, n: nat)
    requires MailDrawn(whole, m, o, n)
    ensures MailDrawn(whole, m, o, n + 1)
  {
    DrawnGrows(o, n);
  }

  lemma FoundWorks(whole: map<Id, Colony>, m: map<Id, Colony>, o: Oracle, id: Id, pub: string, priv: string)
    requires Works(whole, m, o, 0) && id !in whole && id !in m
    ensures Works(whole, m[id := NewColony(id, pub, priv)], o, 0)
  {
    var m' := m[id := NewColony(id, pub, priv)];
    forall c, i | NewAt(whole, m', c, i) ensures NewAt(whole, m, c, i) && m'[c].outbox[i] == m[c].outbox[i] {
    }
  }

  lemma MarkWorks(whole: map<Id, Colony>, st: State, o: Oracle, n: nat, colony: Id, id: Id)
    requires Works(whole, st.colonies, o, n)
    ensures Works(whole, MarkProcessed(st, colony, id).colonies, o, n)
  {
    var m, m' := st.colonies, MarkProcessed(st, colony, id).colonies;
    assert forall c :: c in m ==> m'[c].outbox == m[c].outbox && m'[c].ledger == m[c].ledger && m'[c].nextSeq == m[c].nextSeq;
    forall c, i | NewAt(whole, m', c, i) ensures NewAt(whole, m, c, i) {
    }
  }

  /** Freshly loaded rows: nothing appended yet. */
  lemma LoadWorks(p: Platform, s: State, f: Found, o: Oracle)
    requires forall c :: c in s.colonies ==> s.colonies[c].nextSeq == |s.colonies[c].ledger|
    ensures Works(s.colonies, Load(s, f).colonies, o, 0) && NoneSkipped(s.colonies, Load(s, f).colonies, Load(s, f).colonies)
  {
  }

  // ---- exporting empties part of an outbox --------------------------------------------------

  lemma {:induction false} KeptSurvives(mail: seq<Envelope>, to: Id, known: set<Id>, present: set<Id>)
    requires forall i :: 0 <= i < |mail| ==> mail[i].id in known && (mail[i].id in present <==> mail[i].to != to)
    ensures Surviving(mail, known, present) == Kept(mail, to) && Sent(Kept(mail, to), known) == []
  {
    if mail != [] {
      var rest, last := mail[..|mail| - 1], mail[|mail| - 1];
      KeptSurvives(rest, to, known, present);
      if last.to != to {
        assert (Kept(rest, to) + [last])[..|Kept(rest, to)|] == Kept(rest, to);
      } else {
        assert Kept(rest, to) + [] == Kept(rest, to);
      }
    }
  }

  lemma {:induction false} KeptIsKept(mail: seq<Envelope>, to: Id, k: nat)
    requires k < |Kept(mail, to)|
    ensures Kept(mail, to)[k].to != to && exists i :: 0 <= i < |mail| && mail[i] == Kept(mail, to)[k]
  {
    var rest := mail[..|mail| - 1];
    if k < |Kept(rest, to)| {
      KeptIsKept(rest, to, k);
      var i :| 0 <= i < |rest| && rest[i] == Kept(rest, to)[k];
      assert mail[i] == rest[i];
    }
  }

  lemma {:induction false} KeptHas(mail: seq<Envelope>, to: Id, i: nat)
    requires i < |mail| && mail[i].to != to
    ensures exists k :: 0 <= k < |Kept(mail, to)| && Kept(mail, to)[k] == mail[i]
  {
    var rest := mail[..|mail| - 1];
    if i < |rest| {
      KeptHas(rest, to, i);
      var k :| 0 <= k < |Kept(rest, to)| && Kept(rest, to)[k] == rest[i];
      assert Kept(mail, to)[k] == mail[i];
    } else {
      assert Kept(mail, to)[|Kept(rest, to)|] == mail[i];
    }
  }
}
