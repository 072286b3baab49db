/** Where an import's changes come from: who may bring a bundle in, and the signed message behind every trade that changed. */
module Provenance {
  import opened Basics
  import opened Model
  import opened Handlers
  import opened Rights
  import opened ScopedImports

  // ---- who may bring a bundle in ---------------------------------------------------------

  /** A relay of the colony brings a bundle addressed to it, from a colony whose present key it has pinned. */
  predicate Admitted(p: Platform, o: Oracle, s: State, token: string, colony: Id, b: Bundle) {
    && colony != "" && SignedIn(p, o, s, token) && MayRelay(s, Caller(s, token), colony)
    && colony in s.colonies && b.to == colony && b.from in s.colonies
    && (if b.from in s.colonies[colony].trusted then s.colonies[colony].trusted[b.from] else "") == s.colonies[b.from].pub
  }

  lemma ChecksAreAdmissions(p: Platform, o: Oracle, s: State, token: string, colony: Id, b: Bundle)
    ensures CheckImport(p, o, s, token, colony, b).Ok? <==> Admitted(p, o, s, token, colony, b)
    ensures Admitted(p, o, s, token, colony, b) ==> CheckImport(p, o, s, token, colony, b) == Ok(Caller(s, token))
  {
    hide Actor, SignedIn;
    CallersAreSignedIn(p, o, s, token);
  }

  lemma {:induction false} NilsPass(p: Platform, o: Oracle, s: State, source: Id, target: Id, messages: seq<Option<Envelope>>, n: nat)
    requires source in s.colonies && target in s.colonies && n <= |messages| && forall i :: 0 <= i < n ==> messages[i].None?
    ensures ImportUpTo(p, o, s, source, target, messages, n) == Ok(Progress(s, 0, 0, [], []))
  {
    if n > 0 {
      NilsPass(p, o, s, source, target, messages, n - 1);
    }
  }

  /** No bundle comes in that is not admitted; one without a message comes in exactly when it is. */
  lemma OnlyAdmittedBundlesComeIn(p: Platform, o: Oracle, s: State, token: string, colony: Id, id: Id, b: Bundle)
    ensures ImportBundle(p, o, s, token, colony, id, b).Ok? ==> Admitted(p, o, s, token, colony, b)
    ensures (forall i :: 0 <= i < |b.messages| ==> b.messages[i].None?) ==>
              (ImportBundle(p, o, s, token, colony, id, b).Ok? <==> Admitted(p, o, s, token, colony, b))
  {
    hide CheckImport, Admitted, ImportUpTo, Post;
    ChecksAreAdmissions(p, o, s, token, colony, b);
    if CheckImport(p, o, s, token, colony, b).Ok? && forall i :: 0 <= i < |b.messages| ==> b.messages[i].None? {
      NilsPass(p, o, s, b.from, colony, b.messages, |b.messages|);
    }
  }

  // ---- every message that is looked at is signed -----------------------------------------

  /** The message is on the bundle's route and carries the signature of the colony it comes from. */
  predicate SignedBy(p: Platform, pub: string, from: Id, to: Id, e: Envelope) {
    e.from == from && e.to == to && p.verify(pub, EnvelopeSig(e.id, e.kind, e.from, e.to, e.body, e.createdAt), e.signature)
  }

  predicate SameCharter(c: Colony, c': Colony) {
    c'.pub == c.pub && c'.mintCap == c.mintCap && c'.dual == c.dual
  }

  /** The people, the colonies' keys and their policies are as before. */
  predicate SameSettings(s: State, s': State) {
    && s'.users == s.users && s'.colonies.Keys == s.colonies.Keys
    && forall c :: c in s.colonies ==> SameCharter(s.colonies[c], s'.colonies[c])
  }

  lemma PostKeepsSettings(p: Platform, now: int, s: State, fx: Effect)
    requires fx.founded.None? && fx.user.None? && fx.cap.None? && fx.dual.None?
    ensures SameSettings(s, Post(p, now, s, fx))
  {
    hide HashLedgerEntry, Kept;
  }

  lemma MarkKeepsSettings(s: State, colony: Id, id: Id)
    ensures SameSettings(s, MarkProcessed(s, colony, id))
  {
    if colony in s.colonies {
      var c := s.colonies[colony];
      assert SameCharter(c, c.(processed := c.processed + {id}));
    }
  }

  lemma SettingsStay(a: State, b: State, c: State)
    requires SameSettings(a, b) && SameSettings(b, c)
    ensures SameSettings(a, c)
  {
    forall x | x in a.colonies ensures SameCharter(a.colonies[x], c.colonies[x]) {
      assert SameCharter(a.colonies[x], b.colonies[x]) && SameCharter(b.colonies[x], c.colonies[x]);
    }
  }

  lemma MessageKeepsSettings(p: Platform, o: Oracle, i: nat, source: Id, target: Id, acc: Progress, m: Option<Envelope>)
    requires source in acc.state.colonies && target in acc.state.colonies && ImportMessage(p, o, i, source, target, acc, m).Ok?
    ensures SameSettings(acc.state, ImportMessage(p, o, i, source, target, acc, m).value.state)
  {
    hide PlanEnvelope, Post, MarkProcessed, SameSettings;
    var s := acc.state;
    if m.None? || m.value.id in s.colonies[target].processed {
      SameStaysSet(s);
    } else {
      var step := PlanEnvelope(p, o, i, s, source, target, m.value).value;
      if step.Some? {
        var s1 := Post(p, o.now, s, step.value);
        PostKeepsSettings(p, o.now, s, step.value);
        MarkKeepsSettings(s1, target, m.value.id);
        SettingsStay(s, s1, MarkProcessed(s1, target, m.value.id));
      } else {
        MarkKeepsSettings(s, target, m.value.id);
      }
    }
  }

  lemma SameStaysSet(s: State)
    ensures SameSettings(s, s)
  {
  }

  lemma {:induction false} LoopKeepsSettings(p: Platform, o: Oracle, s: State, source: Id, target: Id, messages: seq<Option<Envelope>>, n: nat)
    requires source in s.colonies && target in s.colonies && n <= |messages| && ImportUpTo(p, o, s, source, target, messages, n).Ok?
    ensures SameSettings(s, ImportUpTo(p, o, s, source, target, messages, n).value.state)
  {
    hide ImportMessage, SameSettings;
    if n == 0 {
      SameStaysSet(s);
    } else {
      var acc := ImportUpTo(p, o, s, source, target, messages, n - 1).value;
      LoopKeepsSettings(p, o, s, source, target, messages, n - 1);
      MessageKeepsSettings(p, o, n - 1, source, target, acc, messages[n - 1]);
      SettingsStay(s, acc.state, ImportUpTo(p, o, s, source, target, messages, n).value.state);
    }
  }

  /** What the loop demands of the first `n` messages. */
  ghost predicate AllSigned(p: Platform, pub: string, from: Id, to: Id, processed: set<Id>, messages: seq<Option<Envelope>>, n: nat)
    requires n <= |messages|
  {
    forall k :: 0 <= k < n && messages[k].Some? ==>
      && messages[k].value.from == from && messages[k].value.to == to
      && (Skipped(processed, messages, k) || SignedBy(p, pub, from, to, messages[k].value))
  }

  lemma MessageIsSigned(p: Platform, o: Oracle, i: nat, source: Id, target: Id, acc: Progress, e: Envelope)
    requires source in acc.state.colonies && target in acc.state.colonies && ImportMessage(p, o, i, source, target, acc, Some(e)).Ok?
    ensures e.from == source && e.to == target
    ensures e.id in acc.state.colonies[target].processed || SignedBy(p, acc.state.colonies[source].pub, source, target, e)
  {
    hide PlanEnvelope, Post;
  }

  lemma SignedOneMore(p: Platform, pub: string, from: Id, to: Id, processed: set<Id>, messages: seq<Option<Envelope>>, n: nat)
    requires n < |messages| && AllSigned(p, pub, from, to, processed, messages, n)
    requires messages[n].Some? ==>
               && messages[n].value.from == from && messages[n].value.to == to
               && (Skipped(processed, messages, n) || SignedBy(p, pub, from, to, messages[n].value))
    ensures AllSigned(p, pub, from, to, processed, messages, n + 1)
  {
    hide Skipped, SignedBy;
  }

  lemma {:induction false} LoopIsSigned(p: Platform, o: Oracle, s: State, source: Id, target: Id, messages: seq<Option<Envelope>>, n: nat)
    requires source in s.colonies && target in s.colonies && n <= |messages| && ImportUpTo(p, o, s, source, target, messages, n).Ok?
    ensures AllSigned(p, s.colonies[source].pub, source, target, s.colonies[target].processed, messages, n)
  {
    hide ImportMessage, SignedBy, IdsUpTo, AllSigned;
    if n == 0 {
      NoneToSign(p, s.colonies[source].pub, source, target, s.colonies[target].processed, messages);
    } else {
      var acc := ImportUpTo(p, o, s, source, target, messages, n - 1).value;
      LoopIsSigned(p, o, s, source, target, messages, n - 1);
      LoopMarks(p, o, s, source, target, messages, n - 1);
      LoopKeepsSettings(p, o, s, source, target, messages, n - 1);
      assert SameCharter(s.colonies[source], acc.state.colonies[source]);
      if messages[n - 1].Some? {
        MessageIsSigned(p, o, n - 1, source, target, acc, messages[n - 1].value);
      }
      SignedOneMore(p, s.colonies[source].pub, source, target, s.colonies[target].processed, messages, n - 1);
    }
  }

  lemma NoneToSign(p: Platform, pub: string, from: Id, to: Id, processed: set<Id>, messages: seq<Option<Envelope>>)
    ensures AllSigned(p, pub, from, to, processed, messages, 0)
  {
  }

  /** A bundle comes in only if every message in it is on its route, and signed by its source colony unless its id was seen before. */
  lemma ImportedMessagesAreSigned(p: Platform, o: Oracle, s: State, token: string, colony: Id, id: Id, b: Bundle)
    requires ImportBundle(p, o, s, token, colony, id, b).Ok?
    ensures colony in s.colonies && b.from in s.colonies
    ensures AllSigned(p, s.colonies[b.from].pub, b.from, colony, s.colonies[colony].processed, b.messages, |b.messages|)
  {
    hide CheckImport, ImportUpTo, Post, AllSigned;
    LoopIsSigned(p, o, s, b.from, colony, b.messages, |b.messages|);
  }

  /** One message without that signature, and the whole bundle is refused. */
  lemma UnsignedMessagesRefuseTheBundle(p: Platform, o: Oracle, s: State, token: string, colony: Id, id: Id, b: Bundle, k: nat)
    requires colony in s.colonies && b.from in s.colonies && k < |b.messages| && b.messages[k].Some?
    requires !Skipped(s.colonies[colony].processed, b.messages, k)
    requires !SignedBy(p, s.colonies[b.from].pub, b.from, colony, b.messages[k].value)
    ensures ImportBundle(p, o, s, token, colony, id, b).Err?
  {
    hide SignedBy, ImportBundle, Skipped;
    if ImportBundle(p, o, s, token, colony, id, b).Ok? {
      ImportedMessagesAreSigned(p, o, s, token, colony, id, b);
    }
  }
}
