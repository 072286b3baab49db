/** The differences of imports and sweeps satisfy the schema too, however many steps they take. */
module ImportCommits {
  import opened Basics
  import opened TradeTable
  import opened Model
  import opened Handlers
  import opened Invariant
  import opened Service
  import opened Scopes
  import opened ScopedImports
  import opened Statements
  import opened Persist
  import opened Working
  import opened Transactions

  /** What one envelope writes: existing accounts, its own trade, and at most one reply. */
  predicate WritesDeal(o: Oracle, i: nat, s: State, env: Envelope, fx: Effect) {
    && MailsNext(fx, o, i) && fx.founded.None? && fx.user.None? && fx.action.None? && env.body.Body?
    && (fx.account.Some? ==> fx.colony in s.colonies && fx.account.value.0 in s.colonies[fx.colony].accounts)
    && (fx.trade.Some? ==> fx.trade.value.0 == env.body.trade)
  }

  lemma DecisionWritesDeal(p: Platform, o: Oracle, i: nat, s: State, source: Id, target: Id, env: Envelope)
    requires source in s.colonies && target in s.colonies
    ensures var r := PlanImportAcceptance(p, o, i, s, source, target, env); r.Ok? && r.value.Some? ==> WritesDeal(o, i, s, env, r.value.value)
    ensures var r := PlanImportCancel(p, o, i, s, source, target, env); r.Ok? && r.value.Some? ==> WritesDeal(o, i, s, env, r.value.value)
  {
    hide StepOf, TransitionAllowed, AddChecked, AcceptedAfterExpiry;
  }

  lemma RowWritesDeal(p: Platform, o: Oracle, i: nat, s: State, source: Id, target: Id, env: Envelope)
    ensures var r := PlanImportOffer(p, s, source, target, env); r.Ok? && r.value.Some? ==> WritesDeal(o, i, s, env, r.value.value)
    ensures var r := PlanImportSettlement(p, o, s, source, target, env); r.Ok? && r.value.Some? ==> WritesDeal(o, i, s, env, r.value.value)
    ensures var r := PlanImportRefund(p, o, s, source, target, env); r.Ok? && r.value.Some? ==> WritesDeal(o, i, s, env, r.value.value)
  {
    hide StepOf, TransitionAllowed, AddChecked, TrimSpace;
  }

  lemma EnvelopeWritesDeal(p: Platform, o: Oracle, i: nat, s: State, source: Id, target: Id, env: Envelope)
    requires source in s.colonies && target in s.colonies
    ensures var r := PlanEnvelope(p, o, i, s, source, target, env); r.Ok? && r.value.Some? ==> WritesDeal(o, i, s, env, r.value.value)
  {
    hide PlanImportOffer, PlanImportAcceptance, PlanImportSettlement, PlanImportCancel, PlanImportRefund, WritesDeal;
    DecisionWritesDeal(p, o, i, s, source, target, env);
    RowWritesDeal(p, o, i, s, source, target, env);
  }

  // ---- the rows an import holds ----------------------------------------------------------

  predicate KeyedColony(f: Found, c: Colony, x: Colony) {
    x.accounts.Keys == c.accounts.Keys && (forall e :: e in x.processed ==> e in c.processed || e in f.envelopes)
  }

  ghost predicate Keyed(f: Found, part: State, st: State) {
    && st.users == part.users && st.actions == part.actions && st.sessions == part.sessions
    && st.colonies.Keys == part.colonies.Keys
    && (forall t :: t in st.trades ==> t in part.trades || Knows(f.trades, t))
    && (forall c :: c in part.colonies ==> KeyedColony(f, part.colonies[c], st.colonies[c]))
  }

  lemma PostKeyed(p: Platform, now: int, f: Found, o: Oracle, i: nat, part: State, st: State, env: Envelope, fx: Effect)
    requires Keyed(f, part, st) && WritesDeal(o, i, st, env, fx) && Knows(f.trades, env.body.trade)
    ensures Keyed(f, part, Post(p, now, st, fx))
  {
    hide PostColonies, MailsNext;
    forall c | c in st.colonies ensures c in PostColonies(p, now, st.colonies, fx) && KeyedColony(f, part.colonies[c], PostColonies(p, now, st.colonies, fx)[c])
                                        && PostColonies(p, now, st.colonies, fx).Keys == st.colonies.Keys {
      PostedKeys(p, now, st.colonies, fx, c);
    }
    KeysKept(p, now, st.colonies, fx);
  }

  lemma KeysKept(p: Platform, now: int, m: map<Id, Colony>, fx: Effect)
    ensures PostColonies(p, now, m, fx).Keys == m.Keys
  {
    hide Append, Touch;
  }

  lemma MarkKeyed(f: Found, part: State, st: State, colony: Id, e: Id)
    requires Keyed(f, part, st) && e in f.envelopes
    ensures Keyed(f, part, MarkProcessed(st, colony, e))
  {
  }

  /** The working state of an import, before message `n`. */
  ghost predicate Importing(f: Found, whole: State, part: State, st: State, o: Oracle, n: nat) {
    Works(whole.colonies, st.colonies, o, n) && Keyed(f, part, st)
  }

  /** The scope declares the envelope and the trade it names, unless that is the empty id. */
  predicate Declared(f: Found, env: Envelope) {
    env.id in f.envelopes && (env.body.Body? ==> Knows(f.trades, env.body.trade))
  }

  ghost predicate AllDeclared(f: Found, messages: seq<Option<Envelope>>) {
    forall i :: 0 <= i < |messages| && messages[i].Some? ==> Declared(f, messages[i].value)
  }

  lemma BundleDeclared(p: Platform, s: State, sc: Scope, token: string, colony: Id, b: Bundle, dbNow: int)
    requires IsBundleScope(sc, token, colony, b)
    ensures AllDeclared(Discover(p, s, sc, dbNow), b.messages)
  {
    hide Discover, Covered, Ids, IsBundleScope, Widened;
    ScopeFound(p, s, sc, dbNow);
    forall i | 0 <= i < |b.messages| && b.messages[i].Some? ensures Declared(Discover(p, s, sc, dbNow), b.messages[i].value) {
      MessageCovered(Discover(p, s, sc, dbNow), s, sc, token, colony, b, i);
    }
  }

  lemma MessageImporting(p: Platform, o: Oracle, i: nat, f: Found, whole: State, part: State, source: Id, target: Id, acc: Progress, m: Option<Envelope>)
    requires Importing(f, whole, part, acc.state, o, i) && FreshMail(o, whole) && (m.Some? ==> Declared(f, m.value))
    requires source in acc.state.colonies && target in acc.state.colonies
    ensures var r := ImportMessage(p, o, i, source, target, acc, m); r.Ok? ==> Importing(f, whole, part, r.value.state, o, i + 1)
  {
    hide Works, Keyed, FreshMail, PlanEnvelope, Post, MarkProcessed, WritesDeal;
    WorksLater(whole.colonies, acc.state.colonies, o, i);
    if m.Some? {
      var env := m.value;
      MarkWorks(whole.colonies, acc.state, o, i + 1, target, env.id);
      MarkKeyed(f, part, acc.state, target, env.id);
      var step := PlanEnvelope(p, o, i, acc.state, source, target, env);
      if step.Ok? && step.value.Some? {
        var fx := step.value.value;
        EnvelopeWritesDeal(p, o, i, acc.state, source, target, env);
        DealMails(o, i, acc.state, env, fx);
        PostWorks(p, o.now, whole, acc.state, o, i, fx);
        PostKeyed(p, o.now, f, o, i, part, acc.state, env, fx);
        MarkWorks(whole.colonies, Post(p, o.now, acc.state, fx), o, i + 1, target, env.id);
        MarkKeyed(f, part, Post(p, o.now, acc.state, fx), target, env.id);
      }
    }
  }

  lemma WorksLater(whole: map<Id, Colony>, m: map<Id, Colony>, o: Oracle, n: nat)
    requires Works(whole, m, o, n)
    ensures Works(whole, m, o, n + 1)
  {
    hide MailDrawn, WorksColony;
    DrawnLater(whole, m, o, n);
  }

  lemma DealMails(o: Oracle, i: nat, s: State, env: Envelope, fx: Effect)
    requires WritesDeal(o, i, s, env, fx)
    ensures MailsNext(fx, o, i) && fx.founded.None? && env.body.Body?
  {
  }

  lemma {:induction false} LoopImporting(p: Platform, o: Oracle, f: Found, whole: State, part: State, source: Id, target: Id,
                                         messages: seq<Option<Envelope>>, n: nat)
    requires Importing(f, whole, part, part, o, 0) && FreshMail(o, whole) && AllDeclared(f, messages)
    requires source in part.colonies && target in part.colonies && n <= |messages|
    ensures var r := ImportUpTo(p, o, part, source, target, messages, n); r.Ok? ==> Importing(f, whole, part, r.value.state, o, n)
  {
    hide Importing, ImportMessage, Declared, FreshMail;
    if n > 0 {
      LoopImporting(p, o, f, whole, part, source, target, messages, n - 1);
      var acc := ImportUpTo(p, o, part, source, target, messages, n - 1);
      if acc.Ok? {
        MessageImporting(p, o, n - 1, f, whole, part, source, target, acc.value, messages[n - 1]);
      }
    }
  }

  // ---- an import's differences are accepted -------------------------------------------------

  lemma KeyedIsCovered(f: Found, whole: State, st: State)
    requires Keyed(f, Load(whole, f), st) && Sees(f, Load(whole, f), whole) && ("" in st.trades ==> "" !in whole.trades)
    ensures RowsCovered(whole, Load(whole, f), st) && ColoniesCovered(whole.colonies, Load(whole, f).colonies, st.colonies)
  {
    hide LoadColony;
    var part := Load(whole, f);
    forall t | t in st.trades && t in f.trades ensures t in part.trades || t !in whole.trades {
      assert Same(part.trades, whole.trades, t);
    }
    forall c | c in st.colonies ensures Balanced(whole.colonies, part.colonies, c, st.colonies[c]) {
      assert KeyedColony(f, part.colonies[c], st.colonies[c]);
      LoadedEnvelopes(f, whole.colonies[c]);
    }
  }

  lemma LoadedEnvelopes(f: Found, c: Colony)
    ensures forall e :: e in f.envelopes && e in c.processed ==> e in LoadColony(c, f).processed
  {
  }

  lemma ImportStays(p: Platform, o: Oracle, f: Found, whole: State, token: string, colony: Id, id: Id, b: Bundle)
    requires FreshMail(o, whole) && AllDeclared(f, b.messages)
    requires forall c :: c in whole.colonies ==> whole.colonies[c].nextSeq == |whole.colonies[c].ledger|
    ensures var r := ImportBundle(p, o, Load(whole, f), token, colony, id, b);
            r.Ok? ==> Importing(f, whole, Load(whole, f), r.value.0, o, |b.messages| + 1)
  {
    hide Works, CheckImport, ImportUpTo, FreshMail, AllDeclared, Load, Post, Keyed;
    var part := Load(whole, f);
    LoadWorks(p, whole, f, o);
    LoadKeyed(f, part);
    if CheckImport(p, o, part, token, colony, b).Ok? {
      LoopImporting(p, o, f, whole, part, b.from, colony, b.messages, |b.messages|);
      var acc := ImportUpTo(p, o, part, b.from, colony, b.messages, |b.messages|);
      if acc.Ok? {
        var fx := ImportClosing(colony, CheckImport(p, o, part, token, colony, b).value, id, b, acc.value.imported, acc.value.skipped);
        PostWorks(p, o.now, whole, acc.value.state, o, |b.messages|, fx);
        ClosingKeyed(p, o.now, f, part, acc.value.state, fx);
      }
    }
  }

  lemma LoadKeyed(f: Found, part: State)
    ensures Keyed(f, part, part)
  {
  }

  lemma ClosingKeyed(p: Platform, now: int, f: Found, part: State, st: State, fx: Effect)
    requires Keyed(f, part, st) && fx.account.None? && fx.trade.None? && fx.user.None? && fx.action.None? && fx.founded.None?
    ensures Keyed(f, part, Post(p, now, st, fx))
  {
    hide PostColonies;
    KeysKept(p, now, st.colonies, fx);
    forall c | c in st.colonies ensures c in PostColonies(p, now, st.colonies, fx) && KeyedColony(f, part.colonies[c], PostColonies(p, now, st.colonies, fx)[c]) {
      PostedKeys(p, now, st.colonies, fx, c);
    }
  }

  /** What an import leaves can be written back. */
  lemma ImportIsGrown(o: Oracle, whole: State, f: Found, orig: Orig, mail: set<Id>, st: State, n: nat)
    requires FreshMail(o, whole) && Importing(f, whole, Load(whole, f), st, o, n) && Remembers(orig, Load(whole, f))
    requires forall id :: id in mail <==> Mails(st.colonies, id)
    ensures Grown(whole, st, orig, mail) && MailFree(whole.colonies, orig.outbox, st.colonies)
  {
    hide Load, FreshMail, Works, Grown, Remembers, Mails, MailFree;
    LoadIsPart(whole, f);
    ImportSkipsNone(f, whole, st);
    WorksGrown(whole, Load(whole, f), st, orig, mail, o, n);
  }

  /** And it meets no constraint, when it does not insert a trade that is stored but was not found. */
  lemma ImportIsAccepted(p: Platform, o: Oracle, whole: State, f: Found, orig: Orig, mail: set<Id>, st: State, n: nat)
    requires FreshMail(o, whole) && Sees(f, Load(whole, f), whole) && Importing(f, whole, Load(whole, f), st, o, n)
    requires Inv(p, Merge(whole, st)) && Remembers(orig, Load(whole, f)) && ("" in st.trades ==> "" !in whole.trades)
    requires forall id :: id in mail <==> Mails(st.colonies, id)
    ensures Acceptable(whole, orig, st)
  {
    hide Load, Inv, FreshMail, Sees, Works, Grown, Acceptable, Remembers, Mails, MailFree, RowsCovered, ColoniesCovered;
    ImportIsGrown(o, whole, f, orig, mail, st, n);
    KeyedIsCovered(f, whole, st);
    CoveredIsAcceptable(p, whole, Load(whole, f), st, orig);
  }

  lemma ImportSkipsNone(f: Found, whole: State, st: State)
    requires Keyed(f, Load(whole, f), st)
    ensures NoneSkipped(whole.colonies, Load(whole, f).colonies, st.colonies) && st.sessions == Load(whole, f).sessions
  {
    hide LoadColony;
  }

  // ---- a sweep's differences are accepted too ---------------------------------------------------

  lemma ExpireImporting(p: Platform, f: Found, whole: State, part: State, st: State, o: Oracle, n: nat, id: Id)
    requires Importing(f, whole, part, st, o, n) && FreshMail(o, whole)
    ensures Importing(f, whole, part, ExpiredOne(p, o.now, st, id), o, n + 1)
  {
    hide Works, FreshMail, Post, Due;
    WorksLater(whole.colonies, st.colonies, o, n);
    var fx := PlanExpire(p, o.now, st, id);
    if fx.Some? {
      PostWorks(p, o.now, whole, st, o, n, fx.value);
      ExpiryKeyed(p, o.now, f, part, st, fx.value);
    }
  }

  lemma ExpiryKeyed(p: Platform, now: int, f: Found, part: State, st: State, fx: Effect)
    requires Keyed(f, part, st) && fx.account.None? && fx.user.None? && fx.action.None? && fx.founded.None?
    requires fx.trade.Some? ==> fx.trade.value.0 in st.trades
    ensures Keyed(f, part, Post(p, now, st, fx))
  {
    hide PostColonies;
    KeysKept(p, now, st.colonies, fx);
    forall c | c in st.colonies ensures c in PostColonies(p, now, st.colonies, fx) && KeyedColony(f, part.colonies[c], PostColonies(p, now, st.colonies, fx)[c]) {
      PostedKeys(p, now, st.colonies, fx, c);
    }
  }

  lemma {:induction false} SweepImporting(p: Platform, f: Found, whole: State, part: State, o: Oracle, order: seq<Id>)
    requires Importing(f, whole, part, part, o, 0) && FreshMail(o, whole)
    ensures Importing(f, whole, part, Sweep(p, o.now, part, order), o, |order|)
  {
    hide Importing, FreshMail, Sweep, ExpiredOne;
    if order == [] {
      SweepNone(p, o.now, part);
    } else {
      var rest, id := order[..|order| - 1], order[|order| - 1];
      assert order == rest + [id];
      SweepImporting(p, f, whole, part, o, rest);
      SweepNext(p, o.now, part, rest, id);
      ExpireImporting(p, f, whole, part, Sweep(p, o.now, part, rest), o, |rest|, id);
    }
  }
}
