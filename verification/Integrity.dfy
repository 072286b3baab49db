/** The integrity checker, the two backfills, and what a head hash says about a whole ledger. */
module Integrity {
  import opened Basics
  import opened TradeTable
  import opened Model
  import opened Invariant

  // ---- arithmetic modulo 2^64 -----------------------------------------------------

  /** `a` and `b` differ by a multiple of 2^64. */
  predicate Congruent(a: int, b: int) {
    (a - b) % TWO_64 == 0
  }

  lemma Multiple(x: int, k: int)
    requires x == TWO_64 * k
    ensures x % TWO_64 == 0
  {
  }

  lemma ModuloSum(x: int, y: int)
    requires x % TWO_64 == 0 && y % TWO_64 == 0
    ensures (x + y) % TWO_64 == 0 && (-x) % TWO_64 == 0
  {
    var i, j := x / TWO_64, y / TWO_64;
    Multiple(x + y, i + j);
    Multiple(-x, -i);
  }

  lemma CongruentAdd(a: int, b: int, c: int, d: int)
    requires Congruent(a, b) && Congruent(c, d)
    ensures Congruent(a + c, b + d)
  {
    ModuloSum(a - b, c - d);
  }

  lemma CongruentTransitive(a: int, b: int, c: int)
    requires Congruent(a, b) && Congruent(b, c)
    ensures Congruent(a, c)
  {
    ModuloSum(a - b, b - c);
  }

  /** Two integers less than 2^64 apart are congruent only when equal. */
  lemma CloseCongruent(a: int, b: int)
    requires -TWO_64 < a - b < TWO_64
    ensures Congruent(a, b) <==> a == b
  {
  }

  lemma WrapsAlike(a: int, b: int)
    ensures Wrap(a) == Wrap(b) <==> Congruent(a, b)
  {
    if Congruent(a, b) {
      ModuloSum(Wrap(b) - b, 0);
      CongruentTransitive(Wrap(a), a, b);
      CongruentTransitive(Wrap(a), b, Wrap(b));
      CloseCongruent(Wrap(a), Wrap(b));
    } else if Wrap(a) == Wrap(b) {
      ModuloSum(Wrap(a) - a, 0);
      CongruentTransitive(a, Wrap(a), b);
    }
  }

  // ---- what the checker decides ------------------------------------------------------

  predicate Intact(p: Platform, ledger: seq<Entry>, i: nat)
    requires i < |ledger|
  {
    && ledger[i].seqNo == i + 1
    && ledger[i].prev == HeadHash(ledger[..i])
    && ledger[i].hash == HashLedgerEntry(p, ledger[i])
  }

  predicate IntactLedger(p: Platform, c: Colony) {
    c.nextSeq == |c.ledger| && forall i :: 0 <= i < |c.ledger| ==> Intact(p, c.ledger, i)
  }

  predicate NoDebts(c: Colony) {
    forall u :: u in c.accounts ==> c.accounts[u] >= 0
  }

  /** The ledger is intact and no balance is negative. */
  ghost predicate ColonySound(p: Platform, c: Colony) {
    IntactLedger(p, c) && NoDebts(c)
  }

  /** Chains intact, balances not negative, and money conserved as far as 64-bit sums can tell. */
  ghost predicate Verified(p: Platform, s: State) {
    && (forall c :: c in s.colonies ==> ColonySound(p, s.colonies[c]))
    && Congruent(Balances(s) + Escrowed(s), Minted(s))
  }

  method CheckLedger(p: Platform, c: Colony) returns (ok: bool)
    ensures ok == IntactLedger(p, c)
  {
    var prev := "";
    for i := 0 to |c.ledger|
      invariant prev == HeadHash(c.ledger[..i])
      invariant forall j :: 0 <= j < i ==> Intact(p, c.ledger, j)
    {
      var e := c.ledger[i];
      if e.seqNo != i + 1 || e.prev != prev || HashLedgerEntry(p, e) != e.hash {
        assert !Intact(p, c.ledger, i);
        return false;
      }
      prev := e.hash;
    }
    return c.nextSeq == |c.ledger|;
  }

  /** Adds a colony's balances to a running 64-bit sum; stops at a negative one. */
  method AddBalances(c: Colony, start: int64) returns (r: Option<int64>)
    ensures r.Some? <==> NoDebts(c)
    ensures r.Some? ==> Congruent(r.value, start + ColonyBalance(c))
  {
    hide Congruent, Wrap, Sum;
    var rest: map<Id, int64>, sum: int64 := c.accounts, start;
    StartsCongruent(start + ColonyBalance(c));
    NothingLeft<Id, int64>(Balance);
    while rest != map[]
      invariant rest.Keys <= c.accounts.Keys && forall u :: u in rest ==> rest[u] == c.accounts[u]
      invariant forall u :: u in c.accounts && u !in rest ==> c.accounts[u] >= 0
      invariant Congruent(sum + Sum(rest, Balance), start + ColonyBalance(c))
      decreases |rest|
    {
      var u :| u in rest;
      if rest[u] < 0 {
        return None;
      }
      SumPick(rest, u, Balance);
      RunningSum(sum, rest[u], Sum(rest - {u}, Balance), start + ColonyBalance(c));
      sum := Wrap(sum + rest[u]);
      rest := rest - {u};
    }
    return Some(sum);
  }

  /** One wrapping addition keeps the running sum congruent to the true total. */
  lemma RunningSum(sum: int, term: int, rest: int, total: int)
    requires Congruent(sum + (term + rest), total)
    ensures Congruent(Wrap(sum + term) + rest, total)
  {
    CongruentAdd(Wrap(sum + term), sum + term, rest, rest);
    CongruentTransitive(Wrap(sum + term) + rest, sum + term + rest, total);
  }

  lemma NothingLeft<K, V>(f: V -> int)
    ensures Sum<K, V>(map[], f) == 0
  {
  }

  lemma WrapSmall(x: int64)
    ensures Wrap(x + 0) == x
  {
  }

  method AddEscrow(trades: map<Id, Trade>) returns (sum: int64)
    ensures Congruent(sum, Sum(trades, Escrow))
  {
    hide Congruent, Wrap, Sum;
    var rest := trades;
    sum := 0;
    StartsCongruent(Sum(trades, Escrow));
    NothingLeft<Id, Trade>(Escrow);
    while rest != map[]
      invariant Congruent(sum + Sum(rest, Escrow), Sum(trades, Escrow))
      decreases |rest|
    {
      var t :| t in rest;
      SumPick(rest, t, Escrow);
      RunningSum(sum, Escrow(rest[t]), Sum(rest - {t}, Escrow), Sum(trades, Escrow));
      if IsEscrowed(rest[t].status) {
        sum := Wrap(sum + rest[t].price);
      } else {
        WrapSmall(sum);
      }
      rest := rest - {t};
    }
  }

  /** The colonies not left over are sound. */
  ghost predicate SoundSoFar(p: Platform, m: map<Id, Colony>, rest: map<Id, Colony>) {
    && (forall c :: c in rest ==> c in m && rest[c] == m[c])
    && (forall c :: c in m && c !in rest ==> ColonySound(p, m[c]))
  }

  /** Both running sums, with what is left over, are congruent to the true totals. */
  ghost predicate SummedSoFar(m: map<Id, Colony>, rest: map<Id, Colony>, balances: int, minted: int) {
    && Congruent(balances + Sum(rest, ColonyBalance), Sum(m, ColonyBalance))
    && Congruent(minted + Sum(rest, ColonyMinted), Sum(m, ColonyMinted))
  }

  lemma SoundTurn(p: Platform, m: map<Id, Colony>, rest: map<Id, Colony>, id: Id)
    requires SoundSoFar(p, m, rest) && id in rest
    ensures id in m && rest[id] == m[id] && (ColonySound(p, rest[id]) ==> SoundSoFar(p, m, rest - {id}))
  {
    hide ColonySound;
  }

  lemma SummedTurn(m: map<Id, Colony>, rest: map<Id, Colony>, id: Id, balances: int64, minted: int64, total: int64)
    requires id in rest && SummedSoFar(m, rest, balances, minted) && Congruent(total, balances + ColonyBalance(rest[id]))
    ensures SummedSoFar(m, rest - {id}, total, Wrap(minted + rest[id].mintedTotal))
  {
    hide Congruent, Wrap, Sum, ColonyBalance;
    SumPick(rest, id, ColonyBalance);
    SumPick(rest, id, ColonyMinted);
    SumShift(total, balances + ColonyBalance(rest[id]), Sum(rest - {id}, ColonyBalance), Sum(m, ColonyBalance));
    RunningSum(minted, rest[id].mintedTotal, Sum(rest - {id}, ColonyMinted), Sum(m, ColonyMinted));
  }

  lemma TotalsStart(p: Platform, s: State)
    ensures SoundSoFar(p, s.colonies, s.colonies) && SummedSoFar(s.colonies, s.colonies, 0, 0)
  {
    hide Congruent, Sum;
    StartsCongruent(Balances(s));
    StartsCongruent(Minted(s));
  }

  lemma TotalsEnd(p: Platform, s: State, balances: int64, minted: int64)
    requires SoundSoFar(p, s.colonies, map[]) && SummedSoFar(s.colonies, map[], balances, minted)
    ensures forall c :: c in s.colonies ==> ColonySound(p, s.colonies[c])
    ensures Congruent(balances, Balances(s)) && Congruent(minted, Minted(s))
  {
    hide Congruent, Sum, ColonySound;
    NothingLeft<Id, Colony>(ColonyBalance);
    NothingLeft<Id, Colony>(ColonyMinted);
  }

  /** The loop over the colonies: their chains, their balances and their supply. */
  method AddColonies(p: Platform, s: State) returns (r: Option<(int64, int64)>)
    ensures r.Some? <==> forall c :: c in s.colonies ==> ColonySound(p, s.colonies[c])
    ensures r.Some? ==> Congruent(r.value.0, Balances(s)) && Congruent(r.value.1, Minted(s))
  {
    hide IntactLedger, NoDebts, SoundSoFar, SummedSoFar, Congruent, Wrap, ColonyBalance, Balances, Minted;
    var balances: int64, minted: int64 := 0, 0;
    var rest := s.colonies;
    TotalsStart(p, s);
    while rest != map[]
      invariant SoundSoFar(p, s.colonies, rest) && SummedSoFar(s.colonies, rest, balances, minted)
      decreases |rest|
    {
      var id :| id in rest;
      var c := rest[id];
      SoundTurn(p, s.colonies, rest, id);
      var intact := CheckLedger(p, c);
      if !intact {
        return None;
      }
      var total := AddBalances(c, balances);
      if total.None? {
        return None;
      }
      SummedTurn(s.colonies, rest, id, balances, minted, total.value);
      balances, minted := total.value, Wrap(minted + c.mintedTotal);
      rest := rest - {id};
    }
    TotalsEnd(p, s, balances, minted);
    return Some((balances, minted));
  }

  /** VerifyStateIntegrity accepts exactly the states that satisfy `Verified`. */
  method VerifyStateIntegrity(p: Platform, s: State) returns (ok: bool)
    ensures ok <==> Verified(p, s)
  {
    hide IntactLedger, NoDebts, Congruent, Wrap, Balances, Minted, Sum;
    var totals := AddColonies(p, s);
    if totals.None? {
      return false;
    }
    var escrow := AddEscrow(s.trades);
    Decides(totals.value.0, escrow, totals.value.1, Balances(s), Escrowed(s), Minted(s));
    var sum: int := totals.value.0;
    return Wrap(sum + escrow) == totals.value.1;
  }

  lemma StartsCongruent(total: int)
    ensures Congruent(0 + total, total)
  {
  }

  lemma SumShift(sum: int, same: int, rest: int, total: int)
    requires Congruent(sum, same) && Congruent(same + rest, total)
    ensures Congruent(sum + rest, total)
  {
    CongruentAdd(sum, same, rest, rest);
    CongruentTransitive(sum + rest, same + rest, total);
  }

  lemma Decides(balances: int64, escrow: int64, minted: int64, b: int, e: int, m: int)
    requires Congruent(balances, b) && Congruent(escrow, e) && Congruent(minted, m)
    ensures Wrap(balances + escrow) == minted <==> Congruent(b + e, m)
  {
    CongruentAdd(balances, b, escrow, e);
    WrapsAlike(balances + escrow, b + e);
    WrapsAlike(minted, m);
    WrapsAlike(b + e, m);
  }

  /** Complete: every state that keeps the platform's invariant is accepted, even when the sums wrap. */
  lemma InvariantStatesPass(p: Platform, s: State)
    requires Inv(p, s)
    ensures Verified(p, s)
  {
    hide Rows, Mirrored, Replays, Outcomes, SupplyBounds, DualControl, HashLedgerEntry;
    forall c | c in s.colonies ensures IntactLedger(p, s.colonies[c]) && NoDebts(s.colonies[c]) {
      assert Chained(p, c, s.colonies[c]);
      forall i | 0 <= i < |s.colonies[c].ledger| ensures Intact(p, s.colonies[c].ledger, i) {
        assert EntrySealed(p, c, s.colonies[c].ledger, i);
      }
      forall u | u in s.colonies[c].accounts ensures s.colonies[c].accounts[u] >= 0 {
        assert AccountExact(s, c, u);
      }
    }
  }

  /** Sound: what is accepted is conserved exactly, as long as the true totals fit 64 bits. */
  lemma AcceptedIsConserved(p: Platform, s: State)
    requires Verified(p, s)
    requires MIN_INT64 <= Balances(s) + Escrowed(s) <= MAX_INT64 && MIN_INT64 <= Minted(s) <= MAX_INT64
    ensures Conserved(s)
  {
    CloseCongruent(Balances(s) + Escrowed(s), Minted(s));
  }

  // ---- backfills -----------------------------------------------------------------------

  function PositiveMint(e: Entry): int {
    if e.payload.FundsMinted? && e.payload.amount > 0 then e.payload.amount else 0
  }

  /** A colony whose minted total was never stored gets it from its ledger. */
  ghost function Backfilled(c: Colony): Colony {
    if c.mintedTotal != 0 then c else c.(mintedTotal := Wrap(Fold(c.ledger, PositiveMint)))
  }

  method BackfillMintedTotal(c: Colony) returns (r: Colony)
    ensures r == Backfilled(c)
  {
    if c.mintedTotal != 0 {
      return c;
    }
    var total: int64 := 0;
    for i := 0 to |c.ledger|
      invariant Congruent(total, Fold(c.ledger[..i], PositiveMint))
    {
      assert c.ledger[..i + 1][..i] == c.ledger[..i];
      RunningSum(total, PositiveMint(c.ledger[i]), 0, Fold(c.ledger[..i + 1], PositiveMint)) by {
        CongruentAdd(total, Fold(c.ledger[..i], PositiveMint), PositiveMint(c.ledger[i]), PositiveMint(c.ledger[i]));
      }
      if c.ledger[i].payload.FundsMinted? && c.ledger[i].payload.amount > 0 {
        total := Wrap(total + c.ledger[i].payload.amount);
      } else {
        WrapSmall(total);
      }
    }
    assert c.ledger[..|c.ledger|] == c.ledger;
    WrapsAlike(total, Fold(c.ledger, PositiveMint));
    return c.(mintedTotal := total);
  }

  /** In every sound state the total can be lost and found: the backfill restores it exactly from zero. */
  lemma BackfillRestoresTotal(p: Platform, s: State, c: Id)
    requires Inv(p, s) && c in s.colonies
    ensures Backfilled(s.colonies[c].(mintedTotal := 0)) == s.colonies[c]
    ensures Backfilled(s.colonies[c]) == s.colonies[c]
  {
    hide Rows, Accounting, Conserved, Mirrored, AllChained, Replays, Outcomes, DualControl;
    var colony := s.colonies[c];
    assert SupplyBound(colony);
    forall i | 0 <= i < |colony.ledger| ensures PositiveMint(colony.ledger[i]) == MintAmount(colony.ledger[i]) {
      assert MintAllowed(colony.ledger, i);
    }
    FoldAgree(colony.ledger, PositiveMint, MintAmount);
  }

  /** A colony whose head hash was never stored gets it from its last entry. */
  function HeadBackfilled(c: Colony): Colony {
    if c.lastHash == "" then c.(lastHash := HeadHash(c.ledger)) else c
  }

  method BackfillLedgerHead(c: Colony) returns (r: Colony)
    ensures r == HeadBackfilled(c)
  {
    if c.lastHash == "" && |c.ledger| > 0 {
      return c.(lastHash := c.ledger[|c.ledger| - 1].hash);
    }
    return c;
  }

  /** And a lost head hash is found again in the last entry; one that was not lost stays. */
  lemma BackfillRestoresHead(p: Platform, s: State, c: Id)
    requires Inv(p, s) && c in s.colonies
    ensures HeadBackfilled(s.colonies[c].(lastHash := "")) == s.colonies[c] == HeadBackfilled(s.colonies[c])
  {
    hide Rows, Accounting, Conserved, Mirrored, SupplyBounds, Replays, Outcomes, DualControl, EntrySealed;
    assert Chained(p, c, s.colonies[c]);
  }

  // ---- the head hash determines the ledger ------------------------------------------------

  predicate Barless(s: string) {
    '|' !in s
  }

  /** The first bar ends the first field. */
  lemma FirstField(a: string, x: string, b: string, y: string)
    requires Barless(a) && Barless(b) && a + "|" + x == b + "|" + y
    ensures a == b && x == y
  {
    var s := a + "|" + x;
    assert forall i :: 0 <= i < |a| ==> s[i] == a[i] != '|';
    assert forall i :: 0 <= i < |b| ==> s[i] == b[i] != '|';
    assert s[|a|] == '|' && s[|b|] == '|';
    assert a == s[..|a|] && b == s[..|b|];
    assert x == s[|a| + 1..] && y == s[|b| + 1..];
  }

  lemma {:induction false} DecimalDigits(n: nat)
    ensures Decimal(n) != [] && forall i :: 0 <= i < |Decimal(n)| ==> '0' <= Decimal(n)[i] <= '9'
  {
    if n >= 10 {
      DecimalDigits(n / 10);
    }
  }

  /** The last character is the last digit; what comes before it are the digits of a tenth. */
  lemma LastDigit(n: nat)
    ensures var d := Decimal(n);
            && |d| >= 1 && d[|d| - 1] == Digit(n % 10) && (|d| == 1 <==> n < 10)
            && (n >= 10 ==> d[..|d| - 1] == Decimal(n / 10))
  {
    if n >= 10 {
      DecimalDigits(n / 10);
    }
  }

  lemma SameDigit(a: nat, b: nat)
    requires a < 10 && b < 10 && Digit(a) == Digit(b)
    ensures a == b
  {
  }

  lemma {:induction false} DecimalInjective(m: nat, n: nat)
    requires Decimal(m) == Decimal(n)
    ensures m == n
  {
    hide Decimal, Digit;
    LastDigit(m);
    LastDigit(n);
    SameDigit(m % 10, n % 10);
    if m >= 10 {
      DecimalInjective(m / 10, n / 10);
    }
  }

  lemma SeqTextBarless(n: int)
    ensures Barless(DecimalInt(n))
  {
    hide Decimal;
    DecimalDigits(if n < 0 then -n else n);
  }

  lemma SeqTextInjective(m: int, n: int)
    requires DecimalInt(m) == DecimalInt(n)
    ensures m == n
  {
    hide Decimal;
    DecimalDigits(if n < 0 then -n else n);
    DecimalDigits(if m < 0 then -m else m);
    assert m < 0 <==> DecimalInt(m)[0] == '-';
    assert n < 0 <==> DecimalInt(n)[0] == '-';
    if m < 0 {
      assert Decimal(-m) == DecimalInt(m)[1..] == Decimal(-n);
      DecimalInjective(-m, -n);
    } else {
      DecimalInjective(m, n);
    }
  }

  /** No field before the payload contains the separator; the payload itself may. */
  predicate Separable(e: Entry) {
    Barless(e.colony) && Barless(e.time) && Barless(e.actor) && Barless(e.prev)
  }

  lemma TypeNamesAreBarless(b: Payload)
    ensures Barless(TypeName(b))
  {
    hide TypeName, Barless;
    if MoneyTrade(b).Some? || b.OfferCreated? || b.OfferImported? || b.TradeCompleted? || b.RefundDecided?
       || b.OfferCancelled? || b.CancelRequested? || b.OfferExpired? {
      TradeNamesAreBarless(b);
    } else if b.FundsMinted? || b.MintProposed? || b.PolicyProposed? || b.PolicyChanged? {
      PolicyNamesAreBarless(b);
    } else if b.ForceRefundProposed? || b.ApprovalRejected? || b.UserRolesChanged? {
      AdminNamesAreBarless(b);
    } else {
      OtherNamesAreBarless(b);
    }
  }

  lemma TradeNamesAreBarless(b: Payload)
    requires MoneyTrade(b).Some? || b.OfferCreated? || b.OfferImported? || b.TradeCompleted? || b.RefundDecided?
             || b.OfferCancelled? || b.CancelRequested? || b.OfferExpired?
    ensures Barless(TypeName(b))
  {
  }

  lemma PolicyNamesAreBarless(b: Payload)
    requires b.FundsMinted? || b.MintProposed? || b.PolicyProposed? || b.PolicyChanged?
    ensures Barless(TypeName(b))
  {
  }

  lemma AdminNamesAreBarless(b: Payload)
    requires b.ForceRefundProposed? || b.ApprovalRejected? || b.UserRolesChanged?
    ensures Barless(TypeName(b))
  {
  }

  lemma OtherNamesAreBarless(b: Payload)
    requires b.ColonyCreated? || b.UserCreated? || b.PeerTrusted? || b.BundleExported? || b.BundleImported? || b.UserActivation?
    ensures Barless(TypeName(b))
  {
  }

  function EntryPreimage(p: Platform, e: Entry): string {
    Preimage(e.seqNo, e.colony, e.time, TypeName(e.payload), e.actor, p.json(e.payload), e.prev)
  }

  /** The same entry, field by field and byte for byte of the payload. */
  predicate SameEntry(p: Platform, e: Entry, e': Entry) {
    e.seqNo == e'.seqNo && e.colony == e'.colony && e.time == e'.time && TypeName(e.payload) == TypeName(e'.payload)
    && e.actor == e'.actor && e.prev == e'.prev && p.json(e.payload) == p.json(e'.payload) && e.hash == e'.hash
  }

  /** The preimage of a separable entry determines the entry. */
  lemma PreimageInjective(p: Platform, e: Entry, e': Entry)
    requires Separable(e) && Separable(e') && EntryPreimage(p, e) == EntryPreimage(p, e') && e.hash == e'.hash
    ensures SameEntry(p, e, e')
  {
    hide Barless, TypeName;
    SeqTextBarless(e.seqNo);
    SeqTextBarless(e'.seqNo);
    TypeNamesAreBarless(e.payload);
    TypeNamesAreBarless(e'.payload);
    var raw, raw' := p.json(e.payload), p.json(e'.payload);
    var x5, y5 := e.prev + "|" + raw, e'.prev + "|" + raw';
    var x4, y4 := e.actor + "|" + x5, e'.actor + "|" + y5;
    var x3, y3 := TypeName(e.payload) + "|" + x4, TypeName(e'.payload) + "|" + y4;
    var x2, y2 := e.time + "|" + x3, e'.time + "|" + y3;
    var x1, y1 := e.colony + "|" + x2, e'.colony + "|" + y2;
    Nested(p, e);
    Nested(p, e');
    FirstField(DecimalInt(e.seqNo), x1, DecimalInt(e'.seqNo), y1);
    SeqTextInjective(e.seqNo, e'.seqNo);
    FirstField(e.colony, x2, e'.colony, y2);
    FirstField(e.time, x3, e'.time, y3);
    FirstField(TypeName(e.payload), x4, TypeName(e'.payload), y4);
    FirstField(e.actor, x5, e'.actor, y5);
    FirstField(e.prev, raw, e'.prev, raw');
  }

  lemma Nested(p: Platform, e: Entry)
    ensures EntryPreimage(p, e) == DecimalInt(e.seqNo) + "|" + (e.colony + "|" + (e.time + "|" + (TypeName(e.payload) + "|"
                                     + (e.actor + "|" + (e.prev + "|" + p.json(e.payload))))))
  {
    hide DecimalInt, TypeName;
  }

  ghost predicate CollisionFree(p: Platform) {
    forall x: string, y: string :: p.hash(x) == p.hash(y) ==> x == y
  }

  predicate IntactChain(p: Platform, ledger: seq<Entry>) {
    forall i :: 0 <= i < |ledger| ==> Intact(p, ledger, i) && Separable(ledger[i])
  }

  lemma ShorterChain(p: Platform, ledger: seq<Entry>)
    requires ledger != [] && IntactChain(p, ledger)
    ensures IntactChain(p, ledger[..|ledger| - 1])
    ensures HeadHash(ledger[..|ledger| - 1]) == ledger[|ledger| - 1].prev
  {
    hide HashLedgerEntry, Separable;
    var rest := ledger[..|ledger| - 1];
    forall i | 0 <= i < |rest| ensures Intact(p, rest, i) && Separable(rest[i]) {
      assert Intact(p, ledger, i) && rest[..i] == ledger[..i];
    }
    assert Intact(p, ledger, |ledger| - 1);
  }

  lemma LastEntriesAgree(p: Platform, a: seq<Entry>, b: seq<Entry>)
    requires CollisionFree(p) && a != [] && b != [] && IntactChain(p, a) && IntactChain(p, b) && HeadHash(a) == HeadHash(b)
    ensures SameEntry(p, a[|a| - 1], b[|b| - 1])
  {
    hide Separable, Preimage, SameEntry;
    assert Intact(p, a, |a| - 1) && Intact(p, b, |b| - 1);
    assert EntryPreimage(p, a[|a| - 1]) == EntryPreimage(p, b[|b| - 1]);
    PreimageInjective(p, a[|a| - 1], b[|b| - 1]);
  }

  /** Two intact ledgers of one length with one head hash are equal entry by entry. */
  lemma {:induction false} HeadDeterminesLedger(p: Platform, a: seq<Entry>, b: seq<Entry>)
    requires CollisionFree(p) && IntactChain(p, a) && IntactChain(p, b) && |a| == |b| && HeadHash(a) == HeadHash(b)
    ensures forall i :: 0 <= i < |a| ==> SameEntry(p, a[i], b[i])
  {
    hide IntactChain, SameEntry, CollisionFree, HeadHash;
    if a != [] {
      var last := |a| - 1;
      LastEntriesAgree(p, a, b);
      SamePrev(p, a[last], b[last]);
      ShorterChain(p, a);
      ShorterChain(p, b);
      HeadDeterminesLedger(p, a[..last], b[..last]);
      forall i | 0 <= i < |a| ensures SameEntry(p, a[i], b[i]) {
        if i < last {
          assert a[..last][i] == a[i] && b[..last][i] == b[i];
        }
      }
    }
  }

  lemma SamePrev(p: Platform, e: Entry, e': Entry)
    requires SameEntry(p, e, e')
    ensures e.prev == e'.prev
  {
  }
}
