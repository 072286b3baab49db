/** Results, 64-bit arithmetic and sums over tables: the vocabulary of every other module. */
module Basics {

  datatype Option<+T> = None | Some(value: T)

  /** The error classes a caller can tell apart. `Overflow` is the conflict raised by AddChecked. */
  datatype Error = BadRequest | Unauthorized | Forbidden | NotFound | Conflict | Internal | Overflow

  datatype Result<+T> = Ok(value: T) | Err(error: Error) {
    predicate IsFailure() {
      Err?
    }

    function PropagateFailure<U>(): Result<U>
      requires Err?
    {
      Err(error)
    }

    function Extract(): T
      requires Ok?
    {
      value
    }
  }

  /** A check: it passes, or the handler stops with its error. */
  datatype Outcome = Pass | Fail(error: Error) {
    predicate IsFailure() {
      Fail?
    }

    function PropagateFailure<U>(): Result<U>
      requires Fail?
    {
      Err(error)
    }
  }

  function Need(condition: bool, error: Error): Outcome {
    if condition then Pass else Fail(error)
  }

  const MAX_INT64: int := 0x7fff_ffff_ffff_ffff
  const MIN_INT64: int := -0x8000_0000_0000_0000
  const TWO_64: int := 0x1_0000_0000_0000_0000

  type int64 = x: int | MIN_INT64 <= x <= MAX_INT64

  /** Two's-complement wrap-around of an unchecked 64-bit operation. */
  function Wrap(x: int): (r: int64)
    ensures (r - x) % TWO_64 == 0
    ensures MIN_INT64 <= x <= MAX_INT64 ==> r == x
  {
    var m := x % TWO_64;
    assert x == TWO_64 * (x / TWO_64) + m;
    var r := if m <= MAX_INT64 then m else m - TWO_64;
    assert r - x == TWO_64 * (if m <= MAX_INT64 then -(x / TWO_64) else -(x / TWO_64) - 1);
    r
  }

  function AddChecked(a: int64, b: int64): (r: Result<int64>)
    ensures r.Ok? <==> MIN_INT64 <= a + b <= MAX_INT64
    ensures r.Ok? ==> r.value == a + b
    ensures r.Err? ==> r.error == Overflow
  {
    if (b > 0 && a > MAX_INT64 - b) || (b < 0 && a < MIN_INT64 - b) then Err(Overflow) else Ok(a + b)
  }

  /** A missing key reads as the zero value. */
  function Get<K>(m: map<K, int64>, k: K): int64 {
    if k in m then m[k] else 0
  }

  // ---- sums over maps -----------------------------------------------------

  /** The sum of `f` over the values of `m`, one term per key. */
  ghost function Sum<K, V>(m: map<K, V>, f: V -> int): int {
    if m == map[] then 0
    else
      var k :| k in m;
      f(m[k]) + Sum(m - {k}, f)
  }

  lemma {:induction false} SumPick<K, V>(m: map<K, V>, k: K, f: V -> int)
    requires k in m
    ensures Sum(m, f) == f(m[k]) + Sum(m - {k}, f)
    decreases |m|
  {
    var j :| j in m && Sum(m, f) == f(m[j]) + Sum(m - {j}, f);
    if j != k {
      SumPick(m - {j}, k, f);
      SumPick(m - {k}, j, f);
      assert m - {j} - {k} == m - {k} - {j};
    }
  }

  /** Writing one row changes the sum by the difference of that row's terms. */
  lemma SumUpdate<K, V>(m: map<K, V>, k: K, v: V, f: V -> int)
    ensures Sum(m[k := v], f) == Sum(m, f) - (if k in m then f(m[k]) else 0) + f(v)
  {
    SumPick(m[k := v], k, f);
    assert m[k := v] - {k} == m - {k};
    if k in m {
      SumPick(m, k, f);
    } else {
      assert m - {k} == m;
    }
  }

  lemma {:induction false} SumZero<K, V>(m: map<K, V>, f: V -> int)
    requires forall k :: k in m ==> f(m[k]) == 0
    ensures Sum(m, f) == 0
    decreases |m|
  {
    if m != map[] {
      var k :| k in m && Sum(m, f) == f(m[k]) + Sum(m - {k}, f);
      SumZero(m - {k}, f);
    }
  }

  lemma {:induction false} SumNonNegative<K, V>(m: map<K, V>, f: V -> int)
    requires forall k :: k in m ==> f(m[k]) >= 0
    ensures Sum(m, f) >= 0
    decreases |m|
  {
    if m != map[] {
      var k :| k in m && Sum(m, f) == f(m[k]) + Sum(m - {k}, f);
      SumNonNegative(m - {k}, f);
    }
  }

  lemma SumAtLeast<K, V>(m: map<K, V>, k: K, f: V -> int)
    requires k in m
    requires forall j :: j in m ==> f(m[j]) >= 0
    ensures Sum(m, f) >= f(m[k])
  {
    SumPick(m, k, f);
    SumNonNegative(m - {k}, f);
  }

  lemma {:induction false} SumAgree<K, V>(m: map<K, V>, f: V -> int, g: V -> int)
    requires forall k :: k in m ==> f(m[k]) == g(m[k])
    ensures Sum(m, f) == Sum(m, g)
    decreases |m|
  {
    if m != map[] {
      var k :| k in m;
      SumPick(m, k, f);
      SumPick(m, k, g);
      SumAgree(m - {k}, f, g);
    }
  }

  // ---- sums over sequences ------------------------------------------------

  /** The sum of `f` over a log, last entry first, so that appending unfolds it. */
  ghost function Fold<T>(s: seq<T>, f: T -> int): int {
    if s == [] then 0 else Fold(s[..|s| - 1], f) + f(s[|s| - 1])
  }

  lemma FoldAppend<T>(s: seq<T>, x: T, f: T -> int)
    ensures Fold(s + [x], f) == Fold(s, f) + f(x)
  {
    assert (s + [x])[..|s|] == s;
  }

  lemma {:induction false} FoldAgree<T>(s: seq<T>, f: T -> int, g: T -> int)
    requires forall i :: 0 <= i < |s| ==> f(s[i]) == g(s[i])
    ensures Fold(s, f) == Fold(s, g)
  {
    if s != [] {
      FoldAgree(s[..|s| - 1], f, g);
    }
  }

  lemma {:induction false} FoldZero<T>(s: seq<T>, f: T -> int)
    requires forall i :: 0 <= i < |s| ==> f(s[i]) == 0
    ensures Fold(s, f) == 0
  {
    if s != [] {
      FoldZero(s[..|s| - 1], f);
    }
  }

  lemma {:induction false} FoldNonNegative<T>(s: seq<T>, f: T -> int)
    requires forall i :: 0 <= i < |s| ==> f(s[i]) >= 0
    ensures Fold(s, f) >= 0
  {
    if s != [] {
      FoldNonNegative(s[..|s| - 1], f);
    }
  }
}
