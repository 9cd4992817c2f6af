/** Result types and finite sums shared by every module. */
module Common {

  datatype Option<+T> = None | Some(value: T)

  /** A returned value, or the error the source throws. */
  datatype Result<+T, +E> = Ok(value: T) | Err(error: E)

  function Max(a: int, b: int): int { if a >= b then a else b }

  function Min(a: int, b: int): int { if a <= b then a else b }

  function Abs(a: int): int { if a < 0 then -a else a }

  function Id(a: int): int { a }

  /** The sum of f over a sequence, last element outermost so that loops that append follow it. */
  function Sum<T>(xs: seq<T>, f: T -> int): int {
    if xs == [] then 0 else Sum(xs[..|xs| - 1], f) + f(xs[|xs| - 1])
  }

  lemma {:induction false} SumSnoc<T>(xs: seq<T>, x: T, f: T -> int)
    ensures Sum(xs + [x], f) == Sum(xs, f) + f(x)
  {
    assert (xs + [x])[..|xs|] == xs;
  }

  lemma {:induction false} SumTake<T>(xs: seq<T>, i: nat, f: T -> int)
    requires i < |xs|
    ensures Sum(xs[..i + 1], f) == Sum(xs[..i], f) + f(xs[i])
  {
    assert xs[..i + 1] == xs[..i] + [xs[i]];
    SumSnoc(xs[..i], xs[i], f);
  }

  lemma {:induction false} SumConcat<T>(xs: seq<T>, ys: seq<T>, f: T -> int)
    ensures Sum(xs + ys, f) == Sum(xs, f) + Sum(ys, f)
  {
    if ys == [] {
      assert xs + ys == xs;
    } else {
      var init, last := ys[..|ys| - 1], ys[|ys| - 1];
      assert xs + ys == (xs + init) + [last];
      SumConcat(xs, init, f);
      SumSnoc(xs + init, last, f);
    }
  }

  lemma {:induction false} SumBounds<T>(xs: seq<T>, f: T -> int, lo: int, hi: int)
    requires forall i | 0 <= i < |xs| :: lo <= f(xs[i]) <= hi
    ensures |xs| * lo <= Sum(xs, f) <= |xs| * hi
  {
    if xs != [] {
      SumBounds(xs[..|xs| - 1], f, lo, hi);
      assert |xs| * lo == (|xs| - 1) * lo + lo && |xs| * hi == (|xs| - 1) * hi + hi;
    }
  }

  lemma {:induction false} SumNonNegative<T>(xs: seq<T>, f: T -> int)
    requires forall i | 0 <= i < |xs| :: 0 <= f(xs[i])
    ensures 0 <= Sum(xs, f)
  {
    if xs != [] {
      SumNonNegative(xs[..|xs| - 1], f);
    }
  }

  lemma {:induction false} SumLessEq<T, U>(xs: seq<T>, f: T -> int, ys: seq<U>, g: U -> int)
    requires |xs| == |ys|
    requires forall i | 0 <= i < |xs| :: f(xs[i]) <= g(ys[i])
    ensures Sum(xs, f) <= Sum(ys, g)
  {
    if xs != [] {
      SumLessEq(xs[..|xs| - 1], f, ys[..|ys| - 1], g);
    }
  }

  lemma {:induction false} SumEqual<T, U>(xs: seq<T>, f: T -> int, ys: seq<U>, g: U -> int)
    requires |xs| == |ys|
    requires forall i | 0 <= i < |xs| :: f(xs[i]) == g(ys[i])
    ensures Sum(xs, f) == Sum(ys, g)
  {
    SumLessEq(xs, f, ys, g);
    SumLessEq(ys, g, xs, f);
  }

  lemma {:induction false} SumPlus<T>(xs: seq<T>, f: T -> int, g: T -> int, h: T -> int)
    requires forall i | 0 <= i < |xs| :: h(xs[i]) == f(xs[i]) + g(xs[i])
    ensures Sum(xs, h) == Sum(xs, f) + Sum(xs, g)
  {
    if xs != [] {
      SumPlus(xs[..|xs| - 1], f, g, h);
    }
  }

  lemma {:induction false} SumUpdate<T>(xs: seq<T>, k: nat, x: T, f: T -> int)
    requires k < |xs|
    ensures Sum(xs[k := x], f) == Sum(xs, f) - f(xs[k]) + f(x)
  {
    var n := |xs| - 1;
    if k == n {
      assert xs[k := x][..n] == xs[..n];
    } else {
      assert xs[k := x][..n] == xs[..n][k := x];
      SumUpdate(xs[..n], k, x, f);
    }
  }

  /** The place of a row by its key. */
  function Find<T, K(==)>(rows: seq<T>, key: T -> K, k: K): (r: Option<nat>)
    ensures r.Some? ==> r.value < |rows| && key(rows[r.value]) == k
    ensures r.None? ==> forall i | 0 <= i < |rows| :: key(rows[i]) != k
  {
    if rows == [] then None else
    var n := |rows| - 1;
    if key(rows[n]) == k then Some(n) else Find(rows[..n], key, k)
  }

  /** Rewriting a row under its own key loses and gains no key. */
  lemma {:induction false} FindUpdate<T, K>(rows: seq<T>, i: nat, row: T, key: T -> K, k: K)
    requires i < |rows| && key(row) == key(rows[i])
    ensures Find(rows[i := row], key, k).Some? <==> Find(rows, key, k).Some?
    ensures k == key(row) ==> Find(rows, key, k).Some?
  {
    hide Find;
    var after := rows[i := row];
    assert forall j | 0 <= j < |rows| :: key(after[j]) == key(rows[j]);
    if Find(rows, key, k).Some? {
      assert key(after[Find(rows, key, k).value]) == k;
    }
    if Find(after, key, k).Some? {
      assert key(rows[Find(after, key, k).value]) == k;
    }
  }
}
