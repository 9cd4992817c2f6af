/**
 * Splitting an invoice discount over its lines: half-up proportional shares,
 * then one backward pass that settles what the rounding left over.
 */
module Allocation {
  import opened Common
  import opened Rounding

  ghost predicate Weights(weights: seq<int>) {
    forall i | 0 <= i < |weights| :: 0 <= weights[i]
  }

  /** 0 <= share <= weight on every line. */
  ghost predicate Within(shares: seq<int>, weights: seq<int>) {
    && |shares| == |weights|
    && forall i | 0 <= i < |shares| :: 0 <= shares[i] <= weights[i]
  }

  function Exact(total: int, weight: int, base: int): real
    requires base > 0
  {
    total as real * weight as real / base as real
  }

  function RoundedShare(total: int, weight: int, base: int): int
    requires base > 0
  {
    Min(HalfUp(Exact(total, weight, base)), weight)
  }

  function RoundedShares(total: int, weights: seq<int>, base: int): (shares: seq<int>)
    requires base > 0
    ensures |shares| == |weights|
  {
    seq(|weights|, i requires 0 <= i < |weights| => RoundedShare(total, weights[i], base))
  }

  /** What the backward pass moves onto a line: up to its room, or down to its share. */
  function Move(share: int, weight: int, remainder: int): int {
    if remainder > 0 then Max(Min(weight - share, remainder), 0)
    else if share > 0 then -Min(share, -remainder)
    else 0
  }

  /** The backward pass over lines k-1, k-2, .., 0. */
  function Settled(shares: seq<int>, weights: seq<int>, remainder: int, k: nat): (r: seq<int>)
    requires |shares| == |weights| && k <= |shares|
    ensures |r| == |shares|
    decreases k
  {
    if k == 0 || remainder == 0 then shares
    else
      var move := Move(shares[k - 1], weights[k - 1], remainder);
      Settled(shares[k - 1 := shares[k - 1] + move], weights, remainder - move, k - 1)
  }

  function Allocated(total: int, weights: seq<int>): (shares: seq<int>)
    ensures |shares| == |weights|
  {
    var base := Sum(weights, Id);
    if total <= 0 || base <= 0 then seq(|weights|, _ => 0)
    else
      var shares := RoundedShares(total, weights, base);
      Settled(shares, weights, total - Sum(shares, Id), |weights|)
  }

  lemma {:induction false} AllocatedCases(total: int, weights: seq<int>)
    ensures var base, r := Sum(weights, Id), Allocated(total, weights);
      && (total <= 0 || base <= 0 ==> r == seq(|weights|, _ => 0))
      && (total > 0 && base > 0 ==>
            var shares := RoundedShares(total, weights, base); r == Settled(shares, weights, total - Sum(shares, Id), |weights|))
  {
    hide Settled, Sum;
  }

  lemma {:induction false} NothingToSettle(shares: seq<int>, weights: seq<int>, remainder: int, k: nat)
    requires |shares| == |weights| && k <= |shares| && (k == 0 || remainder == 0)
    ensures Settled(shares, weights, remainder, k) == shares
  {}

  lemma {:induction false} OneLine(shares: seq<int>, weights: seq<int>, remainder: int, k: nat)
    requires |shares| == |weights| && 0 < k <= |shares| && remainder != 0
    ensures var move := Move(shares[k - 1], weights[k - 1], remainder);
      Settled(shares, weights, remainder, k) == Settled(shares[k - 1 := shares[k - 1] + move], weights, remainder - move, k - 1)
  {}

  method AllocateProportionally(total: int, weights: seq<int>) returns (shares: seq<int>)
    ensures shares == Allocated(total, weights)
  {
    hide RoundedShare, Settled, Allocated, Sum;
    shares := seq(|weights|, _ => 0);
    AllocatedCases(total, weights);
    if total <= 0 {
      return;
    }
    var base := 0;
    SumNone(weights);
    for i := 0 to |weights|
      invariant base == Sum(weights[..i], Id)
    {
      SumTake(weights, i, Id);
      base := base + weights[i];
    }
    assert weights[..|weights|] == weights;
    if base <= 0 {
      return;
    }
    ghost var rounded := RoundedShares(total, weights, base);
    var handedOut := 0;
    SumNone(rounded);
    for i := 0 to |weights|
      invariant |shares| == |weights|
      invariant shares[..i] == rounded[..i]
      invariant handedOut == Sum(rounded[..i], Id)
    {
      var share := RoundedShare(total, weights[i], base);
      SumTake(rounded, i, Id);
      shares := shares[i := share];
      handedOut := handedOut + share;
    }
    assert shares == rounded == rounded[..|weights|];
    var remainder := total - handedOut;
    var i := |weights| - 1;
    while i >= 0 && remainder != 0
      invariant -1 <= i < |weights| && |shares| == |weights|
      invariant Settled(shares, weights, remainder, i + 1) == Allocated(total, weights)
    {
      OneLine(shares, weights, remainder, i + 1);
      if remainder > 0 {
        var room := weights[i] - shares[i];
        if room > 0 {
          var add := Min(room, remainder);
          shares := shares[i := shares[i] + add];
          remainder := remainder - add;
        } else {
          assert shares == shares[i := shares[i] + 0];
        }
      } else if shares[i] > 0 {
        var give := Min(shares[i], -remainder);
        shares := shares[i := shares[i] - give];
        remainder := remainder + give;
      } else {
        assert shares == shares[i := shares[i] + 0];
      }
      i := i - 1;
    }
    NothingToSettle(shares, weights, remainder, i + 1);
  }

  // ---------------------------------------------------------------------------
  // What the shares promise
  // ---------------------------------------------------------------------------

  lemma {:induction false} ExactBounds(total: nat, weight: nat, base: int)
    requires 0 < base
    ensures 0.0 <= Exact(total, weight, base)
    ensures total <= base ==> Exact(total, weight, base) <= weight as real
    ensures total >= base ==> Exact(total, weight, base) >= weight as real
  {
    var t, w, b := total as real, weight as real, base as real;
    CompareQuotient(t * w, b, 0.0);
    CompareQuotient(t * w, b, w);
    if total <= base {
      MulLessEq(t, b, w);
    }
    if total >= base {
      MulLessEq(b, t, w);
    }
  }

  /** Rounding never takes a line outside 0..weight, and past the total of the weights it fills every line. */
  lemma {:induction false} RoundedShareBounds(total: nat, weight: int, base: int)
    requires 0 <= weight && 0 < base
    ensures 0 <= RoundedShare(total, weight, base) <= weight
    ensures total <= base ==> RoundedShare(total, weight, base) == HalfUp(Exact(total, weight, base))
    ensures total >= base ==> RoundedShare(total, weight, base) == weight
  {
    hide Exact;
    ExactBounds(total, weight, base);
    HalfUpOfInt(weight);
    if total <= base {
      HalfUpMonotone(Exact(total, weight, base), weight as real);
    }
    if total >= base {
      HalfUpMonotone(weight as real, Exact(total, weight, base));
    }
  }

  lemma {:induction false} ExactIsAdditive(total: int, w: int, v: int, base: int)
    requires base > 0
    ensures Exact(total, w + v, base) == Exact(total, w, base) + Exact(total, v, base)
    ensures Exact(total, base, base) == total as real
    ensures Exact(total, 0, base) == 0.0
  {}

  /** k rounded shares stray from their exact sum by at most half a paisa each. */
  lemma {:induction false} RoundedSharesNearExact(total: nat, weights: seq<int>, base: int, k: nat)
    requires Weights(weights) && 0 < base && total <= base && k <= |weights|
    ensures var shares := RoundedShares(total, weights, base);
      -(k as real) / 2.0 <= Sum(shares[..k], Id) as real - Exact(total, Sum(weights[..k], Id), base) <= k as real / 2.0
  {
    hide Exact;
    var shares := RoundedShares(total, weights, base);
    if k == 0 {
      ExactIsAdditive(total, 0, 0, base);
    } else {
      RoundedSharesNearExact(total, weights, base, k - 1);
      SumTake(shares, k - 1, Id);
      SumTake(weights, k - 1, Id);
      ExactIsAdditive(total, Sum(weights[..k - 1], Id), weights[k - 1], base);
      RoundedShareBounds(total, weights[k - 1], base);
      ExactBounds(total, weights[k - 1], base);
      HalfUpWithinHalf(Exact(total, weights[k - 1], base));
    }
  }

  /** The leftover after rounding is at most half a paisa a line. */
  lemma {:induction false} LeftoverIsSmall(total: nat, weights: seq<int>)
    requires Weights(weights) && 0 < Sum(weights, Id) && total <= Sum(weights, Id)
    ensures var shares := RoundedShares(total, weights, Sum(weights, Id));
      -|weights| <= 2 * (total - Sum(shares, Id)) <= |weights|
  {
    hide Exact;
    var base := Sum(weights, Id);
    var shares := RoundedShares(total, weights, base);
    assert weights[..|weights|] == weights && shares[..|weights|] == shares;
    RoundedSharesNearExact(total, weights, base, |weights|);
    ExactIsAdditive(total, base, 0, base);
  }

  /** How much of a remainder the first k lines can take up or give back. */
  ghost function Settleable(shares: seq<int>, weights: seq<int>, remainder: int, k: nat): int
    requires |shares| == |weights| && k <= |shares|
  {
    if remainder > 0 then Min(remainder, Sum(weights[..k], Id) - Sum(shares[..k], Id))
    else -Min(-remainder, Sum(shares[..k], Id))
  }

  lemma {:induction false} SettledWithin(shares: seq<int>, weights: seq<int>, remainder: int, k: nat)
    requires Within(shares, weights) && k <= |shares|
    ensures Within(Settled(shares, weights, remainder, k), weights)
    decreases k
  {
    if k > 0 && remainder != 0 {
      var move := Move(shares[k - 1], weights[k - 1], remainder);
      SettledWithin(shares[k - 1 := shares[k - 1] + move], weights, remainder - move, k - 1);
    }
  }

  lemma {:induction false} SettledSum(shares: seq<int>, weights: seq<int>, remainder: int, k: nat)
    requires Within(shares, weights) && k <= |shares|
    ensures Sum(Settled(shares, weights, remainder, k), Id) == Sum(shares, Id) + Settleable(shares, weights, remainder, k)
    decreases k
  {
    hide Sum;
    PrefixSums(shares, weights, k);
    if k == 0 {
      SumNone(shares);
      SumNone(weights);
    } else if remainder != 0 {
      var move := Move(shares[k - 1], weights[k - 1], remainder);
      SettleableStep(shares, weights, remainder, k);
      SettledSum(shares[k - 1 := shares[k - 1] + move], weights, remainder - move, k - 1);
    }
  }

  lemma {:induction false} SumNone(xs: seq<int>)
    ensures Sum(xs[..0], Id) == 0
  {}

  lemma {:induction false} SettleableStep(shares: seq<int>, weights: seq<int>, remainder: int, k: nat)
    requires Within(shares, weights) && 0 < k <= |shares| && remainder != 0
    ensures var move := Move(shares[k - 1], weights[k - 1], remainder);
      var next := shares[k - 1 := shares[k - 1] + move];
      && Within(next, weights)
      && Sum(next, Id) + Settleable(next, weights, remainder - move, k - 1) == Sum(shares, Id) + Settleable(shares, weights, remainder, k)
  {
    hide Move, Sum;
    var share, weight := shares[k - 1], weights[k - 1];
    MoveWithin(share, weight, remainder);
    var move := Move(share, weight, remainder);
    assert shares[k - 1 := share + move][..k - 1] == shares[..k - 1];
    PrefixSums(shares, weights, k - 1);
    SumUpdate(shares, k - 1, share + move, Id);
    SumTake(shares, k - 1, Id);
    SumTake(weights, k - 1, Id);
    var given, held := Sum(shares[..k - 1], Id), Sum(weights[..k - 1], Id);
    assert Settleable(shares, weights, remainder, k)
        == if remainder > 0 then Min(remainder, held + weight - given - share) else -Min(-remainder, given + share);
    SettleStep(given, held, share, weight, remainder);
  }

  lemma {:induction false} MoveWithin(share: int, weight: int, remainder: int)
    requires 0 <= share <= weight
    ensures 0 <= share + Move(share, weight, remainder) <= weight
  {}

  /** One line of the pass: what it moves plus what the earlier lines can still settle. */
  lemma {:induction false} SettleStep(given: int, held: int, share: int, weight: int, remainder: int)
    requires 0 <= given <= held && 0 <= share <= weight
    ensures var move := Move(share, weight, remainder);
      var rest := remainder - move;
      move + (if rest > 0 then Min(rest, held - given) else -Min(-rest, given))
      == if remainder > 0 then Min(remainder, held + weight - given - share) else -Min(-remainder, given + share)
  {}

  lemma {:induction false} PrefixSums(shares: seq<int>, weights: seq<int>, k: nat)
    requires Within(shares, weights) && k <= |shares|
    ensures 0 <= Sum(shares[..k], Id) <= Sum(weights[..k], Id)
  {
    SumNonNegative(shares[..k], Id);
    SumLessEq(shares[..k], Id, weights[..k], Id);
  }

  /** The pass only moves lines the way of the remainder, and exhausts each line before it reaches an earlier one. */
  lemma {:induction false} SettledFromTheEnd(shares: seq<int>, weights: seq<int>, remainder: int, k: nat, j: nat, i: nat)
    requires Within(shares, weights) && k <= |shares|
    requires j < i < k
    ensures var r := Settled(shares, weights, remainder, k);
      && (remainder >= 0 ==> r[j] >= shares[j] && (r[j] > shares[j] ==> r[i] == weights[i]))
      && (remainder <= 0 ==> r[j] <= shares[j] && (r[j] < shares[j] ==> r[i] == 0))
    decreases k
  {
    if remainder != 0 {
      var move := Move(shares[k - 1], weights[k - 1], remainder);
      var next := shares[k - 1 := shares[k - 1] + move];
      SettledLeavesTail(next, weights, remainder - move, k - 1);
      if i < k - 1 {
        SettledFromTheEnd(next, weights, remainder - move, k - 1, j, i);
      } else {
        SettledMoves(next, weights, remainder - move, k - 1, j);
      }
    }
  }

  lemma {:induction false} SettledLeavesTail(shares: seq<int>, weights: seq<int>, remainder: int, k: nat)
    requires |shares| == |weights| && k <= |shares|
    ensures Settled(shares, weights, remainder, k)[k..] == shares[k..]
    decreases k
  {
    if k > 0 && remainder != 0 {
      var move := Move(shares[k - 1], weights[k - 1], remainder);
      var next := shares[k - 1 := shares[k - 1] + move];
      SettledLeavesTail(next, weights, remainder - move, k - 1);
      var r := Settled(next, weights, remainder - move, k - 1);
      assert r[k..] == r[k - 1..][1..] && next[k - 1..][1..] == shares[k..];
    }
  }

  lemma {:induction false} SettledLeaves(shares: seq<int>, weights: seq<int>, remainder: int, k: nat, i: nat)
    requires |shares| == |weights| && k <= i < |shares|
    ensures Settled(shares, weights, remainder, k)[i] == shares[i]
  {
    hide Settled;
    SettledLeavesTail(shares, weights, remainder, k);
    assert Settled(shares, weights, remainder, k)[k..][i - k] == shares[k..][i - k];
  }

  lemma {:induction false} SettledMoves(shares: seq<int>, weights: seq<int>, remainder: int, k: nat, j: nat)
    requires Within(shares, weights) && k <= |shares| && j < |shares|
    ensures var r := Settled(shares, weights, remainder, k);
      && (remainder >= 0 ==> r[j] >= shares[j])
      && (remainder <= 0 ==> r[j] <= shares[j])
    decreases k
  {
    if k > 0 && remainder != 0 {
      var move := Move(shares[k - 1], weights[k - 1], remainder);
      SettledMoves(shares[k - 1 := shares[k - 1] + move], weights, remainder - move, k - 1, j);
    }
  }

  /**
   * The allocator's promise, for every total: each share lies in 0..weight and
   * the shares add up to the total, or to what the weights can hold of it.
   */
  lemma {:induction false} AllocationIsExact(total: int, weights: seq<int>)
    requires Weights(weights)
    ensures Within(Allocated(total, weights), weights)
    ensures Sum(Allocated(total, weights), Id) == Min(Max(total, 0), Sum(weights, Id))
  {
    hide Sum, Settled, RoundedShare;
    var base := Sum(weights, Id);
    SumNonNegative(weights, Id);
    if total <= 0 || base <= 0 {
      SumBounds(Allocated(total, weights), Id, 0, 0);
    } else {
      var shares := RoundedShares(total, weights, base);
      forall i | 0 <= i < |shares| ensures 0 <= shares[i] <= weights[i] && (total >= base ==> shares[i] == weights[i]) {
        RoundedShareBounds(total, weights[i], base);
      }
      SettledWithin(shares, weights, total - Sum(shares, Id), |weights|);
      SettledSum(shares, weights, total - Sum(shares, Id), |weights|);
      assert weights[..|weights|] == weights && shares[..|weights|] == shares;
      PrefixSums(shares, weights, |weights|);
      if total >= base {
        SumEqual(shares, Id, weights, Id);
      }
    }
  }

  // ---------------------------------------------------------------------------
  // How many lines the leftover moves
  // ---------------------------------------------------------------------------

  /** What a line can still take of a remainder, or give back of a negative one. */
  function Capacity(share: int, weight: int, remainder: int): int {
    if remainder > 0 then weight - share else share
  }

  /** The last of the first k lines that the pass can move. */
  function LastMovable(shares: seq<int>, weights: seq<int>, remainder: int, k: nat): (r: Option<nat>)
    requires |shares| == |weights| && k <= |shares|
    ensures r.Some? ==> r.value < k && Capacity(shares[r.value], weights[r.value], remainder) > 0
    ensures r.None? ==> forall i | 0 <= i < k :: Capacity(shares[i], weights[i], remainder) <= 0
  {
    if k == 0 then None
    else if Capacity(shares[k - 1], weights[k - 1], remainder) > 0 then Some(k - 1)
    else LastMovable(shares, weights, remainder, k - 1)
  }

  ghost predicate AtMostOneDiffers(before: seq<int>, after: seq<int>) {
    && |before| == |after|
    && forall i, j | 0 <= i < j < |before| :: before[i] == after[i] || before[j] == after[j]
  }

  /** The pass always moves the last line that it can, and that line alone when it holds all of the remainder. */
  lemma {:induction false} LastMovableMoves(shares: seq<int>, weights: seq<int>, remainder: int, k: nat)
    requires Within(shares, weights) && k <= |shares| && remainder != 0
    ensures var last, r := LastMovable(shares, weights, remainder, k), Settled(shares, weights, remainder, k);
      && (last.None? ==> r == shares)
      && (last.Some? ==>
            var i := last.value;
            && r[i] != shares[i]
            && (Abs(remainder) <= Capacity(shares[i], weights[i], remainder) ==> r == shares[i := shares[i] + remainder]))
    decreases k
  {
    if k > 0 {
      var i := k - 1;
      var move := Move(shares[i], weights[i], remainder);
      var next := shares[i := shares[i] + move];
      if Capacity(shares[i], weights[i], remainder) > 0 {
        SettledLeaves(next, weights, remainder - move, i, i);
      } else {
        assert next == shares;
        LastMovableMoves(shares, weights, remainder, i);
      }
    }
  }

  /** The last line that can move holds the whole remainder, or no line can move. */
  ghost predicate LastHoldsAll(shares: seq<int>, weights: seq<int>, remainder: int)
    requires |shares| == |weights|
  {
    var last := LastMovable(shares, weights, remainder, |weights|);
    last.None? || Abs(remainder) <= Capacity(shares[last.value], weights[last.value], remainder)
  }

  /** The leftover settles on one line at most, exactly when the last line that can move holds all of it, or none can. */
  lemma {:induction false} LeftoverOnOneLine(total: int, weights: seq<int>)
    requires Weights(weights) && 0 < total && 0 < Sum(weights, Id)
    ensures var shares := RoundedShares(total, weights, Sum(weights, Id));
      AtMostOneDiffers(shares, Allocated(total, weights)) <==> LastHoldsAll(shares, weights, total - Sum(shares, Id))
  {
    hide Sum, Settled, RoundedShare, LastMovable;
    var base := Sum(weights, Id);
    var shares, r := RoundedShares(total, weights, base), Allocated(total, weights);
    var leftover := total - Sum(shares, Id);
    forall i | 0 <= i < |shares| ensures 0 <= shares[i] <= weights[i] && (total >= base ==> shares[i] == weights[i]) {
      RoundedShareBounds(total, weights[i], base);
    }
    AllocationIsExact(total, weights);
    var last := LastMovable(shares, weights, leftover, |weights|);
    if leftover == 0 {
      NothingToSettle(shares, weights, 0, |weights|);
    } else {
      LastMovableMoves(shares, weights, leftover, |weights|);
      if last.Some? && AtMostOneDiffers(shares, r) {
        var i := last.value;
        assert r == shares[i := r[i]];
        SumUpdate(shares, i, r[i], Id);
        if total >= base {
          SumEqual(shares, Id, weights, Id);
        }
      }
    }
  }

  function Repeated(x: int, n: nat): seq<int> { seq(n, _ => x) }

  lemma {:induction false} SumOfRepeated(x: int, n: nat)
    ensures Sum(Repeated(x, n), Id) == n * x
  {
    SumBounds(Repeated(x, n), Id, x, x);
  }

  /** Two paise over five lines of one paisa: every share rounds to nothing, and the last two lines take one each. */
  lemma {:induction false} LeftoverAddsToTwoLines()
    ensures RoundedShares(2, Repeated(1, 5), 5) == Repeated(0, 5)
    ensures Allocated(2, Repeated(1, 5)) == [0, 0, 0, 1, 1]
  {
    var weights, shares := Repeated(1, 5), Repeated(0, 5);
    SumOfRepeated(1, 5);
    SumOfRepeated(0, 5);
    assert Exact(2, 1, 5) == 0.4;
    assert RoundedShares(2, weights, 5) == shares;
    assert Settled([0, 0, 0, 1, 1], weights, 0, 3) == [0, 0, 0, 1, 1];
    assert shares[4 := 1][3 := 1] == [0, 0, 0, 1, 1];
    assert Settled(shares[4 := 1], weights, 1, 4) == [0, 0, 0, 1, 1];
    assert Settled(shares, weights, 2, 5) == [0, 0, 0, 1, 1];
  }

  /** Three paise over six lines of one paisa: every half rounds up, and the last three lines give one back each. */
  lemma {:induction false} LeftoverTakesBackFromThreeLines()
    ensures RoundedShares(3, Repeated(1, 6), 6) == Repeated(1, 6)
    ensures Allocated(3, Repeated(1, 6)) == [1, 1, 1, 0, 0, 0]
  {
    var weights := Repeated(1, 6);
    SumOfRepeated(1, 6);
    assert Exact(3, 1, 6) == 0.5;
    assert RoundedShares(3, weights, 6) == weights;
    assert weights[5 := 0][4 := 0][3 := 0] == [1, 1, 1, 0, 0, 0];
    assert Settled([1, 1, 1, 0, 0, 0], weights, 0, 3) == [1, 1, 1, 0, 0, 0];
    assert Settled(weights[5 := 0][4 := 0], weights, -1, 4) == [1, 1, 1, 0, 0, 0];
    assert Settled(weights[5 := 0], weights, -2, 5) == [1, 1, 1, 0, 0, 0];
    assert Settled(weights, weights, -3, 6) == [1, 1, 1, 0, 0, 0];
  }

  /** No line ends more than (n + 1) / 2 paise from its exact proportional share. */
  lemma {:induction false} AllocationIsFair(total: nat, weights: seq<int>, j: nat)
    requires Weights(weights) && total <= Sum(weights, Id) && j < |weights|
    requires Sum(weights, Id) > 0
    ensures var exact := Exact(total, weights[j], Sum(weights, Id));
      var drift := Allocated(total, weights)[j] as real - exact;
      -(|weights| as real + 1.0) / 2.0 <= drift <= (|weights| as real + 1.0) / 2.0
  {
    hide Exact;
    var base := Sum(weights, Id);
    if total > 0 {
      RoundedShareBounds(total, weights[j], base);
      ExactBounds(total, weights[j], base);
      HalfUpWithinHalf(Exact(total, weights[j], base));
      LeftoverMovesLittle(total, weights, j);
    } else {
      ExactOfNothing(weights[j], base);
    }
  }

  lemma {:induction false} LeftoverMovesLittle(total: nat, weights: seq<int>, j: nat)
    requires Weights(weights) && 0 < total <= Sum(weights, Id) && j < |weights|
    ensures 2 * Abs(Allocated(total, weights)[j] - RoundedShare(total, weights[j], Sum(weights, Id))) <= |weights|
  {
    hide RoundedShare, Exact, Settled, Sum;
    var base := Sum(weights, Id);
    var shares := RoundedShares(total, weights, base);
    forall i | 0 <= i < |shares| ensures 0 <= shares[i] <= weights[i] {
      RoundedShareBounds(total, weights[i], base);
    }
    LeftoverIsSmall(total, weights);
    SettledDrift(shares, weights, total - Sum(shares, Id), |weights|, j);
  }

  lemma {:induction false} ExactOfNothing(weight: int, base: int)
    requires base > 0
    ensures Exact(0, weight, base) == 0.0
  {}

  lemma {:induction false} SettledDrift(shares: seq<int>, weights: seq<int>, remainder: int, k: nat, j: nat)
    requires Within(shares, weights) && k <= |shares| && j < |shares|
    ensures Abs(Settled(shares, weights, remainder, k)[j] - shares[j]) <= Abs(remainder)
    decreases k
  {
    if k > 0 && remainder != 0 {
      var move := Move(shares[k - 1], weights[k - 1], remainder);
      var next := shares[k - 1 := shares[k - 1] + move];
      SettledDrift(next, weights, remainder - move, k - 1, j);
      if j >= k - 1 {
        SettledLeaves(next, weights, remainder - move, k - 1, j);
      }
    }
  }
}
