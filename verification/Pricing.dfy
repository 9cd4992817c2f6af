/**
 * Tax on one taxable amount, the tax-inclusive price of a unit, and the search
 * that inverts it. Amounts are paise; a raw input amount is a real number of
 * paise and a rate is a real percent.
 */
module Pricing {
  import opened Common
  import opened Rounding

  /** Decimal(10,2): 99999999.99 rupees. */
  const MONEY_MAX: int := 9999999999

  datatype Error = InvalidPrice | UnknownGstRate | InvalidCess

  /** A slab name, or an explicit percent. */
  datatype GstRate = Slab(name: string) | Percent(percent: real)

  const GST_RATE_MAP: map<string, real> :=
    map["ZERO" := 0.0, "FIVE" := 5.0, "TWELVE" := 12.0, "EIGHTEEN" := 18.0, "TWENTYEIGHT" := 28.0]

  predicate IsPercent(rate: real) { 0.0 <= rate <= 100.0 }

  function ResolveGstRate(rate: GstRate): (r: Result<real, Error>)
    ensures r.Ok? ==> IsPercent(r.value)
  {
    match rate
    case Slab(name) => if name in GST_RATE_MAP then Ok(GST_RATE_MAP[name]) else Err(UnknownGstRate)
    case Percent(p) => if IsPercent(p) then Ok(p) else Err(UnknownGstRate)
  }

  function ResolveCessRate(cess: real): Result<real, Error> {
    if IsPercent(cess) then Ok(cess) else Err(InvalidCess)
  }

  // ---------------------------------------------------------------------------
  // Tax on a taxable amount (exclusive pricing)
  // ---------------------------------------------------------------------------

  datatype Tax = Tax(cgst: int, sgst: int, igst: int, cess: int) {
    function Total(): int { cgst + sgst + igst + cess }
  }

  function Share(amount: int, percent: real): real {
    amount as real * percent / 100.0
  }

  /** `percent` of an amount, rounded to the paisa. */
  function Component(amount: int, percent: real): int {
    HalfUp(Share(amount, percent))
  }

  function CalculateTax(taxable: int, gst: real, cess: real, interState: bool): Tax {
    if interState
    then Tax(0, 0, Component(taxable, gst), Component(taxable, cess))
    else Tax(Component(taxable, gst / 2.0), Component(taxable, gst / 2.0), 0, Component(taxable, cess))
  }

  lemma {:induction false} ShareFacts(amount: nat, percent: real)
    requires 0.0 <= percent
    ensures 0.0 <= Share(amount, percent)
    ensures percent == 0.0 ==> Share(amount, percent) == 0.0
    ensures Share(amount, percent / 2.0) == Share(amount, percent) / 2.0
    ensures Share(amount + 1, percent) == Share(amount, percent) + percent / 100.0
  {}

  /** A rounded component is within half a paisa of its exact share, and never negative. */
  lemma {:induction false} ComponentNearShare(amount: nat, percent: real)
    requires 0.0 <= percent
    ensures -0.5 < Component(amount, percent) as real - Share(amount, percent) <= 0.5
    ensures 0 <= Component(amount, percent)
    ensures percent == 0.0 ==> Component(amount, percent) == 0
  {
    hide Share;
    ShareFacts(amount, percent);
    HalfUpWithinHalf(Share(amount, percent));
  }

  lemma {:induction false} TaxNonNegative(taxable: nat, gst: real, cess: real, interState: bool)
    requires 0.0 <= gst && 0.0 <= cess
    ensures var t := CalculateTax(taxable, gst, cess, interState);
      0 <= t.cgst && 0 <= t.sgst && 0 <= t.igst && 0 <= t.cess && 0 <= t.Total()
  {
    hide Component;
    ComponentNearShare(taxable, gst);
    ComponentNearShare(taxable, gst / 2.0);
    ComponentNearShare(taxable, cess);
  }

  /** One more paisa of amount moves a component of at most `percent` by at most one paisa per 100 percent. */
  lemma {:induction false} ComponentStep(amount: nat, percent: real)
    requires IsPercent(percent)
    ensures 0 <= Component(amount + 1, percent) - Component(amount, percent) <= 1
  {
    hide Share;
    ShareFacts(amount, percent);
    var x := Share(amount, percent);
    HalfUpShiftExactly(x, 1);
    HalfUpMonotone(x, x + percent / 100.0);
    HalfUpMonotone(x + percent / 100.0, x + 1.0);
  }

  // ---------------------------------------------------------------------------
  // The tax-inclusive price of one unit
  // ---------------------------------------------------------------------------

  /** What one undiscounted unit bills at, taking the dearer of the two GST splits. */
  function Inclusive(price: int, gst: real, cess: real): int {
    price + Max(CalculateTax(price, gst, cess, false).Total(), CalculateTax(price, gst, cess, true).Total())
  }

  function InclusiveUnitPrice(price: real, gstRate: GstRate, cess: real): Result<int, Error> {
    var unitPrice := HalfUp(price);
    if price < 0.0 || unitPrice > MONEY_MAX then Err(InvalidPrice) else
    match ResolveGstRate(gstRate)
    case Err(e) => Err(e)
    case Ok(gst) =>
      match ResolveCessRate(cess)
      case Err(e) => Err(e)
      case Ok(c) => Ok(Inclusive(unitPrice, gst, c))
  }

  /** A dearer unit always bills more, and by a bounded amount. */
  lemma {:induction false} InclusiveStep(price: nat, gst: real, cess: real)
    requires IsPercent(gst) && IsPercent(cess)
    ensures 1 <= Inclusive(price + 1, gst, cess) - Inclusive(price, gst, cess) <= (if cess == 0.0 then 3 else 4)
  {
    hide Component;
    ComponentStep(price, gst);
    ComponentStep(price, gst / 2.0);
    ComponentStep(price, cess);
    ComponentNearShare(price, cess);
    ComponentNearShare(price + 1, cess);
  }

  lemma {:induction false} InclusiveIncreasing(p: nat, q: nat, gst: real, cess: real)
    requires IsPercent(gst) && IsPercent(cess) && p <= q
    ensures Inclusive(q, gst, cess) - Inclusive(p, gst, cess) >= q - p
    decreases q - p
  {
    if p < q {
      InclusiveStep(p, gst, cess);
      InclusiveIncreasing(p + 1, q, gst, cess);
    }
  }

  lemma {:induction false} InclusiveOfZero(gst: real, cess: real)
    ensures Inclusive(0, gst, cess) == 0
  {}

  function Gross(gst: real, cess: real): real { 1.0 + (gst + cess) / 100.0 }

  lemma {:induction false} GrossIsPriceAndShares(price: int, gst: real, cess: real)
    ensures price as real * Gross(gst, cess) == price as real + Share(price, gst) + Share(price, cess)
  {}

  /** Inclusive pricing strays from the exact price × (1 + rate) by less than a paisa below and 1.5 above. */
  lemma {:induction false} InclusiveNearExact(price: nat, gst: real, cess: real)
    requires IsPercent(gst) && IsPercent(cess)
    ensures var exact := price as real * Gross(gst, cess);
      exact - 1.0 < Inclusive(price, gst, cess) as real <= exact + 1.5
  {
    hide Component, Share, Gross;
    ShareFacts(price, gst);
    ComponentNearShare(price, gst);
    ComponentNearShare(price, gst / 2.0);
    ComponentNearShare(price, cess);
    GrossIsPriceAndShares(price, gst, cess);
  }

  // ---------------------------------------------------------------------------
  // The exclusive price of a tax-inclusive one
  // ---------------------------------------------------------------------------

  /** The largest price whose inclusive price does not exceed the target. */
  ghost predicate IsExclusivePrice(price: int, target: int, gst: real, cess: real) {
    && 0 <= price
    && Inclusive(price, gst, cess) <= target
    && forall p: int :: p > price ==> Inclusive(p, gst, cess) > target
  }

  lemma {:induction false} OnePaisaAtFullRates()
    ensures Inclusive(1, 100.0, 0.0) == 3 && Inclusive(1, 100.0, 100.0) == 4
  {
    assert Component(1, 100.0) == 1 && Component(1, 50.0) == 1 && Component(1, 0.0) == 0;
    hide Component;
  }

  /** The bounds on the shortfall are attained: two paise without cess, three with it. */
  lemma {:induction false} ShortfallBoundsAreTight()
    ensures IsExclusivePrice(0, 2, 100.0, 0.0) && Inclusive(0, 100.0, 0.0) == 0
    ensures IsExclusivePrice(0, 3, 100.0, 100.0) && Inclusive(0, 100.0, 100.0) == 0
  {
    hide Inclusive;
    OnePaisaAtFullRates();
    InclusiveOfZero(100.0, 0.0);
    InclusiveOfZero(100.0, 100.0);
    ExclusiveFromNeighbour(0, 2, 100.0, 0.0);
    ExclusiveFromNeighbour(0, 3, 100.0, 100.0);
  }

  /** Typing back the price a unit bills at restores the stored price. */
  lemma {:induction false} ExclusiveInvertsInclusive(price: nat, gst: real, cess: real, found: int)
    requires IsPercent(gst) && IsPercent(cess)
    requires IsExclusivePrice(found, Inclusive(price, gst, cess), gst, cess)
    ensures found == price
  {
    if found > price {
      InclusiveIncreasing(price, found, gst, cess);
    }
  }

  lemma {:induction false} ExclusiveFromNeighbour(price: nat, target: int, gst: real, cess: real)
    requires IsPercent(gst) && IsPercent(cess)
    requires Inclusive(price, gst, cess) <= target < Inclusive(price + 1, gst, cess)
    ensures IsExclusivePrice(price, target, gst, cess)
    ensures price <= target
    ensures target - Inclusive(price, gst, cess) <= (if cess == 0.0 then 2 else 3)
  {
    hide Inclusive;
    InclusiveStep(price, gst, cess);
    forall p: int | p > price ensures Inclusive(p, gst, cess) > target {
      InclusiveIncreasing(price + 1, p, gst, cess);
    }
    InclusiveOfZero(gst, cess);
    InclusiveIncreasing(0, price, gst, cess);
  }

  function Quotient(target: int, gst: real, cess: real): int
    requires IsPercent(gst) && IsPercent(cess)
  {
    (target as real / Gross(gst, cess)).Floor
  }

  lemma {:induction false} QuotientBrackets(target: nat, k: real)
    requires k >= 1.0
    ensures var q := (target as real / k).Floor;
      && 0 <= q <= target
      && q as real * k <= target as real < (q + 1) as real * k
  {
    var t := target as real;
    var q := (t / k).Floor;
    CompareQuotient(t, k, 0.0);
    MulLessEq(1.0, k, t);
    CompareQuotient(t, k, t);
    CompareQuotient(t, k, q as real);
    CompareQuotient(t, k, (q + 1) as real);
  }

  lemma {:induction false} TaxAtZeroRate(price: nat, interState: bool)
    ensures CalculateTax(price, 0.0, 0.0, interState) == Tax(0, 0, 0, 0)
  {
    hide Component;
    ComponentNearShare(price, 0.0);
    assert 0.0 / 2.0 == 0.0;
  }

  lemma {:induction false} InclusiveUntaxed(price: nat)
    ensures Inclusive(price, 0.0, 0.0) == price
  {
    hide CalculateTax;
    TaxAtZeroRate(price, false);
    TaxAtZeroRate(price, true);
  }

  /** The maximum at zero rates: a price the search refuses although it is its own answer. */
  lemma {:induction false} MaximumIsItsOwnInclusive()
    ensures Inclusive(MONEY_MAX, 0.0, 0.0) == MONEY_MAX
  {
    InclusiveUntaxed(MONEY_MAX);
  }

  /** Only a zero tax leaves a price equal to its target. */
  lemma {:induction false} QuotientOfWhole(target: nat, gst: real, cess: real)
    requires IsPercent(gst) && IsPercent(cess)
    requires Quotient(target, gst, cess) == target
    ensures Inclusive(target, gst, cess) == target
  {
    hide Inclusive;
    var t, k := target as real, Gross(gst, cess);
    CompareQuotient(t, k, t);
    if target == 0 {
      InclusiveOfZero(gst, cess);
    } else {
      if k > 1.0 {
        MulLess(1.0, k, t);
      }
      InclusiveUntaxed(target);
    }
  }

  /** The rounded-down quotient is the answer, or one paisa away from it. */
  lemma {:induction false} QuotientIsClose(target: nat, gst: real, cess: real)
    requires IsPercent(gst) && IsPercent(cess)
    ensures var q := Quotient(target, gst, cess);
      && 0 <= q <= target
      && Inclusive(q, gst, cess) <= target + 1
      && Inclusive(q + 1, gst, cess) >= target
      && Inclusive(q + 2, gst, cess) > target
      && (q > 0 ==> Inclusive(q - 1, gst, cess) <= target)
      && (q == target ==> Inclusive(q, gst, cess) == target)
  {
    hide Inclusive;
    var q, k := Quotient(target, gst, cess), Gross(gst, cess);
    QuotientBrackets(target, k);
    InclusiveNearExact(q, gst, cess);
    InclusiveNearExact(q + 1, gst, cess);
    InclusiveStep(q + 1, gst, cess);
    if q > 0 {
      InclusiveStep(q - 1, gst, cess);
    }
    if q == target {
      QuotientOfWhole(target, gst, cess);
    }
  }

  /** The target, the rates or the range the source refuses, in the order it checks them. */
  function ExclusiveInputError(inclusivePrice: real, gstRate: GstRate, cess: real): Option<Error> {
    if inclusivePrice < 0.0 || HalfUp(inclusivePrice) > MONEY_MAX then Some(InvalidPrice)
    else if ResolveGstRate(gstRate).Err? then Some(UnknownGstRate)
    else if ResolveCessRate(cess).Err? then Some(InvalidCess)
    else None
  }

  /**
   * The before-GST price of a GST-inclusive one: the rounded-down quotient,
   * then one paisa at a time. `steps` counts the paise both loops move.
   */
  method ExclusiveUnitPrice(inclusivePrice: real, gstRate: GstRate, cess: real) returns (r: Result<int, Error>, ghost steps: nat)
    ensures ExclusiveInputError(inclusivePrice, gstRate, cess).Some? ==>
      r == Err(ExclusiveInputError(inclusivePrice, gstRate, cess).value)
    ensures ExclusiveInputError(inclusivePrice, gstRate, cess).None? ==>
      var target, gst := HalfUp(inclusivePrice), ResolveGstRate(gstRate).value;
      if target == MONEY_MAX && Inclusive(MONEY_MAX, gst, cess) == MONEY_MAX
      then r == Err(InvalidPrice)
      else
        && r.Ok?
        && IsExclusivePrice(r.value, target, gst, cess)
        && r.value <= target
        && target - Inclusive(r.value, gst, cess) <= (if cess == 0.0 then 2 else 3)
    ensures steps <= 1
  {
    hide Inclusive;
    steps := 0;
    var target := HalfUp(inclusivePrice);
    if inclusivePrice < 0.0 || target > MONEY_MAX {
      return Err(InvalidPrice), steps;
    }
    var rate := ResolveGstRate(gstRate);
    if rate.Err? {
      return Err(rate.error), steps;
    }
    var cessRate := ResolveCessRate(cess);
    if cessRate.Err? {
      return Err(cessRate.error), steps;
    }
    var gst := rate.value;
    var price := (target as real / Gross(gst, cess)).Floor;
    ghost var q := price;
    QuotientIsClose(target, gst, cess);
    HalfUpOfInt(price + 1);
    HalfUpOfInt(price + 2);
    var probe := InclusiveUnitPrice((price + 1) as real, gstRate, cess);
    while probe.Ok? && probe.value <= target
      invariant q <= price <= q + 1 && steps == price - q
      invariant price <= target
      invariant price == q + 1 ==> Inclusive(price, gst, cess) <= target
      invariant probe == InclusiveUnitPrice((price + 1) as real, gstRate, cess)
      decreases q + 1 - price
    {
      InclusiveOfZero(gst, cess);
      InclusiveIncreasing(0, price + 1, gst, cess);
      price := price + 1;
      steps := steps + 1;
      probe := InclusiveUnitPrice((price + 1) as real, gstRate, cess);
    }
    InclusiveOfZero(gst, cess);
    InclusiveIncreasing(0, price, gst, cess);
    if probe.Err? {
      return Err(probe.error), steps;
    }
    HalfUpOfInt(price);
    HalfUpOfInt(price - 1);
    ghost var up := price;
    probe := InclusiveUnitPrice(price as real, gstRate, cess);
    while price > 0 && probe.Ok? && probe.value > target
      invariant 0 <= price <= up && price >= q - 1
      invariant price < up ==> up == q && price == q - 1
      invariant steps == (up - q) + (up - price)
      invariant Inclusive(price + 1, gst, cess) > target
      invariant probe == InclusiveUnitPrice(price as real, gstRate, cess)
      invariant probe == Ok(Inclusive(price, gst, cess))
    {
      price := price - 1;
      steps := steps + 1;
      probe := InclusiveUnitPrice(price as real, gstRate, cess);
    }
    ExclusiveFromNeighbour(price, target, gst, cess);
    return Ok(price), steps;
  }
}
