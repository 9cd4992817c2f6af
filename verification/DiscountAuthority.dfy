/** What a cashier may discount without a manager, under the engine's own rounding. */
module DiscountAuthority {
  import opened Common
  import opened Rounding
  import Pricing
  import opened Invoice

  datatype Limits = Limits(percent: real, customLine: real, customTotal: real)

  datatype Verdict = Allowed | DiscountRequiresApproval | CustomLineRequiresApproval

  /** Discount a limit yields on one line of goods. */
  function LimitShare(limit: real): Line -> int {
    (l: Line) => Pricing.Component(l.subtotal, limit)
  }

  /** The largest invoice discount and the largest total discount that a percentage limit can yield. */
  function InvoiceAllowance(bill: Bill, limit: real): int {
    Pricing.Component(bill.totals.subtotal - bill.itemDiscount, limit)
  }

  function EffectiveAllowance(bill: Bill, limit: real): int {
    Max(Pricing.Component(bill.totals.subtotal, limit), Sum(bill.lines, LimitShare(limit)))
  }

  method DiscountLimitAmounts(bill: Bill, limit: real) returns (invoice: int, effective: int)
    ensures invoice == InvoiceAllowance(bill, limit)
    ensures effective == EffectiveAllowance(bill, limit)
  {
    invoice := Pricing.Component(bill.totals.subtotal - bill.itemDiscount, limit);
    var perLine := 0;
    for i := 0 to |bill.lines|
      invariant perLine == Sum(bill.lines[..i], LimitShare(limit))
    {
      SumTake(bill.lines, i, LimitShare(limit));
      perLine := perLine + Pricing.Component(bill.lines[i].subtotal, limit);
    }
    assert bill.lines[..|bill.lines|] == bill.lines;
    effective := Max(Pricing.Component(bill.totals.subtotal, limit), perLine);
  }

  /** The invoice discount is a percentage: by name, or without a type and without an amount. */
  predicate IsByPercentage(input: Input) {
    input.discountType.Percentage? || (input.discountType.Unspecified? && input.discountAmount.None?)
  }

  /** The invoice percent the engine applied, when a percentage is what it applied. */
  function AppliedPercent(input: Input, bill: Bill): Option<real> {
    if bill.invoiceDiscount > 0 && IsByPercentage(input) then input.discountPercentage else None
  }

  ghost predicate DiscountWithin(input: Input, bill: Bill, limit: real) {
    var requested := AppliedPercent(input, bill);
    && (forall i | 0 <= i < |input.items| :: input.items[i].discountPercent <= limit)
    && (requested.Some? ==> requested.value <= limit)
    && bill.invoiceDiscount <= InvoiceAllowance(bill, limit)
    && bill.totals.discount <= EffectiveAllowance(bill, limit)
  }

  function CustomAmount(custom: set<string>): Line -> int {
    (l: Line) => if l.productId in custom then l.subtotal else 0
  }

  ghost predicate CustomWithin(bill: Bill, custom: set<string>, limits: Limits) {
    && (forall i | 0 <= i < |bill.lines| && bill.lines[i].productId in custom ::
          bill.lines[i].subtotal as real <= limits.customLine)
    && Sum(bill.lines, CustomAmount(custom)) as real <= limits.customTotal
  }

  method EnforceDiscountAuthority(manager: bool, input: Input, bill: Bill, custom: set<string>, limits: Limits) returns (v: Verdict)
    requires 0.0 <= limits.percent
    ensures v == if manager then Allowed
                 else if !DiscountWithin(input, bill, limits.percent) then DiscountRequiresApproval
                 else if !CustomWithin(bill, custom, limits) then CustomLineRequiresApproval
                 else Allowed
  {
    hide InvoiceAllowance, EffectiveAllowance;
    if manager {
      return Allowed;
    }
    var maxLine := 0.0;
    for i := 0 to |input.items|
      invariant forall j | 0 <= j < i :: input.items[j].discountPercent <= maxLine
      invariant maxLine == 0.0 || exists j | 0 <= j < i :: input.items[j].discountPercent == maxLine
    {
      if input.items[i].discountPercent > maxLine {
        maxLine := input.items[i].discountPercent;
      }
    }
    var invoice, effective := DiscountLimitAmounts(bill, limits.percent);
    var requested := AppliedPercent(input, bill);
    if maxLine > limits.percent || (requested.Some? && requested.value > limits.percent)
       || bill.invoiceDiscount > invoice || bill.totals.discount > effective {
      return DiscountRequiresApproval;
    }
    var customTotal := 0;
    for i := 0 to |bill.lines|
      invariant customTotal == Sum(bill.lines[..i], CustomAmount(custom))
      invariant forall j | 0 <= j < i && bill.lines[j].productId in custom :: bill.lines[j].subtotal as real <= limits.customLine
    {
      SumTake(bill.lines, i, CustomAmount(custom));
      if bill.lines[i].productId in custom {
        if bill.lines[i].subtotal as real > limits.customLine {
          return CustomLineRequiresApproval;
        }
        customTotal := customTotal + bill.lines[i].subtotal;
      }
    }
    assert bill.lines[..|bill.lines|] == bill.lines;
    return if customTotal as real > limits.customTotal then CustomLineRequiresApproval else Allowed;
  }

  // ---------------------------------------------------------------------------
  // Completeness: a discount typed within the limit is never refused
  // ---------------------------------------------------------------------------

  lemma {:induction false} ComponentMonotone(amount: nat, p: real, q: real)
    requires p <= q
    ensures Pricing.Component(amount, p) <= Pricing.Component(amount, q)
  {
    MulLessEq(p, q, amount as real);
    HalfUpMonotone(Pricing.Share(amount, p), Pricing.Share(amount, q));
  }

  lemma {:induction false} PreparedDiscounts(items: seq<Item>, i: nat)
    requires Prepared(items).Ok? && i < |items|
    ensures var l := Prepared(items).value[i];
      l.subtotal >= 0 && l.itemDiscount == Pricing.Component(l.subtotal, items[i].discountPercent)
    decreases |items|
  {
    hide PrepareLine;
    var last := |items| - 1;
    if i == last {
      assert PrepareLine(items[last]).Ok?;
      PreparedLineBounds(items[last]);
      PreparedDiscount(items[last]);
    } else {
      assert Prepared(items[..last]).Ok?;
      PreparedDiscounts(items[..last], i);
    }
  }

  lemma {:induction false} PreparedDiscount(item: Item)
    requires PrepareLine(item).Ok?
    ensures var l := PrepareLine(item).value;
      l.itemDiscount == Pricing.Component(l.subtotal, item.discountPercent)
  {}

  /** The lines of an accepted bill carry what their items' percents yield. */
  lemma {:induction false} BillItemDiscounts(input: Input, i: nat)
    requires Calculated(input).Ok? && i < |input.items|
    ensures var b := Calculated(input).value;
      && |b.lines| == |input.items|
      && b.lines[i].subtotal >= 0
      && b.lines[i].itemDiscount == Pricing.Component(b.lines[i].subtotal, input.items[i].discountPercent)
  {
    hide Prepared, InvoiceDiscount, RoundToRupee, Settled, Pricing.CalculateTax;
    PreparedDiscounts(input.items, i);
  }

  lemma {:induction false} ItemDiscountsWithin(input: Input, limit: real)
    requires Calculated(input).Ok?
    requires forall i | 0 <= i < |input.items| :: input.items[i].discountPercent <= limit
    ensures Sum(Calculated(input).value.lines, LineItemDiscount) <= Sum(Calculated(input).value.lines, LimitShare(limit))
  {
    hide Calculated, Pricing.Component;
    var b := Calculated(input).value;
    forall i | 0 <= i < |b.lines| ensures LineItemDiscount(b.lines[i]) <= LimitShare(limit)(b.lines[i]) {
      LinesMatchItems(input);
      BillItemDiscounts(input, i);
      ComponentMonotone(b.lines[i].subtotal, input.items[i].discountPercent, limit);
    }
    SumLessEq(b.lines, LineItemDiscount, b.lines, LimitShare(limit));
  }

  lemma {:induction false} LinesMatchItems(input: Input)
    requires Calculated(input).Ok?
    ensures |Calculated(input).value.lines| == |input.items| > 0
  {
    BillItemDiscounts(input, 0);
  }

  /** Line percentages within the limit, and nothing at invoice level. */
  lemma {:induction false} LineDiscountsAreAllowed(input: Input, limit: real)
    requires Calculated(input).Ok? && 0.0 <= limit
    requires forall i | 0 <= i < |input.items| :: input.items[i].discountPercent <= limit
    requires Calculated(input).value.invoiceDiscount == 0
    ensures DiscountWithin(input, Calculated(input).value, limit)
  {
    hide Calculated, Pricing.Component, TotalsOf;
    var b := Calculated(input).value;
    CalculatedIsSound(input);
    ItemDiscountsWithin(input, limit);
    ItemDiscountTotal(input);
    Pricing.ComponentNearShare(b.totals.subtotal - b.itemDiscount, limit);
  }

  lemma {:induction false} ItemDiscountTotal(input: Input)
    requires Calculated(input).Ok?
    ensures var b := Calculated(input).value;
      b.itemDiscount == Sum(b.lines, LineItemDiscount) && b.itemDiscount <= b.totals.subtotal
  {
    hide Calculated, Pricing.CalculateTax;
    var b := Calculated(input).value;
    CalculatedIsSound(input);
    LinesAddUp(b.lines);
  }

  /** One invoice percentage within the limit, and no line discounts. */
  lemma {:induction false} InvoicePercentageIsAllowed(input: Input, limit: real)
    requires Calculated(input).Ok? && 0.0 <= limit
    requires forall i | 0 <= i < |input.items| :: input.items[i].discountPercent == 0.0
    requires IsByPercentage(input) && input.discountPercentage.Some? && input.discountPercentage.value <= limit
    ensures DiscountWithin(input, Calculated(input).value, limit)
  {
    hide Calculated, Pricing.Component, TotalsOf;
    var b := Calculated(input).value;
    CalculatedIsSound(input);
    forall i | 0 <= i < |b.lines| ensures LineItemDiscount(b.lines[i]) == 0 {
      LinesMatchItems(input);
      BillItemDiscounts(input, i);
      Pricing.ComponentNearShare(b.lines[i].subtotal, 0.0);
    }
    SumBounds(b.lines, LineItemDiscount, 0, 0);
    ItemDiscountTotal(input);
    PercentageDiscount(input);
    Pricing.ComponentNearShare(b.totals.subtotal, limit);
    ComponentMonotone(b.totals.subtotal, input.discountPercentage.value, limit);
  }

  lemma {:induction false} PercentageDiscount(input: Input)
    requires Calculated(input).Ok? && IsByPercentage(input) && input.discountPercentage.Some?
    ensures var b := Calculated(input).value;
      b.invoiceDiscount == Pricing.Component(b.totals.subtotal - b.itemDiscount, input.discountPercentage.value)
  {
    hide Prepared, RoundToRupee, Settled, Pricing.Component, Pricing.CalculateTax;
    var pre := Prepared(input.items).value;
    var b := Calculated(input).value;
    SumEqual(pre, PreSubtotal, b.lines, LineSubtotal);
  }

  // ---------------------------------------------------------------------------
  // Soundness: an accepted discount exceeds the limit only by rounding
  // ---------------------------------------------------------------------------

  lemma {:induction false} ShareIsAdditive(a: int, b: int, percent: real)
    ensures Pricing.Share(a + b, percent) == Pricing.Share(a, percent) + Pricing.Share(b, percent)
    ensures Pricing.Share(0, percent) == 0.0
  {}

  lemma {:induction false} LimitSharesNearExact(lines: seq<Line>, limit: real)
    requires 0.0 <= limit && forall i | 0 <= i < |lines| :: 0 <= lines[i].subtotal
    ensures Sum(lines, LimitShare(limit)) as real <= Pricing.Share(Sum(lines, LineSubtotal), limit) + |lines| as real / 2.0
  {
    hide Pricing.Share;
    if lines == [] {
      ShareIsAdditive(0, 0, limit);
    } else {
      var earlier, l := lines[..|lines| - 1], lines[|lines| - 1];
      LimitSharesNearExact(earlier, limit);
      ShareIsAdditive(Sum(earlier, LineSubtotal), l.subtotal, limit);
      Pricing.ComponentNearShare(l.subtotal, limit);
    }
  }

  /** An accepted cashier bill discounts at most the exact limit share of its subtotal, plus half a paisa a line. */
  lemma {:induction false} AcceptedDiscountIsBounded(input: Input, limit: real)
    requires Calculated(input).Ok? && 0.0 <= limit
    requires DiscountWithin(input, Calculated(input).value, limit)
    ensures var b := Calculated(input).value;
      b.totals.discount as real <= Pricing.Share(b.totals.subtotal, limit) + |b.lines| as real / 2.0
  {
    hide Calculated, Pricing.Share, Pricing.CalculateTax;
    var b := Calculated(input).value;
    CalculatedIsSound(input);
    LinesMatchItems(input);
    LinesAddUp(b.lines);
    SumNonNegative(b.lines, LineSubtotal);
    LimitSharesNearExact(b.lines, limit);
    Pricing.ComponentNearShare(b.totals.subtotal, limit);
  }
}
