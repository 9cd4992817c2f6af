/**
 * Returning a sale in any number of parts: each part refunds the difference of
 * two cumulative, rounded amounts, and the document that exhausts the sale
 * takes the exact remainder. Quantities are in thousandths of a unit.
 */
module Returns {
  import opened Common
  import opened Rounding
  import Allocation
  import Invoice

  datatype Error =
    | EmptyReturn | InvalidReturnLine | InvalidQuantity | ReturnQtyExceeds
    | LineNotFound | DuplicateLine | NothingToReturn

  /** The stored amounts of a line, or of a slice of it. */
  datatype Amounts = Amounts(discount: int, taxable: int, cgst: int, sgst: int, igst: int, cess: int) {
    function Tax(): int { cgst + sgst + igst + cess }
    function Total(): int { taxable + Tax() }
    function Subtotal(): int { taxable + discount }
    function Minus(that: Amounts): Amounts {
      Amounts(discount - that.discount, taxable - that.taxable, cgst - that.cgst, sgst - that.sgst, igst - that.igst, cess - that.cess)
    }
    predicate NonNegative() { 0 <= discount && 0 <= taxable && 0 <= cgst && 0 <= sgst && 0 <= igst && 0 <= cess }
  }

  datatype SaleLine = SaleLine(quantity: int, stored: Amounts)

  datatype ReturnInput = ReturnInput(line: SaleLine, returned: int, quantity: int)

  datatype Settlement = Settlement(invoiceTotal: int, refunded: int, completes: bool)

  datatype ReturnDoc = ReturnDoc(slices: seq<Amounts>, totals: Amounts, grandTotal: int, roundOff: int, finalTotal: int)

  // ---------------------------------------------------------------------------
  // Cumulative amounts
  // ---------------------------------------------------------------------------

  function Exact(amount: int, q: int, whole: int): real
    requires 0 < whole
  {
    amount as real * q as real / whole as real
  }

  /** The part of a stored amount refunded once q of Q thousandths have gone back. */
  function Cumulative(amount: int, q: int, whole: int): int
    requires 0 < whole
  {
    if q == 0 then 0
    else if q == whole then amount
    else HalfUp(Exact(amount, q, whole))
  }

  lemma {:induction false} ExactBounds(amount: nat, q: int, whole: int)
    requires 0 <= q <= whole && 0 < whole
    ensures 0.0 <= Exact(amount, q, whole) <= amount as real
    ensures q == 0 ==> Exact(amount, q, whole) == 0.0
    ensures q == whole ==> Exact(amount, q, whole) == amount as real
  {
    var a, x, w := amount as real, q as real, whole as real;
    CompareQuotient(a * x, w, 0.0);
    CompareQuotient(a * x, w, a);
    MulLessEq(x, w, a);
  }

  lemma {:induction false} ExactMonotone(amount: nat, q: int, r: int, whole: int)
    requires 0 <= q <= r && 0 < whole
    ensures Exact(amount, q, whole) <= Exact(amount, r, whole)
  {
    var a, w := amount as real, whole as real;
    MulLessEq(q as real, r as real, a);
    QuotientMonotone(a * q as real, a * r as real, w);
  }

  /** Half a paisa at most from the exact proportion, whatever went back before. */
  lemma {:induction false} CumulativeNearExact(amount: nat, q: int, whole: int)
    requires 0 <= q <= whole && 0 < whole
    ensures -0.5 <= Cumulative(amount, q, whole) as real - Exact(amount, q, whole) <= 0.5
    ensures 0 <= Cumulative(amount, q, whole) <= amount
  {
    hide Exact;
    ExactBounds(amount, q, whole);
    HalfUpWithinHalf(Exact(amount, q, whole));
    HalfUpOfInt(amount);
    HalfUpMonotone(Exact(amount, q, whole), amount as real);
  }

  /** More units back never refund less: every slice is non-negative. */
  lemma {:induction false} CumulativeMonotone(amount: nat, q: int, r: int, whole: int)
    requires 0 <= q <= r <= whole && 0 < whole
    ensures Cumulative(amount, q, whole) <= Cumulative(amount, r, whole)
  {
    hide Exact;
    CumulativeNearExact(amount, q, whole);
    CumulativeNearExact(amount, r, whole);
    ExactMonotone(amount, q, r, whole);
    HalfUpMonotone(Exact(amount, q, whole), Exact(amount, r, whole));
  }

  lemma {:induction false} QuotientMonotone(m: real, n: real, d: real)
    requires m <= n && 0.0 < d
    ensures m / d <= n / d
  {
    var y := n / d;
    assert y * d == n;
    CompareQuotient(m, d, y);
  }

  function CumulativeAmounts(line: SaleLine, q: int): Amounts
    requires 0 < line.quantity
  {
    var a, whole := line.stored, line.quantity;
    Amounts(Cumulative(a.discount, q, whole), Cumulative(a.taxable, q, whole), Cumulative(a.cgst, q, whole),
            Cumulative(a.sgst, q, whole), Cumulative(a.igst, q, whole), Cumulative(a.cess, q, whole))
  }

  ghost predicate GoodLine(line: SaleLine) { 0 < line.quantity && line.stored.NonNegative() }

  /** What a line refunds between two cumulative quantities is non-negative in every column, and a whole line refunds itself. */
  lemma {:induction false} SliceFacts(line: SaleLine, before: int, after: int)
    requires GoodLine(line) && 0 <= before <= after <= line.quantity
    ensures CumulativeAmounts(line, after).Minus(CumulativeAmounts(line, before)).NonNegative()
    ensures CumulativeAmounts(line, 0) == Amounts(0, 0, 0, 0, 0, 0)
    ensures CumulativeAmounts(line, line.quantity) == line.stored
  {
    hide Cumulative;
    var a, whole := line.stored, line.quantity;
    CumulativeMonotone(a.discount, before, after, whole);
    CumulativeMonotone(a.taxable, before, after, whole);
    CumulativeMonotone(a.cgst, before, after, whole);
    CumulativeMonotone(a.sgst, before, after, whole);
    CumulativeMonotone(a.igst, before, after, whole);
    CumulativeMonotone(a.cess, before, after, whole);
    CumulativeEnds(line);
  }

  lemma {:induction false} CumulativeEnds(line: SaleLine)
    requires 0 < line.quantity
    ensures CumulativeAmounts(line, 0) == Amounts(0, 0, 0, 0, 0, 0)
    ensures CumulativeAmounts(line, line.quantity) == line.stored
  {}

  function CostOf(unitCost: int, quantity: int): int {
    HalfUp(unitCost as real * quantity as real / 1000.0)
  }

  /** Cost of goods of `quantity` thousandths after `before` of the same line moved. */
  function CostOfGoodsSlice(unitCost: int, before: int, quantity: int): int {
    CostOf(unitCost, before + quantity) - CostOf(unitCost, before)
  }

  /** The cost a sale books is within half a paisa of exact, and later slices are what is left of it. */
  lemma {:induction false} CostNearExact(unitCost: int, before: int, quantity: int)
    ensures -0.5 <= CostOfGoodsSlice(unitCost, 0, quantity) as real - unitCost as real * quantity as real / 1000.0 <= 0.5
    ensures CostOfGoodsSlice(unitCost, before, quantity)
         == CostOfGoodsSlice(unitCost, 0, before + quantity) - CostOfGoodsSlice(unitCost, 0, before)
  {
    HalfUpWithinHalf(unitCost as real * quantity as real / 1000.0);
    NothingCostsNothing(unitCost);
  }

  lemma {:induction false} NothingCostsNothing(unitCost: int)
    ensures CostOf(unitCost, 0) == 0
  {
    assert unitCost as real * 0.0 / 1000.0 == 0.0;
  }

  function Total(quantities: seq<int>): int { Sum(quantities, Id) }

  /** The slices of a stored amount over any split of a line. */
  function Slices(amount: int, whole: int, before: int, quantities: seq<int>): (r: seq<int>)
    requires 0 < whole
    ensures |r| == |quantities|
  {
    if quantities == [] then [] else
    var n := |quantities| - 1;
    var start := before + Total(quantities[..n]);
    Slices(amount, whole, before, quantities[..n])
    + [Cumulative(amount, start + quantities[n], whole) - Cumulative(amount, start, whole)]
  }

  /** However a line is split, what it refunds depends only on where the split starts and ends. */
  lemma {:induction false} SlicesAddUp(amount: int, whole: int, before: int, quantities: seq<int>)
    requires 0 < whole
    ensures Sum(Slices(amount, whole, before, quantities), Id)
         == Cumulative(amount, before + Total(quantities), whole) - Cumulative(amount, before, whole)
  {
    hide Cumulative;
    if quantities != [] {
      var n := |quantities| - 1;
      SlicesAddUp(amount, whole, before, quantities[..n]);
    }
  }

  /** A line returned in full, in any parts, refunds exactly its stored amount. */
  lemma {:induction false} FullReturnRefundsStored(amount: int, whole: int, quantities: seq<int>)
    requires 0 < whole && Total(quantities) == whole
    ensures Sum(Slices(amount, whole, 0, quantities), Id) == amount
  {
    SlicesAddUp(amount, whole, 0, quantities);
  }

  function CostSlices(unitCost: int, before: int, quantities: seq<int>): (r: seq<int>)
    ensures |r| == |quantities|
  {
    if quantities == [] then [] else
    var n := |quantities| - 1;
    CostSlices(unitCost, before, quantities[..n]) + [CostOfGoodsSlice(unitCost, before + Total(quantities[..n]), quantities[n])]
  }

  /** The returns of a line book exactly the cost its sale booked, however it is split. */
  lemma {:induction false} CostSlicesAddUp(unitCost: int, before: int, quantities: seq<int>)
    ensures Sum(CostSlices(unitCost, before, quantities), Id) == CostOfGoodsSlice(unitCost, before, Total(quantities))
  {
    hide CostOf;
    if quantities != [] {
      CostSlicesAddUp(unitCost, before, quantities[..|quantities| - 1]);
    }
  }

  // ---------------------------------------------------------------------------
  // One return document
  // ---------------------------------------------------------------------------

  function LineError(i: ReturnInput): Option<Error> {
    if i.line.quantity <= 0 then Some(InvalidReturnLine)
    else if i.returned < 0 || i.returned > i.line.quantity then Some(InvalidReturnLine)
    else if i.quantity <= 0 then Some(InvalidQuantity)
    else if i.returned + i.quantity > i.line.quantity then Some(ReturnQtyExceeds)
    else None
  }

  function Slice(i: ReturnInput): Amounts
    requires LineError(i).None?
  {
    CumulativeAmounts(i.line, i.returned + i.quantity).Minus(CumulativeAmounts(i.line, i.returned))
  }

  /** The slices of every line, or the error of the first line that has one. */
  function SlicesOf(inputs: seq<ReturnInput>): (r: Result<seq<Amounts>, Error>)
    ensures r.Ok? ==> |r.value| == |inputs|
    ensures r.Ok? ==> forall i | 0 <= i < |inputs| :: LineError(inputs[i]).None? && r.value[i] == Slice(inputs[i])
  {
    if inputs == [] then Ok([]) else
    var last := inputs[|inputs| - 1];
    match SlicesOf(inputs[..|inputs| - 1])
    case Err(e) => Err(e)
    case Ok(slices) => if LineError(last).Some? then Err(LineError(last).value) else Ok(slices + [Slice(last)])
  }

  function Discount(a: Amounts): int { a.discount }
  function Taxable(a: Amounts): int { a.taxable }
  function Cgst(a: Amounts): int { a.cgst }
  function Sgst(a: Amounts): int { a.sgst }
  function Igst(a: Amounts): int { a.igst }
  function Cess(a: Amounts): int { a.cess }
  function LineTotal(a: Amounts): int { a.Total() }
  function LineSubtotal(a: Amounts): int { a.Subtotal() }

  function AmountsTotal(slices: seq<Amounts>): Amounts {
    Amounts(Sum(slices, Discount), Sum(slices, Taxable), Sum(slices, Cgst), Sum(slices, Sgst), Sum(slices, Igst), Sum(slices, Cess))
  }

  function CalculateReturn(inputs: seq<ReturnInput>, settlement: Option<Settlement>): Result<ReturnDoc, Error> {
    if inputs == [] then Err(EmptyReturn) else
    match SlicesOf(inputs)
    case Err(e) => Err(e)
    case Ok(slices) =>
      var totals := AmountsTotal(slices);
      var grand := totals.Total();
      if settlement.None? then Ok(ReturnDoc(slices, totals, grand, 0, grand)) else
      var s := settlement.value;
      if s.invoiceTotal < 0 || s.refunded < 0 then Err(InvalidReturnLine) else
      var remaining := Max(s.invoiceTotal - s.refunded, 0);
      var final := if s.completes then remaining else Min(grand, remaining);
      Ok(ReturnDoc(slices, totals, grand, final - grand, final))
  }

  lemma {:induction false} TotalsAreLineSums(slices: seq<Amounts>)
    ensures AmountsTotal(slices).Total() == Sum(slices, LineTotal)
    ensures AmountsTotal(slices).Subtotal() == Sum(slices, LineSubtotal)
  {
    if slices != [] {
      TotalsAreLineSums(slices[..|slices| - 1]);
    }
  }

  /** The document's own rows: subtotal less discount is taxable, and the totals are the sums of the lines. */
  lemma {:induction false} ReturnDocAddsUp(inputs: seq<ReturnInput>, settlement: Option<Settlement>)
    requires CalculateReturn(inputs, settlement).Ok?
    ensures var d := CalculateReturn(inputs, settlement).value;
      && Sum(d.slices, LineSubtotal) - d.totals.discount == d.totals.taxable
      && d.grandTotal == Sum(d.slices, LineTotal)
      && d.finalTotal == d.grandTotal + d.roundOff
  {
    TotalsAreLineSums(SlicesOf(inputs).value);
  }

  // ---------------------------------------------------------------------------
  // A sale and its returns
  // ---------------------------------------------------------------------------

  datatype Request = Request(line: int, quantity: int)

  /** The sale's lines and total, what of each line went back, and the return documents so far. */
  datatype Sale = Sale(lines: seq<SaleLine>, invoiceTotal: int, returned: seq<int>, documents: seq<ReturnDoc>)

  function DocFinal(d: ReturnDoc): int { d.finalTotal }
  function DocGrand(d: ReturnDoc): int { d.grandTotal }
  function DocRoundOff(d: ReturnDoc): int { d.roundOff }

  predicate WellShaped(s: Sale) {
    && |s.lines| == |s.returned|
    && forall i | 0 <= i < |s.lines| :: 0 < s.lines[i].quantity && 0 <= s.returned[i] <= s.lines[i].quantity
  }

  function Remaining(s: Sale, i: nat): int
    requires WellShaped(s) && i < |s.lines|
  {
    s.lines[i].quantity - s.returned[i]
  }

  /** Every line with something left, when nothing in particular is asked for. */
  function Everything(s: Sale, k: nat): seq<Request>
    requires WellShaped(s) && k <= |s.lines|
  {
    if k == 0 then []
    else Everything(s, k - 1) + (if Remaining(s, k - 1) > 0 then [Request(k - 1, Remaining(s, k - 1))] else [])
  }

  function SelectionError(s: Sale, requested: seq<Request>): Option<Error>
    requires WellShaped(s)
  {
    if requested == [] then None else
    var last := requested[|requested| - 1];
    match SelectionError(s, requested[..|requested| - 1])
    case Some(e) => Some(e)
    case None =>
      if last.line < 0 || last.line >= |s.lines| then Some(LineNotFound)
      else if last.quantity > Remaining(s, last.line) then Some(ReturnQtyExceeds)
      else None
  }

  predicate Distinct(requested: seq<Request>) {
    forall i, j | 0 <= i < j < |requested| :: requested[i].line != requested[j].line
  }

  function SelectReturnLines(s: Sale, requested: seq<Request>): Result<seq<Request>, Error>
    requires WellShaped(s)
  {
    if requested == [] then
      var all := Everything(s, |s.lines|);
      if all == [] then Err(NothingToReturn) else Ok(all)
    else if SelectionError(s, requested).Some? then Err(SelectionError(s, requested).value)
    else if !Distinct(requested) then Err(DuplicateLine)
    else Ok(requested)
  }

  function Inputs(s: Sale, selected: seq<Request>): (r: seq<ReturnInput>)
    requires WellShaped(s)
    requires forall i | 0 <= i < |selected| :: 0 <= selected[i].line < |s.lines|
    ensures |r| == |selected|
  {
    seq(|selected|, i requires 0 <= i < |selected| =>
      ReturnInput(s.lines[selected[i].line], s.returned[selected[i].line], selected[i].quantity))
  }

  function After(returned: seq<int>, selected: seq<Request>): (r: seq<int>)
    requires forall i | 0 <= i < |selected| :: 0 <= selected[i].line < |returned|
    ensures |r| == |returned|
  {
    if selected == [] then returned else
    var last := selected[|selected| - 1];
    var r := After(returned, selected[..|selected| - 1]);
    r[last.line := r[last.line] + last.quantity]
  }

  /** Whether a line still has money to refund once `returned` of it went back. */
  predicate HasRefundLeft(line: SaleLine, returned: int) {
    var remaining := line.quantity - returned;
    remaining > 0 &&
    var rest := CalculateReturn([ReturnInput(line, returned, remaining)], None);
    rest.Ok? && rest.value.grandTotal > 0
  }

  predicate Completes(lines: seq<SaleLine>, returned: seq<int>)
    requires |lines| == |returned|
  {
    forall i | 0 <= i < |lines| :: !HasRefundLeft(lines[i], returned[i])
  }

  lemma {:induction false} SelectionIsValid(s: Sale, requested: seq<Request>, i: nat)
    requires WellShaped(s) && SelectionError(s, requested).None? && i < |requested|
    ensures 0 <= requested[i].line < |s.lines| && requested[i].quantity <= Remaining(s, requested[i].line)
  {
    if i < |requested| - 1 {
      SelectionIsValid(s, requested[..|requested| - 1], i);
    }
  }

  lemma {:induction false} EverythingIsValid(s: Sale, k: nat)
    requires WellShaped(s) && k <= |s.lines|
    ensures var all := Everything(s, k);
      && Distinct(all)
      && forall i | 0 <= i < |all| :: 0 <= all[i].line < k && 0 < all[i].quantity == Remaining(s, all[i].line)
  {
    if k > 0 {
      EverythingIsValid(s, k - 1);
    }
  }

  /** What a selection guarantees: distinct lines of the sale, none beyond what is left of it. */
  lemma {:induction false} SelectedIsValid(s: Sale, requested: seq<Request>)
    requires WellShaped(s) && SelectReturnLines(s, requested).Ok?
    ensures var selected := SelectReturnLines(s, requested).value;
      && selected != [] && Distinct(selected)
      && forall i | 0 <= i < |selected| ::
           0 <= selected[i].line < |s.lines| && selected[i].quantity <= Remaining(s, selected[i].line)
  {
    EverythingIsValid(s, |s.lines|);
    if requested != [] {
      forall i | 0 <= i < |requested|
        ensures 0 <= requested[i].line < |s.lines| && requested[i].quantity <= Remaining(s, requested[i].line)
      {
        SelectionIsValid(s, requested, i);
      }
    }
  }

  /** One return against the sale: the new state, or the error that refuses it and changes nothing. */
  ghost function Returned(s: Sale, requested: seq<Request>): Result<Sale, Error>
    requires WellShaped(s)
  {
    match SelectReturnLines(s, requested)
    case Err(e) => Err(e)
    case Ok(selected) =>
      SelectedIsValid(s, requested);
      var after := After(s.returned, selected);
      var settlement := Settlement(s.invoiceTotal, Sum(s.documents, DocFinal), Completes(s.lines, after));
      match CalculateReturn(Inputs(s, selected), Some(settlement))
      case Err(e) => Err(e)
      case Ok(doc) => Ok(s.(returned := after, documents := s.documents + [doc]))
  }

  /** The imperative form: the rows the service updates for one sale. */
  class SaleReturns {
    const lines: seq<SaleLine>
    const invoiceTotal: int
    var returned: seq<int>
    var documents: seq<ReturnDoc>

    ghost function State(): Sale
      reads this
    {
      Sale(lines, invoiceTotal, returned, documents)
    }

    constructor (lines: seq<SaleLine>, invoiceTotal: int)
      requires forall i | 0 <= i < |lines| :: 0 < lines[i].quantity
      ensures State() == Fresh(lines, invoiceTotal)
    {
      this.lines, this.invoiceTotal := lines, invoiceTotal;
      returned, documents := seq(|lines|, _ => 0), [];
    }

    method ProcessReturn(requested: seq<Request>) returns (r: Result<ReturnDoc, Error>)
      requires WellShaped(State())
      modifies this
      ensures Returned(old(State()), requested).Err? ==>
        r == Err(Returned(old(State()), requested).error) && State() == old(State())
      ensures Returned(old(State()), requested).Ok? ==>
        State() == Returned(old(State()), requested).value && r == Ok(documents[|documents| - 1]) && |documents| == |old(documents)| + 1
    {
      hide CalculateReturn, SelectReturnLines, Completes;
      var sale := Sale(lines, invoiceTotal, returned, documents);
      var selected := SelectReturnLines(sale, requested);
      if selected.Err? {
        return Err(selected.error);
      }
      SelectedIsValid(sale, requested);
      var refunded := 0;
      for i := 0 to |sale.documents|
        invariant State() == sale
        invariant refunded == Sum(sale.documents[..i], DocFinal)
      {
        SumTake(sale.documents, i, DocFinal);
        refunded := refunded + sale.documents[i].finalTotal;
      }
      assert sale.documents[..|sale.documents|] == sale.documents;
      var after := sale.returned;
      assert selected.value[..0] == [];
      for i := 0 to |selected.value|
        invariant State() == sale
        invariant after == After(sale.returned, selected.value[..i])
      {
        var upTo := selected.value[..i + 1];
        assert upTo[..i] == selected.value[..i] && upTo[i] == selected.value[i];
        var line := selected.value[i].line;
        after := after[line := after[line] + selected.value[i].quantity];
      }
      assert selected.value[..|selected.value|] == selected.value;
      var settlement := Settlement(invoiceTotal, refunded, Completes(lines, after));
      var doc := CalculateReturn(Inputs(sale, selected.value), Some(settlement));
      if doc.Err? {
        return Err(doc.error);
      }
      returned := after;
      documents := documents + [doc.value];
      return doc;
    }
  }

  function Fresh(lines: seq<SaleLine>, invoiceTotal: int): Sale {
    Sale(lines, invoiceTotal, seq(|lines|, _ => 0), [])
  }

  // ---------------------------------------------------------------------------
  // Every run of returns
  // ---------------------------------------------------------------------------

  /** A column of amounts that a difference of amounts respects: every column and every sum of columns. */
  ghost predicate Additive(pick: Amounts -> int) {
    forall a: Amounts, b: Amounts :: pick(a.Minus(b)) == pick(a) - pick(b)
  }

  function LineRefund(line: SaleLine, q: int, pick: Amounts -> int): int
    requires 0 < line.quantity
  {
    pick(CumulativeAmounts(line, q))
  }

  /** What one column of the lines refunds once `returned` of them went back. */
  function Refund(lines: seq<SaleLine>, returned: seq<int>, pick: Amounts -> int): int
    requires |lines| == |returned|
    requires forall i | 0 <= i < |lines| :: 0 < lines[i].quantity
  {
    if lines == [] then 0
    else
      var n := |lines| - 1;
      Refund(lines[..n], returned[..n], pick) + LineRefund(lines[n], returned[n], pick)
  }

  function LineTotalStored(line: SaleLine): int { line.stored.Total() }

  /** The sale's own grand total. */
  function GrandTotal(lines: seq<SaleLine>): int { Sum(lines, LineTotalStored) }

  /** A sale whose total is its grand total rounded to the rupee. */
  ghost predicate Good(s: Sale) {
    && WellShaped(s)
    && (forall i | 0 <= i < |s.lines| :: GoodLine(s.lines[i]))
    && s.invoiceTotal == Invoice.RoundToRupee(GrandTotal(s.lines))
  }

  lemma {:induction false} RefundUpdate(lines: seq<SaleLine>, returned: seq<int>, k: nat, q: int, pick: Amounts -> int)
    requires |lines| == |returned| && k < |lines|
    requires forall i | 0 <= i < |lines| :: 0 < lines[i].quantity
    ensures Refund(lines, returned[k := q], pick)
         == Refund(lines, returned, pick) - LineRefund(lines[k], returned[k], pick) + LineRefund(lines[k], q, pick)
  {
    hide LineRefund;
    var n := |lines| - 1;
    if k == n {
      assert returned[k := q][..n] == returned[..n];
    } else {
      assert returned[k := q][..n] == returned[..n][k := q];
      RefundUpdate(lines[..n], returned[..n], k, q, pick);
    }
  }

  lemma {:induction false} LineRefundBounds(line: SaleLine, q: int)
    requires GoodLine(line) && 0 <= q <= line.quantity
    ensures 0 <= LineRefund(line, q, LineTotal) <= line.stored.Total()
    ensures LineRefund(line, 0, LineTotal) == 0 && LineRefund(line, line.quantity, LineTotal) == line.stored.Total()
  {
    SliceFacts(line, 0, q);
    SliceFacts(line, q, line.quantity);
  }

  /** The lines' refund runs from nothing to the grand total, and reaches it exactly when no line has money left. */
  lemma {:induction false} RefundBounds(lines: seq<SaleLine>, returned: seq<int>)
    requires |lines| == |returned|
    requires forall i | 0 <= i < |lines| :: 0 < lines[i].quantity && lines[i].stored.NonNegative() && 0 <= returned[i] <= lines[i].quantity
    ensures 0 <= Refund(lines, returned, LineTotal) <= GrandTotal(lines)
    ensures Refund(lines, returned, LineTotal) == GrandTotal(lines) <==>
      forall i | 0 <= i < |lines| :: LineRefund(lines[i], returned[i], LineTotal) == LineTotalStored(lines[i])
  {
    hide LineRefund;
    if lines != [] {
      var n := |lines| - 1;
      RefundBounds(lines[..n], returned[..n]);
      LineRefundBounds(lines[n], returned[n]);
    }
  }

  lemma {:induction false} HasRefundLeftMeans(line: SaleLine, returned: int)
    requires GoodLine(line) && 0 <= returned <= line.quantity
    ensures HasRefundLeft(line, returned) <==> LineRefund(line, returned, LineTotal) < line.stored.Total()
  {
    hide CumulativeAmounts, LineRefund;
    LineRefundBounds(line, returned);
    var input := ReturnInput(line, returned, line.quantity - returned);
    if line.quantity - returned > 0 {
      OneSlice(input);
      TotalIsAdditive();
      SliceColumn(input, LineTotal);
    }
  }

  lemma {:induction false} OneSlice(input: ReturnInput)
    requires LineError(input).None?
    ensures CalculateReturn([input], None).Ok?
    ensures CalculateReturn([input], None).value.grandTotal == Slice(input).Total()
  {
    hide Slice;
    assert SlicesOf([input][..0]) == Ok([]);
    var slices := SlicesOf([input]).value;
    assert slices == [Slice(input)];
    TotalsAreLineSums(slices);
    assert slices[..0] == [];
  }

  /** The service's completion rule: the document completes the sale exactly when its lines refund the whole grand total. */
  lemma {:induction false} CompletesMeans(lines: seq<SaleLine>, returned: seq<int>)
    requires |lines| == |returned|
    requires forall i | 0 <= i < |lines| :: 0 < lines[i].quantity && lines[i].stored.NonNegative() && 0 <= returned[i] <= lines[i].quantity
    ensures Completes(lines, returned) <==> Refund(lines, returned, LineTotal) == GrandTotal(lines)
  {
    hide HasRefundLeft, LineRefund;
    RefundBounds(lines, returned);
    forall i | 0 <= i < |lines|
      ensures HasRefundLeft(lines[i], returned[i]) <==> LineRefund(lines[i], returned[i], LineTotal) != LineTotalStored(lines[i])
    {
      HasRefundLeftMeans(lines[i], returned[i]);
      LineRefundBounds(lines[i], returned[i]);
    }
  }

  lemma {:induction false} AfterLeaves(returned: seq<int>, selected: seq<Request>, k: nat)
    requires forall i | 0 <= i < |selected| :: 0 <= selected[i].line < |returned| && selected[i].line != k
    requires k < |returned|
    ensures After(returned, selected)[k] == returned[k]
  {
    if selected != [] {
      AfterLeaves(returned, selected[..|selected| - 1], k);
    }
  }

  ghost predicate Returnable(s: Sale, selected: seq<Request>)
    requires WellShaped(s)
  {
    && Distinct(selected)
    && forall i | 0 <= i < |selected| ::
         0 <= selected[i].line < |s.lines| && 0 < selected[i].quantity <= Remaining(s, selected[i].line)
  }

  /** No line goes back twice. */
  lemma {:induction false} AfterWithin(s: Sale, selected: seq<Request>)
    requires WellShaped(s) && Returnable(s, selected)
    ensures forall i | 0 <= i < |s.lines| :: s.returned[i] <= After(s.returned, selected)[i] <= s.lines[i].quantity
  {
    if selected != [] {
      var n := |selected| - 1;
      AfterWithin(s, selected[..n]);
      AfterLeaves(s.returned, selected[..n], selected[n].line);
    }
  }

  /** A column of the slices of a selection moves that column's cumulative refund. */
  ghost predicate MovesRefund(s: Sale, selected: seq<Request>, pick: Amounts -> int)
    requires WellShaped(s) && Returnable(s, selected)
  {
    && SlicesOf(Inputs(s, selected)).Ok?
    && Sum(SlicesOf(Inputs(s, selected)).value, pick)
       == Refund(s.lines, After(s.returned, selected), pick) - Refund(s.lines, s.returned, pick)
  }

  lemma {:induction false} DocumentMovesRefund(s: Sale, selected: seq<Request>, pick: Amounts -> int)
    requires WellShaped(s) && Returnable(s, selected) && Additive(pick)
    ensures MovesRefund(s, selected, pick)
  {
    if selected == [] {
      assert Inputs(s, selected) == [];
    } else {
      hide Additive, MovesRefund;
      DocumentMovesRefund(s, selected[..|selected| - 1], pick);
      LineMovesRefund(s, selected, |selected| - 1, pick);
    }
  }

  lemma {:induction false} LineMovesRefund(s: Sale, selected: seq<Request>, n: nat, pick: Amounts -> int)
    requires WellShaped(s) && Returnable(s, selected) && n + 1 == |selected| && Additive(pick)
    requires Returnable(s, selected[..n]) && MovesRefund(s, selected[..n], pick)
    ensures MovesRefund(s, selected, pick)
  {
    hide Refund, Slice, Additive, LineRefund, SlicesOf, After, Sum, LineError;
    var last, inputs, after := selected[n], Inputs(s, selected), After(s.returned, selected[..n]);
    assert inputs[..n] == Inputs(s, selected[..n]);
    AfterSnoc(s, selected, n);
    SlicesSnoc(inputs, n);
    SumSnoc(SlicesOf(inputs[..n]).value, Slice(inputs[n]), pick);
    SliceColumn(inputs[n], pick);
    RefundUpdate(s.lines, after, last.line, after[last.line] + last.quantity, pick);
    assert inputs[n] == ReturnInput(s.lines[last.line], s.returned[last.line], last.quantity);
    assert Refund(s.lines, After(s.returned, selected), pick) == Refund(s.lines, after, pick) + pick(Slice(inputs[n]));
    assert Sum(SlicesOf(inputs).value, pick) == Sum(SlicesOf(inputs[..n]).value, pick) + pick(Slice(inputs[n]));
  }

  lemma {:induction false} SlicesSnoc(inputs: seq<ReturnInput>, n: nat)
    requires n + 1 == |inputs|
    requires SlicesOf(inputs[..n]).Ok? && LineError(inputs[n]).None?
    ensures SlicesOf(inputs) == Ok(SlicesOf(inputs[..n]).value + [Slice(inputs[n])])
  {}

  lemma {:induction false} AfterSnoc(s: Sale, selected: seq<Request>, n: nat)
    requires WellShaped(s) && Returnable(s, selected) && n + 1 == |selected|
    ensures LineError(Inputs(s, selected)[n]).None?
    ensures var line, after := selected[n].line, After(s.returned, selected[..n]);
      && after[line] == s.returned[line]
      && After(s.returned, selected) == after[line := after[line] + selected[n].quantity]
  {
    AfterLeaves(s.returned, selected[..n], selected[n].line);
  }

  lemma {:induction false} SliceColumn(i: ReturnInput, pick: Amounts -> int)
    requires LineError(i).None? && Additive(pick)
    ensures pick(Slice(i)) == LineRefund(i.line, i.returned + i.quantity, pick) - LineRefund(i.line, i.returned, pick)
  {
    hide CumulativeAmounts;
  }

  lemma {:induction false} TotalIsAdditive()
    ensures Additive(LineTotal)
  {}

  function DocColumn(pick: Amounts -> int): ReturnDoc -> int {
    (d: ReturnDoc) => Sum(d.slices, pick)
  }

  /** An accepted return: its document's columns move the cumulative refund, and its lines stay within the sale. */
  lemma {:induction false} ReturnedColumns(s: Sale, requested: seq<Request>, pick: Amounts -> int)
    requires WellShaped(s) && Additive(pick) && Returned(s, requested).Ok?
    ensures var t := Returned(s, requested).value;
      && WellShaped(t) && t.lines == s.lines && t.invoiceTotal == s.invoiceTotal
      && |t.documents| == |s.documents| + 1 && t.documents[..|s.documents|] == s.documents
      && (forall i | 0 <= i < |s.lines| :: s.returned[i] <= t.returned[i])
      && Sum(t.documents, DocColumn(pick)) - Sum(s.documents, DocColumn(pick))
         == Refund(t.lines, t.returned, pick) - Refund(s.lines, s.returned, pick)
  {
    hide SelectReturnLines, Refund, Returned, After, SlicesOf, Inputs, LineError, Additive, Sum;
    ReturnedShape(s, requested);
    var selected := SelectReturnLines(s, requested).value;
    AfterWithin(s, selected);
    DocumentMovesRefund(s, selected, pick);
    var t := Returned(s, requested).value;
    var doc := t.documents[|s.documents|];
    assert t.documents == s.documents + [doc];
    SumSnoc(s.documents, doc, DocColumn(pick));
  }

  /** What an accepted return writes: the selection's quantities and one document of its slices. */
  lemma {:induction false} ReturnedShape(s: Sale, requested: seq<Request>)
    requires WellShaped(s) && Returned(s, requested).Ok?
    ensures SelectReturnLines(s, requested).Ok?
    ensures var selected, t := SelectReturnLines(s, requested).value, Returned(s, requested).value;
      && Returnable(s, selected)
      && SlicesOf(Inputs(s, selected)).Ok?
      && t.lines == s.lines && t.invoiceTotal == s.invoiceTotal && t.returned == After(s.returned, selected)
      && |t.documents| == |s.documents| + 1 && t.documents[..|s.documents|] == s.documents
      && t.documents[|s.documents|].slices == SlicesOf(Inputs(s, selected)).value
  {
    hide SelectReturnLines, Refund, Completes, Slice, AmountsTotal, Sum, After;
    SelectedIsValid(s, requested);
    var selected := SelectReturnLines(s, requested).value;
    var inputs := Inputs(s, selected);
    forall i | 0 <= i < |selected| ensures 0 < selected[i].quantity {
      assert LineError(inputs[i]).None?;
    }
  }

  /** What the documents of a sale settle to. */
  ghost predicate Settles(s: Sale)
    requires Good(s)
  {
    var refund, grand := Refund(s.lines, s.returned, LineTotal), GrandTotal(s.lines);
    && Sum(s.documents, DocGrand) == refund
    && Sum(s.documents, DocFinal) == (if refund == grand then s.invoiceTotal else Min(refund, s.invoiceTotal))
    && Sum(s.documents, DocRoundOff) == Sum(s.documents, DocFinal) - Sum(s.documents, DocGrand)
    && (forall i | 0 <= i < |s.documents| ::
          0 <= s.documents[i].finalTotal && Abs(s.documents[i].roundOff) <= Abs(s.invoiceTotal - grand))
  }

  lemma {:induction false} GoodFacts(s: Sale)
    requires Good(s)
    ensures 0 <= Refund(s.lines, s.returned, LineTotal) <= GrandTotal(s.lines)
    ensures 0 <= s.invoiceTotal && (GrandTotal(s.lines) == 0 ==> s.invoiceTotal == 0)
    ensures Completes(s.lines, s.returned) <==> Refund(s.lines, s.returned, LineTotal) == GrandTotal(s.lines)
  {
    hide LineRefund, Completes;
    RefundBounds(s.lines, s.returned);
    CompletesMeans(s.lines, s.returned);
    Invoice.RoundToRupeeFacts(GrandTotal(s.lines));
  }

  /** The document an accepted return writes, in terms of the cumulative refund before and after it. */
  lemma {:induction false} ReturnedDocument(s: Sale, requested: seq<Request>)
    requires Good(s) && Returned(s, requested).Ok?
    ensures var t := Returned(s, requested).value;
      && Good(t) && t.lines == s.lines && t.invoiceTotal == s.invoiceTotal
      && |t.documents| == |s.documents| + 1 && t.documents[..|s.documents|] == s.documents
      && var doc := t.documents[|s.documents|];
      && doc.grandTotal == Refund(t.lines, t.returned, LineTotal) - Refund(s.lines, s.returned, LineTotal) >= 0
      && doc.roundOff == doc.finalTotal - doc.grandTotal
      && var remaining := Max(s.invoiceTotal - Sum(s.documents, DocFinal), 0);
      doc.finalTotal == if Refund(t.lines, t.returned, LineTotal) == GrandTotal(t.lines) then remaining else Min(doc.grandTotal, remaining)
  {
    hide Refund, Completes, Additive, GrandTotal, Invoice.RoundToRupee, Returned, Sum, AmountsTotal, Max, Min;
    TotalIsAdditive();
    ReturnedColumns(s, requested, LineTotal);
    DocumentSettles(s, requested);
    var t := Returned(s, requested).value;
    var doc := t.documents[|s.documents|];
    SumSnoc(s.documents, doc, DocColumn(LineTotal));
    assert t.documents == s.documents + [doc];
    TotalsAreLineSums(doc.slices);
    RefundMonotone(s.lines, s.returned, t.returned);
    GoodFacts(t);
  }

  lemma {:induction false} DocumentSettles(s: Sale, requested: seq<Request>)
    requires WellShaped(s) && Returned(s, requested).Ok?
    ensures var t := Returned(s, requested).value;
      && |t.documents| == |s.documents| + 1 && |t.returned| == |t.lines|
      && var doc := t.documents[|s.documents|];
      && doc.totals == AmountsTotal(doc.slices)
      && doc.grandTotal == doc.totals.Total()
      && doc.roundOff == doc.finalTotal - doc.grandTotal
      && var remaining := Max(s.invoiceTotal - Sum(s.documents, DocFinal), 0);
      doc.finalTotal == if Completes(t.lines, t.returned) then remaining else Min(doc.grandTotal, remaining)
  {
    hide SlicesOf, AmountsTotal, Completes, SelectReturnLines, Inputs, After;
    SelectedIsValid(s, requested);
  }

  /** A document refunds nothing negative in any column. */
  lemma {:induction false} DocumentColumns(s: Sale, requested: seq<Request>)
    requires Good(s) && Returned(s, requested).Ok?
    ensures var t := Returned(s, requested).value;
      && |t.documents| == |s.documents| + 1
      && t.documents[|s.documents|].totals.NonNegative()
  {
    hide Cumulative, CumulativeAmounts, Completes, SelectReturnLines, After;
    SelectedIsValid(s, requested);
    var selected := SelectReturnLines(s, requested).value;
    var inputs := Inputs(s, selected);
    var slices := SlicesOf(inputs).value;
    forall i | 0 <= i < |slices| ensures slices[i].NonNegative() {
      SliceFacts(inputs[i].line, inputs[i].returned, inputs[i].returned + inputs[i].quantity);
    }
    SumNonNegative(slices, Discount);
    SumNonNegative(slices, Taxable);
    SumNonNegative(slices, Cgst);
    SumNonNegative(slices, Sgst);
    SumNonNegative(slices, Igst);
    SumNonNegative(slices, Cess);
  }

  lemma {:induction false} RefundMonotone(lines: seq<SaleLine>, before: seq<int>, after: seq<int>)
    requires |lines| == |before| == |after|
    requires forall i | 0 <= i < |lines| :: 0 < lines[i].quantity && lines[i].stored.NonNegative()
    requires forall i | 0 <= i < |lines| :: 0 <= before[i] <= after[i] <= lines[i].quantity
    ensures Refund(lines, before, LineTotal) <= Refund(lines, after, LineTotal)
  {
    hide CumulativeAmounts;
    if lines != [] {
      var n := |lines| - 1;
      RefundMonotone(lines[..n], before[..n], after[..n]);
      SliceFacts(lines[n], before[n], after[n]);
    }
  }

  /** One more return keeps the settlement: the step every run repeats. */
  lemma {:induction false} ReturnKeepsSettlement(s: Sale, requested: seq<Request>)
    requires Good(s) && Settles(s) && Returned(s, requested).Ok?
    ensures Good(Returned(s, requested).value) && Settles(Returned(s, requested).value)
  {
    hide Refund, GrandTotal, Invoice.RoundToRupee, Returned, Max, Min, Abs;
    ReturnedDocument(s, requested);
    var t := Returned(s, requested).value;
    var doc := t.documents[|s.documents|];
    assert t.documents == s.documents + [doc];
    GoodFacts(s);
    GoodFacts(t);
    SettlementStep(Refund(s.lines, s.returned, LineTotal), doc.grandTotal, GrandTotal(s.lines), s.invoiceTotal,
                   Sum(s.documents, DocFinal), doc.finalTotal);
    SumSnoc(s.documents, doc, DocGrand);
    SumSnoc(s.documents, doc, DocFinal);
    SumSnoc(s.documents, doc, DocRoundOff);
  }

  /** The arithmetic of one settled return. */
  lemma {:induction false} SettlementStep(refund: int, slice: int, grand: int, total: int, paid: int, final: int)
    requires 0 <= refund && 0 <= slice && refund + slice <= grand && 0 <= total
    requires paid == if refund == grand then total else Min(refund, total)
    requires final == if refund + slice == grand then Max(total - paid, 0) else Min(slice, Max(total - paid, 0))
    ensures paid + final == if refund + slice == grand then total else Min(refund + slice, total)
    ensures 0 <= final && Abs(final - slice) <= Abs(total - grand)
  {}

  /** A run of return requests; a refused one changes nothing. */
  ghost function Run(s: Sale, requests: seq<seq<Request>>): (t: Sale)
    requires WellShaped(s)
    ensures WellShaped(t)
  {
    if requests == [] then s else
    var before := Run(s, requests[..|requests| - 1]);
    match Returned(before, requests[|requests| - 1])
    case Err(_) => before
    case Ok(after) => assert Additive(LineTotal); ReturnedColumns(before, requests[|requests| - 1], LineTotal); after
  }

  /** Every run of returns of a fresh sale settles. */
  lemma {:induction false} EveryRunSettles(lines: seq<SaleLine>, invoiceTotal: int, requests: seq<seq<Request>>)
    requires Good(Fresh(lines, invoiceTotal))
    ensures var s := Run(Fresh(lines, invoiceTotal), requests);
      Good(s) && s.lines == lines && s.invoiceTotal == invoiceTotal && Settles(s)
  {
    hide Returned, Refund;
    var start := Fresh(lines, invoiceTotal);
    if requests == [] {
      NothingReturned(lines);
      GoodFacts(start);
    } else {
      EveryRunSettles(lines, invoiceTotal, requests[..|requests| - 1]);
      var before := Run(start, requests[..|requests| - 1]);
      var request := requests[|requests| - 1];
      if Returned(before, request).Ok? {
        ReturnKeepsSettlement(before, request);
        TotalIsAdditive();
        ReturnedColumns(before, request, LineTotal);
      }
    }
  }

  lemma {:induction false} NothingReturned(lines: seq<SaleLine>)
    requires forall i | 0 <= i < |lines| :: 0 < lines[i].quantity
    ensures Refund(lines, seq(|lines|, _ => 0), LineTotal) == 0
  {
    if lines != [] {
      var n := |lines| - 1;
      assert seq(|lines|, _ => 0)[..n] == seq(n, _ => 0);
      NothingReturned(lines[..n]);
      CumulativeEnds(lines[n]);
    }
  }

  /** Everything handed back: each column of the documents adds up to what the sale stored. */
  lemma {:induction false} RunColumns(lines: seq<SaleLine>, invoiceTotal: int, requests: seq<seq<Request>>, pick: Amounts -> int)
    requires WellShaped(Fresh(lines, invoiceTotal)) && Additive(pick)
    ensures var s := Run(Fresh(lines, invoiceTotal), requests);
      && s.lines == lines
      && Sum(s.documents, DocColumn(pick)) == Refund(lines, s.returned, pick)
  {
    hide Returned, Refund, Additive;
    if requests == [] {
      NothingReturnedIn(lines, pick);
    } else {
      RunColumns(lines, invoiceTotal, requests[..|requests| - 1], pick);
      var before := Run(Fresh(lines, invoiceTotal), requests[..|requests| - 1]);
      if Returned(before, requests[|requests| - 1]).Ok? {
        ReturnedColumns(before, requests[|requests| - 1], pick);
      }
    }
  }

  lemma {:induction false} NothingReturnedIn(lines: seq<SaleLine>, pick: Amounts -> int)
    requires Additive(pick)
    requires forall i | 0 <= i < |lines| :: 0 < lines[i].quantity
    ensures Refund(lines, seq(|lines|, _ => 0), pick) == 0
  {
    if lines != [] {
      var n := |lines| - 1;
      assert seq(|lines|, _ => 0)[..n] == seq(n, _ => 0);
      NothingReturnedIn(lines[..n], pick);
      CumulativeEnds(lines[n]);
      var zero := Amounts(0, 0, 0, 0, 0, 0);
      assert pick(zero.Minus(zero)) == pick(zero) - pick(zero);
    }
  }

  function StoredColumn(pick: Amounts -> int): SaleLine -> int {
    (l: SaleLine) => pick(l.stored)
  }

  /** Once every line has gone back whole, a column of the documents is that column of the sale, to the paisa. */
  lemma {:induction false} EverythingReturnedRefundsStored(lines: seq<SaleLine>, returned: seq<int>, pick: Amounts -> int)
    requires |lines| == |returned|
    requires forall i | 0 <= i < |lines| :: 0 < lines[i].quantity == returned[i]
    ensures Refund(lines, returned, pick) == Sum(lines, StoredColumn(pick))
  {
    if lines != [] {
      var n := |lines| - 1;
      EverythingReturnedRefundsStored(lines[..n], returned[..n], pick);
      CumulativeEnds(lines[n]);
    }
  }

  // ---------------------------------------------------------------------------
  // The sales the engine writes
  // ---------------------------------------------------------------------------

  function StoredLine(l: Invoice.Line): SaleLine {
    SaleLine(l.quantity, Amounts(l.discount, l.taxable, l.tax.cgst, l.tax.sgst, l.tax.igst, l.tax.cess))
  }

  function StoredLines(bill: Invoice.Bill): (lines: seq<SaleLine>)
    ensures |lines| == |bill.lines|
  {
    seq(|bill.lines|, i requires 0 <= i < |bill.lines| => StoredLine(bill.lines[i]))
  }

  /** Every bill the engine accepts can be returned under the settlement above. */
  lemma {:induction false} EveryBillIsReturnable(input: Invoice.Input)
    requires Invoice.Calculated(input).Ok?
    ensures var b := Invoice.Calculated(input).value;
      Good(Fresh(StoredLines(b), b.finalTotal)) && GrandTotal(StoredLines(b)) == b.grandTotal
  {
    hide Invoice.Calculated, Invoice.TotalsOf, Invoice.RoundToRupee;
    Invoice.CalculatedIsSound(input);
    var b := Invoice.Calculated(input).value;
    SumEqual(StoredLines(b), LineTotalStored, b.lines, Invoice.LineTotal);
    FinalTotalIsRounded(input);
  }

  lemma {:induction false} FinalTotalIsRounded(input: Invoice.Input)
    requires Invoice.Calculated(input).Ok?
    ensures var b := Invoice.Calculated(input).value; b.finalTotal == Invoice.RoundToRupee(b.grandTotal)
  {
    hide Invoice.RoundToRupee, Invoice.Prepared, Invoice.InvoiceDiscount, Invoice.TotalsOf, Invoice.Settled;
    hide Allocation.Allocated;
  }

  /** Any run of returns of any accepted bill: never more than the bill, and exactly the bill once nothing is left. */
  lemma {:induction false} ReturnsOfABill(input: Invoice.Input, requests: seq<seq<Request>>)
    requires Invoice.Calculated(input).Ok?
    ensures var b := Invoice.Calculated(input).value;
      WellShaped(Fresh(StoredLines(b), b.finalTotal))
      && var s := Run(Fresh(StoredLines(b), b.finalTotal), requests);
      && |s.lines| == |s.returned|
      && Sum(s.documents, DocFinal) <= b.finalTotal
      && (forall i | 0 <= i < |s.documents| :: Abs(s.documents[i].roundOff) <= Abs(b.roundOff))
      && (!Completes(s.lines, s.returned) ==> Sum(s.documents, DocFinal) == Min(Sum(s.documents, DocGrand), b.finalTotal))
      && (Completes(s.lines, s.returned) ==>
            Sum(s.documents, DocFinal) == b.finalTotal && Sum(s.documents, DocRoundOff) == b.roundOff)
  {
    hide Invoice.Calculated, Completes, Run, GrandTotal, Refund;
    EveryBillIsReturnable(input);
    var b := Invoice.Calculated(input).value;
    BillRoundOff(input);
    EveryRunSettles(StoredLines(b), b.finalTotal, requests);
    GoodFacts(Run(Fresh(StoredLines(b), b.finalTotal), requests));
  }

  lemma {:induction false} BillRoundOff(input: Invoice.Input)
    requires Invoice.Calculated(input).Ok?
    ensures var b := Invoice.Calculated(input).value; b.finalTotal == b.grandTotal + b.roundOff
  {
    hide Invoice.Calculated;
    Invoice.CalculatedIsSound(input);
  }
}
