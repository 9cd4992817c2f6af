/** The invoice engine: lines, discounts, taxes, totals, round-off and settlement. */
module Invoice {
  import opened Common
  import opened Rounding
  import Pricing
  import Allocation

  const MONEY_MAX: int := Pricing.MONEY_MAX
  /** 9999999.999 units, in thousandths. */
  const QUANTITY_MAX: int := 9999999999
  /** 99999999 rupees, in paise. */
  const MAX_DISCOUNT_AMOUNT: int := 9999999900

  datatype Error =
    | EmptyInvoice | DuplicateLine | InvalidQuantity | InvalidPrice | InvalidLineDiscount
    | UnknownGstRate | InvalidCess | AmountTooLarge
    | NegativeDiscount | DiscountLimit | ZeroSubtotalDiscount | DiscountExceedsSubtotal | MissingDiscountReason
    | NegativeUdhar | NegativePayment | InvalidPayment | ChangeNotAllowed | PaymentMismatch

  /** One bill line as sent: units, paise and percents, none of them rounded yet. */
  datatype Item = Item(
    productId: string, quantity: real, unitPrice: real, discountPercent: real,
    gstRate: Pricing.GstRate, cessRate: real, interState: bool)

  datatype DiscountType = Unspecified | Percentage | Other

  datatype TenderType = Cash | Upi | Card | BankTransfer

  datatype TenderInput = TenderInput(kind: TenderType, amount: real, tendered: Option<real>)

  datatype PaymentInput = PaymentInput(tenders: seq<TenderInput>, udhar: real)

  datatype Input = Input(
    items: seq<Item>,
    discountType: DiscountType, discountAmount: Option<real>, discountPercentage: Option<real>, hasReason: bool,
    payment: Option<PaymentInput>)

  /** A line before the invoice discount; `quantity` is in thousandths. */
  datatype PreLine = PreLine(item: Item, quantity: int, unitPrice: int, gst: real, cess: real, subtotal: int, itemDiscount: int) {
    function Net(): int { subtotal - itemDiscount }
  }

  datatype Line = Line(
    productId: string, quantity: int, unitPrice: int,
    subtotal: int, itemDiscount: int, share: int, discount: int, taxable: int,
    tax: Pricing.Tax, taxAmount: int, total: int)

  datatype Tender = Tender(kind: TenderType, amount: int, tendered: int, change: int)

  datatype PaymentMode = CashMode | UpiMode | CardMode | UdharMode | SplitMode

  datatype Payment = Payment(paid: int, udhar: int, change: int, mode: PaymentMode, tenders: seq<Tender>)

  datatype Totals = Totals(
    subtotal: int, discount: int, taxable: int,
    cgst: int, sgst: int, igst: int, cess: int, tax: int)

  datatype Bill = Bill(
    lines: seq<Line>, totals: Totals, itemDiscount: int, invoiceDiscount: int,
    grandTotal: int, roundOff: int, finalTotal: int, payment: Option<Payment>)

  // ---------------------------------------------------------------------------
  // Lines
  // ---------------------------------------------------------------------------

  function LineAmount(unitPrice: int, quantity: int): int {
    HalfUp(unitPrice as real * quantity as real / 1000.0)
  }

  function PrepareLine(item: Item): Result<PreLine, Error> {
    var quantity := HalfUp(item.quantity * 1000.0);
    var unitPrice := HalfUp(item.unitPrice);
    if quantity <= 0 || quantity > QUANTITY_MAX then Err(InvalidQuantity)
    else if item.unitPrice < 0.0 || unitPrice > MONEY_MAX then Err(InvalidPrice)
    else if !Pricing.IsPercent(item.discountPercent) then Err(InvalidLineDiscount)
    else if Pricing.ResolveGstRate(item.gstRate).Err? then Err(UnknownGstRate)
    else if Pricing.ResolveCessRate(item.cessRate).Err? then Err(InvalidCess)
    else
      var subtotal := LineAmount(unitPrice, quantity);
      if subtotal > MONEY_MAX then Err(AmountTooLarge)
      else Ok(PreLine(item, quantity, unitPrice, Pricing.ResolveGstRate(item.gstRate).value, item.cessRate,
                      subtotal, Pricing.Component(subtotal, item.discountPercent)))
  }

  predicate Sells(items: seq<Item>, productId: string) {
    exists i | 0 <= i < |items| :: items[i].productId == productId
  }

  /** The prepared lines, or the error of the first item that has one. */
  function Prepared(items: seq<Item>): (r: Result<seq<PreLine>, Error>)
    ensures r.Ok? ==> |r.value| == |items|
  {
    if items == [] then Ok([]) else
    var earlier, item := items[..|items| - 1], items[|items| - 1];
    match Prepared(earlier)
    case Err(e) => Err(e)
    case Ok(lines) =>
      if Sells(earlier, item.productId) then Err(DuplicateLine) else
      match PrepareLine(item)
      case Err(e) => Err(e)
      case Ok(line) => Ok(lines + [line])
  }

  lemma {:induction false} PreparedPrefix(items: seq<Item>, k: nat)
    requires k <= |items| && Prepared(items[..k]).Err?
    ensures Prepared(items) == Prepared(items[..k])
    decreases |items|
  {
    if k == |items| {
      assert items[..k] == items;
    } else {
      var earlier := items[..|items| - 1];
      assert earlier[..k] == items[..k];
      PreparedPrefix(earlier, k);
    }
  }

  method PrepareLines(items: seq<Item>) returns (r: Result<seq<PreLine>, Error>)
    ensures r == Prepared(items)
  {
    hide PrepareLine;
    var seen: set<string> := {};
    var lines: seq<PreLine> := [];
    for i := 0 to |items|
      invariant forall id :: id in seen <==> Sells(items[..i], id)
      invariant Prepared(items[..i]) == Ok(lines)
    {
      var upTo := items[..i + 1];
      assert upTo[..i] == items[..i] && upTo[i] == items[i];
      if items[i].productId in seen {
        PreparedPrefix(items, i + 1);
        return Err(DuplicateLine);
      }
      var line := PrepareLine(items[i]);
      if line.Err? {
        PreparedPrefix(items, i + 1);
        return Err(line.error);
      }
      forall id ensures id in seen + {items[i].productId} <==> Sells(upTo, id) {
        if Sells(items[..i], id) {
          var k :| 0 <= k < i && items[..i][k].productId == id;
          assert upTo[k].productId == id;
        }
        assert upTo[i].productId == items[i].productId;
      }
      seen := seen + {items[i].productId};
      lines := lines + [line.value];
    }
    assert items[..|items|] == items;
    return Ok(lines);
  }

  /** A prepared line's own discount never exceeds it. */
  lemma {:induction false} PreparedLineBounds(item: Item)
    requires PrepareLine(item).Ok?
    ensures var l := PrepareLine(item).value;
      && 0 < l.quantity <= QUANTITY_MAX && 0 <= l.unitPrice <= MONEY_MAX
      && 0 <= l.subtotal <= MONEY_MAX && 0 <= l.itemDiscount <= l.subtotal
      && Pricing.IsPercent(l.gst) && Pricing.IsPercent(l.cess)
  {
    hide Pricing.Component, LineAmount;
    var l := PrepareLine(item).value;
    HalfUpMonotone(0.0, item.unitPrice);
    LineAmountNonNegative(l.unitPrice, l.quantity);
    PercentOfWhole(l.subtotal, item.discountPercent);
  }

  lemma {:induction false} LineAmountNonNegative(unitPrice: nat, quantity: nat)
    ensures 0 <= LineAmount(unitPrice, quantity)
  {
    MulLessEq(0.0, unitPrice as real, quantity as real);
  }

  lemma {:induction false} PercentOfWhole(amount: nat, percent: real)
    requires Pricing.IsPercent(percent)
    ensures 0 <= Pricing.Component(amount, percent) <= amount
  {
    MulLessEq(0.0, percent, amount as real);
    MulLessEq(percent, 100.0, amount as real);
    HalfUpMonotone(Pricing.Share(amount, percent), amount as real);
    HalfUpOfInt(amount);
  }

  ghost predicate GoodLines(pre: seq<PreLine>) {
    forall i | 0 <= i < |pre| ::
      && 0 < pre[i].quantity
      && 0 <= pre[i].itemDiscount <= pre[i].subtotal <= MONEY_MAX
      && Pricing.IsPercent(pre[i].gst) && Pricing.IsPercent(pre[i].cess)
  }

  lemma {:induction false} PreparedAreGood(items: seq<Item>)
    requires Prepared(items).Ok?
    ensures GoodLines(Prepared(items).value)
  {
    if items != [] {
      PreparedAreGood(items[..|items| - 1]);
      PreparedLineBounds(items[|items| - 1]);
    }
  }

  // ---------------------------------------------------------------------------
  // The invoice discount
  // ---------------------------------------------------------------------------

  function RequestedDiscount(input: Input, net: int): Result<int, Error> {
    var percent := if input.discountPercentage.Some? then input.discountPercentage.value else 0.0;
    if input.discountType.Percentage? then
      if percent < 0.0 then Err(NegativeDiscount)
      else if percent > 100.0 then Err(DiscountLimit)
      else Ok(Pricing.Component(net, percent))
    else if input.discountAmount.Some? then
      if input.discountAmount.value < 0.0 then Err(NegativeDiscount) else Ok(HalfUp(input.discountAmount.value))
    else if input.discountPercentage.Some? && input.discountType.Unspecified? then
      if percent < 0.0 then Err(NegativeDiscount) else Ok(Pricing.Component(net, percent))
    else Ok(0)
  }

  function InvoiceDiscount(input: Input, net: int): (r: Result<int, Error>)
    ensures r.Ok? && 0 <= net ==> r.value <= net
  {
    match RequestedDiscount(input, net)
    case Err(e) => Err(e)
    case Ok(d) =>
      if d < 0 then Err(NegativeDiscount)
      else if d > MAX_DISCOUNT_AMOUNT then Err(DiscountLimit)
      else if d == 0 then Ok(0)
      else if net == 0 then Err(ZeroSubtotalDiscount)
      else if d > net then Err(DiscountExceedsSubtotal)
      else if !input.hasReason then Err(MissingDiscountReason)
      else Ok(d)
  }

  // ---------------------------------------------------------------------------
  // Settlement
  // ---------------------------------------------------------------------------

  function SettleTender(t: TenderInput): Result<Tender, Error> {
    var amount := HalfUp(t.amount);
    var tendered := if t.tendered.Some? then HalfUp(t.tendered.value) else amount;
    if t.amount < 0.0 then Err(NegativePayment)
    else if amount > MONEY_MAX then Err(InvalidPayment)
    else if tendered < amount then Err(InvalidPayment)
    else if tendered > amount && !t.kind.Cash? then Err(ChangeNotAllowed)
    else Ok(Tender(t.kind, amount, tendered, tendered - amount))
  }

  function SettleTenders(ts: seq<TenderInput>): (r: Result<seq<Tender>, Error>)
    ensures r.Ok? ==> |r.value| == |ts|
  {
    if ts == [] then Ok([]) else
    match SettleTenders(ts[..|ts| - 1])
    case Err(e) => Err(e)
    case Ok(done) =>
      match SettleTender(ts[|ts| - 1])
      case Err(e) => Err(e)
      case Ok(t) => Ok(done + [t])
  }

  function TenderAmount(t: Tender): int { t.amount }

  function TenderChange(t: Tender): int { t.change }

  predicate UsesTender(tenders: seq<Tender>, kind: TenderType) {
    exists i | 0 <= i < |tenders| :: tenders[i].amount > 0 && tenders[i].kind == kind
  }

  /** The single mode of a bill: credit only, one kind of tender, or a split. Bank transfers print as card. */
  function ModeOf(tenders: seq<Tender>, udhar: int): PaymentMode {
    var cash, upi, card, bank :=
      UsesTender(tenders, Cash), UsesTender(tenders, Upi), UsesTender(tenders, Card), UsesTender(tenders, BankTransfer);
    if !cash && !upi && !card && !bank then (if udhar > 0 then UdharMode else CashMode)
    else if udhar > 0 then SplitMode
    else if cash && !upi && !card && !bank then CashMode
    else if upi && !cash && !card && !bank then UpiMode
    else if (card || bank) && !(card && bank) && !cash && !upi then CardMode
    else SplitMode
  }

  function Settled(payment: PaymentInput, finalTotal: int): Result<Payment, Error> {
    var udhar := HalfUp(payment.udhar);
    if payment.udhar < 0.0 then Err(NegativeUdhar) else
    match SettleTenders(payment.tenders)
    case Err(e) => Err(e)
    case Ok(tenders) =>
      var paid := Sum(tenders, TenderAmount);
      if paid + udhar != finalTotal then Err(PaymentMismatch)
      else if udhar > finalTotal then Err(NegativePayment)
      else Ok(Payment(paid, udhar, Sum(tenders, TenderChange), ModeOf(tenders, udhar), tenders))
  }

  lemma {:induction false} SettleTendersPrefix(ts: seq<TenderInput>, k: nat)
    requires k <= |ts| && SettleTenders(ts[..k]).Err?
    ensures SettleTenders(ts) == SettleTenders(ts[..k])
    decreases |ts|
  {
    if k == |ts| {
      assert ts[..k] == ts;
    } else {
      assert ts[..|ts| - 1][..k] == ts[..k];
      SettleTendersPrefix(ts[..|ts| - 1], k);
    }
  }

  method SettlePayment(payment: PaymentInput, finalTotal: int) returns (r: Result<Payment, Error>)
    ensures r == Settled(payment, finalTotal)
  {
    hide SettleTender, ModeOf, HalfUp;
    if payment.udhar < 0.0 {
      return Err(NegativeUdhar);
    }
    var udhar := HalfUp(payment.udhar);
    var tenders: seq<Tender>, paid, change := [], 0, 0;
    for i := 0 to |payment.tenders|
      invariant SettleTenders(payment.tenders[..i]) == Ok(tenders)
      invariant paid == Sum(tenders, TenderAmount) && change == Sum(tenders, TenderChange)
    {
      var upTo := payment.tenders[..i + 1];
      assert upTo[..i] == payment.tenders[..i] && upTo[i] == payment.tenders[i];
      var t := SettleTender(payment.tenders[i]);
      if t.Err? {
        SettleTendersPrefix(payment.tenders, i + 1);
        return Err(t.error);
      }
      SumSnoc(tenders, t.value, TenderAmount);
      SumSnoc(tenders, t.value, TenderChange);
      tenders, paid, change := tenders + [t.value], paid + t.value.amount, change + t.value.change;
    }
    assert payment.tenders[..|payment.tenders|] == payment.tenders;
    if paid + udhar != finalTotal {
      return Err(PaymentMismatch);
    }
    if udhar > finalTotal {
      return Err(NegativePayment);
    }
    return Ok(Payment(paid, udhar, change, ModeOf(tenders, udhar), tenders));
  }

  ghost predicate GoodTenders(tenders: seq<Tender>) {
    forall i | 0 <= i < |tenders| ::
      && 0 <= tenders[i].amount <= MONEY_MAX
      && tenders[i].tendered == tenders[i].amount + tenders[i].change
      && 0 <= tenders[i].change
      && (tenders[i].change > 0 ==> tenders[i].kind.Cash?)
  }

  lemma {:induction false} SettledTendersAreGood(ts: seq<TenderInput>)
    requires SettleTenders(ts).Ok?
    ensures GoodTenders(SettleTenders(ts).value)
  {
    if ts != [] {
      SettledTendersAreGood(ts[..|ts| - 1]);
    }
  }

  // ---------------------------------------------------------------------------
  // The bill
  // ---------------------------------------------------------------------------

  function PreSubtotal(l: PreLine): int { l.subtotal }
  function PreItemDiscount(l: PreLine): int { l.itemDiscount }
  function PreNet(l: PreLine): int { l.Net() }

  function LineSubtotal(l: Line): int { l.subtotal }
  function LineDiscount(l: Line): int { l.discount }
  function LineItemDiscount(l: Line): int { l.itemDiscount }
  function LineShare(l: Line): int { l.share }
  function LineTaxable(l: Line): int { l.taxable }
  function LineCgst(l: Line): int { l.tax.cgst }
  function LineSgst(l: Line): int { l.tax.sgst }
  function LineIgst(l: Line): int { l.tax.igst }
  function LineCess(l: Line): int { l.tax.cess }
  function LineTax(l: Line): int { l.taxAmount }
  function LineTotal(l: Line): int { l.total }
  function LineStateGst(l: Line): int { l.tax.cgst + l.tax.sgst }
  function LineGst(l: Line): int { l.tax.cgst + l.tax.sgst + l.tax.igst }

  function Nets(pre: seq<PreLine>): (nets: seq<int>)
    ensures |nets| == |pre|
  {
    seq(|pre|, i requires 0 <= i < |pre| => pre[i].Net())
  }

  function BillLine(l: PreLine, share: int): Line {
    var discount := l.itemDiscount + share;
    var taxable := l.subtotal - discount;
    var tax := Pricing.CalculateTax(taxable, l.gst, l.cess, l.item.interState);
    Line(l.item.productId, l.quantity, l.unitPrice, l.subtotal, l.itemDiscount, share, discount, taxable,
         tax, tax.Total(), taxable + tax.Total())
  }

  function BillLines(pre: seq<PreLine>, shares: seq<int>): (lines: seq<Line>)
    requires |pre| == |shares|
    ensures |lines| == |pre|
  {
    seq(|pre|, i requires 0 <= i < |pre| => BillLine(pre[i], shares[i]))
  }

  function TotalsOf(lines: seq<Line>): Totals {
    Totals(Sum(lines, LineSubtotal), Sum(lines, LineDiscount), Sum(lines, LineTaxable),
           Sum(lines, LineCgst), Sum(lines, LineSgst), Sum(lines, LineIgst), Sum(lines, LineCess), Sum(lines, LineTax))
  }

  /** The nearest whole rupee, ties up. */
  function RoundToRupee(paise: int): int {
    HalfUp(paise as real / 100.0) * 100
  }

  function Assembled(pre: seq<PreLine>, discount: int, payment: Option<PaymentInput>): Result<Bill, Error> {
    var lines := BillLines(pre, Allocation.Allocated(discount, Nets(pre)));
    var totals := TotalsOf(lines);
    var grand := totals.taxable + totals.tax;
    var final := RoundToRupee(grand);
    if totals.subtotal > MONEY_MAX || final > MONEY_MAX then Err(AmountTooLarge) else
    var bill := Bill(lines, totals, Sum(pre, PreItemDiscount), discount, grand, final - grand, final, None);
    match payment
    case None => Ok(bill)
    case Some(p) =>
      match Settled(p, final)
      case Err(e) => Err(e)
      case Ok(settled) => Ok(bill.(payment := Some(settled)))
  }

  function Calculated(input: Input): Result<Bill, Error> {
    if input.items == [] then Err(EmptyInvoice) else
    match Prepared(input.items)
    case Err(e) => Err(e)
    case Ok(pre) =>
      match InvoiceDiscount(input, Sum(pre, PreSubtotal) - Sum(pre, PreItemDiscount))
      case Err(e) => Err(e)
      case Ok(discount) => Assembled(pre, discount, input.payment)
  }

  method AddUp(pre: seq<PreLine>, shares: seq<int>) returns (lines: seq<Line>, totals: Totals)
    requires |pre| == |shares|
    ensures lines == BillLines(pre, shares)
    ensures totals == TotalsOf(lines)
  {
    hide BillLine;
    lines := [];
    var subtotal, discount, taxable, cgst, sgst, igst, cess, tax := 0, 0, 0, 0, 0, 0, 0, 0;
    for i := 0 to |pre|
      invariant lines == BillLines(pre, shares)[..i]
      invariant Totals(subtotal, discount, taxable, cgst, sgst, igst, cess, tax) == TotalsOf(lines)
    {
      var line := BillLine(pre[i], shares[i]);
      TotalsSnoc(lines, line);
      lines := lines + [line];
      subtotal, discount, taxable := subtotal + line.subtotal, discount + line.discount, taxable + line.taxable;
      cgst, sgst, igst, cess := cgst + line.tax.cgst, sgst + line.tax.sgst, igst + line.tax.igst, cess + line.tax.cess;
      tax := tax + line.taxAmount;
    }
    totals := Totals(subtotal, discount, taxable, cgst, sgst, igst, cess, tax);
  }

  lemma {:induction false} TotalsSnoc(lines: seq<Line>, line: Line)
    ensures var t := TotalsOf(lines);
      TotalsOf(lines + [line]) == Totals(
        t.subtotal + line.subtotal, t.discount + line.discount, t.taxable + line.taxable,
        t.cgst + line.tax.cgst, t.sgst + line.tax.sgst, t.igst + line.tax.igst, t.cess + line.tax.cess, t.tax + line.taxAmount)
  {
    SumSnoc(lines, line, LineSubtotal);
    SumSnoc(lines, line, LineDiscount);
    SumSnoc(lines, line, LineTaxable);
    SumSnoc(lines, line, LineCgst);
    SumSnoc(lines, line, LineSgst);
    SumSnoc(lines, line, LineIgst);
    SumSnoc(lines, line, LineCess);
    SumSnoc(lines, line, LineTax);
  }

  method Calculate(input: Input) returns (r: Result<Bill, Error>)
    ensures r == Calculated(input)
  {
    hide Prepared, InvoiceDiscount, TotalsOf, RoundToRupee, Settled;
    if input.items == [] {
      return Err(EmptyInvoice);
    }
    var prepared := PrepareLines(input.items);
    if prepared.Err? {
      return Err(prepared.error);
    }
    var pre := prepared.value;
    var subtotal, itemDiscount := 0, 0;
    for i := 0 to |pre|
      invariant subtotal == Sum(pre[..i], PreSubtotal)
      invariant itemDiscount == Sum(pre[..i], PreItemDiscount)
    {
      SumTake(pre, i, PreSubtotal);
      SumTake(pre, i, PreItemDiscount);
      subtotal, itemDiscount := subtotal + pre[i].subtotal, itemDiscount + pre[i].itemDiscount;
    }
    assert pre[..|pre|] == pre;
    var discount := InvoiceDiscount(input, subtotal - itemDiscount);
    if discount.Err? {
      return Err(discount.error);
    }
    var shares := Allocation.AllocateProportionally(discount.value, Nets(pre));
    var lines, totals := AddUp(pre, shares);
    var grandTotal := totals.taxable + totals.tax;
    var finalTotal := RoundToRupee(grandTotal);
    if totals.subtotal > MONEY_MAX || finalTotal > MONEY_MAX {
      return Err(AmountTooLarge);
    }
    var bill := Bill(lines, totals, itemDiscount, discount.value, grandTotal, finalTotal - grandTotal, finalTotal, None);
    if input.payment.Some? {
      var settled := SettlePayment(input.payment.value, finalTotal);
      if settled.Err? {
        return Err(settled.error);
      }
      bill := bill.(payment := Some(settled.value));
    }
    return Ok(bill);
  }

  // ---------------------------------------------------------------------------
  // What every accepted bill satisfies
  // ---------------------------------------------------------------------------

  ghost predicate LineAddsUp(l: Line) {
    && 0 < l.quantity
    && l.discount == l.itemDiscount + l.share
    && l.taxable == l.subtotal - l.discount
    && l.taxAmount == l.tax.cgst + l.tax.sgst + l.tax.igst + l.tax.cess
    && l.total == l.taxable + l.taxAmount
    && 0 <= l.itemDiscount && 0 <= l.share && 0 <= l.taxable
    && 0 <= l.tax.cgst && 0 <= l.tax.sgst && 0 <= l.tax.igst && 0 <= l.tax.cess
  }

  ghost predicate Sound(b: Bill) {
    && (forall i | 0 <= i < |b.lines| :: LineAddsUp(b.lines[i]))
    && b.totals == TotalsOf(b.lines)
    && Sum(b.lines, LineShare) == b.invoiceDiscount
    && b.totals.discount == b.itemDiscount + b.invoiceDiscount
    && b.totals.taxable == b.totals.subtotal - b.totals.discount
    && b.totals.tax == b.totals.cgst + b.totals.sgst + b.totals.igst + b.totals.cess
    && b.grandTotal == b.totals.taxable + b.totals.tax == Sum(b.lines, LineTotal)
    && b.finalTotal == b.grandTotal + b.roundOff
    && b.finalTotal % 100 == 0 && -50 < b.roundOff <= 50
    && 0 <= b.totals.taxable && 0 <= b.totals.tax && 0 <= b.invoiceDiscount
    && 0 <= b.finalTotal <= MONEY_MAX && b.totals.subtotal <= MONEY_MAX
  }

  ghost predicate SettledFor(b: Bill) {
    b.payment.Some? ==>
      var p := b.payment.value;
      && GoodTenders(p.tenders)
      && p.paid == Sum(p.tenders, TenderAmount) && 0 <= p.paid && 0 <= p.udhar
      && p.change == Sum(p.tenders, TenderChange)
      && p.paid + p.udhar == b.finalTotal
      && p.mode == ModeOf(p.tenders, p.udhar)
  }

  lemma {:induction false} RoundToRupeeFacts(paise: nat)
    ensures var r := RoundToRupee(paise);
      r % 100 == 0 && 0 <= r && -50 < r - paise <= 50
  {
    HalfUpWithinHalf(paise as real / 100.0);
  }

  lemma {:induction false} BillLineAddsUp(l: PreLine, share: int)
    requires 0 <= share <= l.Net() && 0 <= l.itemDiscount && 0 < l.quantity
    requires Pricing.IsPercent(l.gst) && Pricing.IsPercent(l.cess)
    ensures LineAddsUp(BillLine(l, share))
  {
    hide Pricing.CalculateTax;
    Pricing.TaxNonNegative(l.subtotal - l.itemDiscount - share, l.gst, l.cess, l.item.interState);
  }

  lemma {:induction false} LinesAddUp(lines: seq<Line>)
    requires forall i | 0 <= i < |lines| :: LineAddsUp(lines[i])
    ensures var t := TotalsOf(lines);
      && t.discount == Sum(lines, LineItemDiscount) + Sum(lines, LineShare)
      && t.subtotal == t.taxable + t.discount
      && t.tax == t.cgst + t.sgst + t.igst + t.cess
      && Sum(lines, LineTotal) == t.taxable + t.tax
      && 0 <= t.taxable && 0 <= t.tax
  {
    SumPlus(lines, LineItemDiscount, LineShare, LineDiscount);
    SumPlus(lines, LineTaxable, LineDiscount, LineSubtotal);
    SumPlus(lines, LineTaxable, LineTax, LineTotal);
    SumPlus(lines, LineCgst, LineSgst, LineStateGst);
    SumPlus(lines, LineStateGst, LineIgst, LineGst);
    SumPlus(lines, LineGst, LineCess, LineTax);
    SumNonNegative(lines, LineTaxable);
    SumNonNegative(lines, LineTax);
  }

  /** The shares of a discount that the lines can carry add up to it, line by line within the net amount. */
  lemma {:induction false} SharesFit(pre: seq<PreLine>, discount: int)
    requires GoodLines(pre) && 0 <= discount <= Sum(pre, PreNet)
    ensures var shares := Allocation.Allocated(discount, Nets(pre));
      && Sum(shares, Id) == discount
      && forall i | 0 <= i < |pre| :: 0 <= shares[i] <= pre[i].Net()
  {
    hide Allocation.Allocated;
    var nets := Nets(pre);
    SumEqual(nets, Id, pre, PreNet);
    Allocation.AllocationIsExact(discount, nets);
  }

  lemma {:induction false} AssembledLinesAddUp(pre: seq<PreLine>, discount: int)
    requires GoodLines(pre) && 0 <= discount <= Sum(pre, PreNet)
    ensures var lines := BillLines(pre, Allocation.Allocated(discount, Nets(pre)));
      && (forall i | 0 <= i < |lines| :: LineAddsUp(lines[i]))
      && Sum(lines, LineShare) == discount
      && Sum(lines, LineItemDiscount) == Sum(pre, PreItemDiscount)
  {
    hide Allocation.Allocated, Pricing.CalculateTax, LineAddsUp;
    SharesFit(pre, discount);
    var shares := Allocation.Allocated(discount, Nets(pre));
    var lines := BillLines(pre, shares);
    forall i | 0 <= i < |lines| ensures LineAddsUp(lines[i]) {
      BillLineAddsUp(pre[i], shares[i]);
    }
    SumEqual(lines, LineShare, shares, Id);
    SumEqual(lines, LineItemDiscount, pre, PreItemDiscount);
  }

  /** A settled payment covers the total exactly, from valid tenders. */
  lemma {:induction false} SettlementIsExact(payment: PaymentInput, finalTotal: int)
    requires Settled(payment, finalTotal).Ok?
    ensures var p := Settled(payment, finalTotal).value;
      && GoodTenders(p.tenders)
      && p.paid == Sum(p.tenders, TenderAmount) && 0 <= p.paid && 0 <= p.udhar
      && p.change == Sum(p.tenders, TenderChange)
      && p.paid + p.udhar == finalTotal
      && p.mode == ModeOf(p.tenders, p.udhar)
  {
    hide ModeOf, HalfUp;
    SettledTendersAreGood(payment.tenders);
    var p := Settled(payment, finalTotal).value;
    SumNonNegative(p.tenders, TenderAmount);
    HalfUpOfInt(0);
    HalfUpMonotone(0.0, payment.udhar);
  }

  /** The discount, the totals, the round-off and the settlement of every accepted bill agree. */
  lemma {:induction false} CalculatedIsSound(input: Input)
    requires Calculated(input).Ok?
    ensures Sound(Calculated(input).value) && SettledFor(Calculated(input).value)
  {
    hide Prepared, InvoiceDiscount, RoundToRupee, Settled, ModeOf, LineAddsUp, BillLines, Allocation.Allocated;
    var pre := Prepared(input.items).value;
    PreparedAreGood(input.items);
    SumPlus(pre, PreNet, PreItemDiscount, PreSubtotal);
    SumNonNegative(pre, PreNet);
    var net := Sum(pre, PreSubtotal) - Sum(pre, PreItemDiscount);
    var discount := InvoiceDiscount(input, net).value;
    DiscountIsNonNegative(input, net);
    AssembledLinesAddUp(pre, discount);
    var b := Calculated(input).value;
    LinesAddUp(b.lines);
    RoundToRupeeFacts(b.grandTotal);
    if input.payment.Some? {
      SettlementIsExact(input.payment.value, b.finalTotal);
    }
  }

  lemma {:induction false} DiscountIsNonNegative(input: Input, net: int)
    requires InvoiceDiscount(input, net).Ok?
    ensures 0 <= InvoiceDiscount(input, net).value
  {}

  lemma {:induction false} PreparedAt(items: seq<Item>, i: nat)
    requires Prepared(items).Ok? && i < |items|
    ensures PrepareLine(items[i]).Ok? && Prepared(items).value[i] == PrepareLine(items[i]).value
    decreases |items|
  {
    hide PrepareLine;
    var last := |items| - 1;
    if i < last {
      PreparedAt(items[..last], i);
    }
  }

  ghost predicate WithinHalf(rounded: int, exact: real) { -0.5 <= rounded as real - exact <= 0.5 }

  /** A unit price times thousandths of a unit, unrounded. */
  function ExactAmount(unitPrice: int, quantity: int): real { unitPrice as real * quantity as real / 1000.0 }

  lemma {:induction false} LineAmountNear(unitPrice: int, quantity: int)
    ensures WithinHalf(LineAmount(unitPrice, quantity), ExactAmount(unitPrice, quantity))
  {
    HalfUpWithinHalf(unitPrice as real * quantity as real / 1000.0);
  }

  /** Every amount of a prepared line is within half its last unit of what was asked for. */
  lemma {:induction false} PreparedNearExact(item: Item)
    requires PrepareLine(item).Ok?
    ensures var l := PrepareLine(item).value;
      && l.item == item && Pricing.ResolveGstRate(item.gstRate) == Ok(l.gst) && l.cess == item.cessRate
      && WithinHalf(l.quantity, item.quantity * 1000.0)
      && WithinHalf(l.unitPrice, item.unitPrice)
      && WithinHalf(l.subtotal, ExactAmount(l.unitPrice, l.quantity))
      && WithinHalf(l.itemDiscount, Pricing.Share(l.subtotal, item.discountPercent))
  {
    hide HalfUp, LineAmount, ExactAmount, Pricing.Share, Pricing.ResolveGstRate, Pricing.IsPercent;
    var l := PrepareLine(item).value;
    LineAmountNear(l.unitPrice, l.quantity);
    HalfUpWithinHalf(item.quantity * 1000.0);
    HalfUpWithinHalf(item.unitPrice);
    HalfUpWithinHalf(Pricing.Share(l.subtotal, item.discountPercent));
  }

  /** The taxes of a billed line: the split its place of supply asks for, each component within half a paisa of its share. */
  ghost predicate TaxedRight(l: Line, item: Item, gst: real) {
    && WithinHalf(l.tax.cess, Pricing.Share(l.taxable, item.cessRate))
    && (item.interState ==> l.tax.cgst == 0 && l.tax.sgst == 0 && WithinHalf(l.tax.igst, Pricing.Share(l.taxable, gst)))
    && (!item.interState ==> l.tax.igst == 0 && l.tax.cgst == l.tax.sgst && WithinHalf(l.tax.cgst, Pricing.Share(l.taxable, gst) / 2.0))
  }

  lemma {:induction false} BilledTax(l: PreLine, share: int)
    requires Pricing.IsPercent(l.gst) && Pricing.IsPercent(l.cess) && 0 <= share <= l.Net() && 0 <= l.itemDiscount
    requires l.cess == l.item.cessRate
    ensures TaxedRight(BillLine(l, share), l.item, l.gst)
  {
    hide Pricing.Share, Pricing.Component;
    var taxable := l.subtotal - l.itemDiscount - share;
    Pricing.ShareFacts(taxable, l.gst);
    Pricing.ComponentNearShare(taxable, l.gst);
    Pricing.ComponentNearShare(taxable, l.gst / 2.0);
    Pricing.ComponentNearShare(taxable, l.cess);
  }

  /**
   * Line by line, an accepted bill is what its items ask for: quantity, price,
   * amount, line discount and each tax within half a unit of exact, the tax
   * split by place of supply.
   */
  lemma {:induction false} LinesNearExact(input: Input, i: nat)
    requires Calculated(input).Ok? && i < |input.items|
    ensures var b := Calculated(input).value;
      |b.lines| == |input.items|
      && var item, l := input.items[i], b.lines[i];
      && l.productId == item.productId
      && WithinHalf(l.quantity, item.quantity * 1000.0) && WithinHalf(l.unitPrice, item.unitPrice)
      && WithinHalf(l.subtotal, ExactAmount(l.unitPrice, l.quantity))
      && WithinHalf(l.itemDiscount, Pricing.Share(l.subtotal, item.discountPercent))
      && Pricing.ResolveGstRate(item.gstRate).Ok? && TaxedRight(l, item, Pricing.ResolveGstRate(item.gstRate).value)
  {
    hide Prepared, InvoiceDiscount, RoundToRupee, Settled, TaxedRight, WithinHalf, Pricing.Share;
    hide Pricing.ResolveGstRate, PrepareLine, TotalsOf;
    hide Allocation.Allocated, Pricing.CalculateTax, GoodLines, Calculated, ExactAmount;
    BilledLine(input, i);
    var pre := Prepared(input.items).value;
    PreparedAreGood(input.items);
    PreparedAt(input.items, i);
    PreparedNearExact(input.items[i]);
    PreparedLineBounds(input.items[i]);
    SumOfNets(pre);
    var net := Sum(pre, PreSubtotal) - Sum(pre, PreItemDiscount);
    var discount := InvoiceDiscount(input, net).value;
    DiscountIsNonNegative(input, net);
    SharesFit(pre, discount);
    var share := Allocation.Allocated(discount, Nets(pre))[i];
    BilledTax(pre[i], share);
    assert Calculated(input).value.lines[i] == BillLine(pre[i], share);
    assert pre[i].item == input.items[i];
  }

  lemma {:induction false} BilledLine(input: Input, i: nat)
    requires Calculated(input).Ok? && i < |input.items|
    ensures Prepared(input.items).Ok?
    ensures var pre := Prepared(input.items).value;
      var discount := InvoiceDiscount(input, Sum(pre, PreSubtotal) - Sum(pre, PreItemDiscount));
      && discount.Ok? && |Calculated(input).value.lines| == |input.items|
      && Calculated(input).value.lines[i] == BillLine(pre[i], Allocation.Allocated(discount.value, Nets(pre))[i])
  {
    hide Prepared, InvoiceDiscount, RoundToRupee, Settled, BillLine, TotalsOf, Allocation.Allocated;
  }

  lemma {:induction false} SumOfNets(pre: seq<PreLine>)
    requires GoodLines(pre)
    ensures 0 <= Sum(pre, PreNet) == Sum(pre, PreSubtotal) - Sum(pre, PreItemDiscount)
  {
    SumPlus(pre, PreNet, PreItemDiscount, PreSubtotal);
    SumNonNegative(pre, PreNet);
  }
}
