/** The double-entry posting of a sale and of its reversal. */
module SalePosting {
  import opened Common
  import opened Rounding
  import Allocation
  import Invoice
  import Returns
  import opened Ledger

  /** Tendered amounts of the given kinds. */
  function AmountBy(kinds: set<Invoice.TenderType>): Invoice.Tender -> int {
    (t: Invoice.Tender) => if t.kind in kinds then t.amount else 0
  }

  ghost predicate NoneNegative(tenders: seq<Invoice.Tender>) {
    forall i | 0 <= i < |tenders| :: 0 <= tenders[i].amount
  }

  datatype Buckets = Buckets(cash: int, upi: int, card: int, bank: int)

  function TenderBuckets(tenders: seq<Invoice.Tender>): Buckets {
    Buckets(Sum(tenders, AmountBy({Invoice.Cash})), Sum(tenders, AmountBy({Invoice.Upi})),
            Sum(tenders, AmountBy({Invoice.Card, Invoice.BankTransfer})),
            Sum(tenders, AmountBy({Invoice.Upi, Invoice.Card, Invoice.BankTransfer})))
  }

  /** Revenue carries the round-off; a document that rounds to nothing moves the shortfall onto the tax. */
  function SplitRevenue(taxable: int, tax: int, roundOff: int): (int, int) {
    var revenue := taxable + roundOff;
    if revenue < 0 then (0, Max(tax + revenue, 0)) else (revenue, tax)
  }

  /** Both parts are non-negative and together are exactly what was settled, whenever that is not negative. */
  lemma {:induction false} SplitRevenueIsExact(taxable: nat, tax: nat, roundOff: int)
    ensures var (revenue, gst) := SplitRevenue(taxable, tax, roundOff);
      && 0 <= revenue && 0 <= gst
      && (revenue + gst == taxable + tax + roundOff <==> 0 <= taxable + tax + roundOff)
  {}

  function CostEntries(cost: int, stockComesBack: bool): seq<Entry> {
    if cost <= 0 then []
    else if stockComesBack then [Entry(Inventory, Debit, cost), Entry(CostOfGoods, Credit, cost)]
    else [Entry(CostOfGoods, Debit, cost), Entry(Inventory, Credit, cost)]
  }

  function SaleLedgerEntries(
      tenders: seq<Invoice.Tender>, udhar: int, taxable: int, tax: int, roundOff: int, cost: int): seq<Entry> {
    var buckets := TenderBuckets(tenders);
    var (revenue, gst) := SplitRevenue(taxable, tax, roundOff);
    [Entry(Cash, Debit, buckets.cash), Entry(Bank, Debit, buckets.bank), Entry(AccountsReceivable, Debit, udhar),
     Entry(SalesRevenue, Credit, revenue), Entry(GstPayable, Credit, gst)]
    + CostEntries(cost, false)
  }

  function ReversalLedgerEntries(
      tenders: seq<Invoice.Tender>, udhar: int, taxable: int, tax: int, roundOff: int, cost: int): seq<Entry> {
    var buckets := TenderBuckets(tenders);
    var (revenue, gst) := SplitRevenue(taxable, tax, roundOff);
    [Entry(SalesRevenue, Debit, revenue), Entry(GstPayable, Debit, gst),
     Entry(Cash, Credit, buckets.cash), Entry(Bank, Credit, buckets.bank), Entry(AccountsReceivable, Credit, udhar)]
    + CostEntries(cost, true)
  }

  lemma {:induction false} FiveEntries(a: Entry, b: Entry, c: Entry, d: Entry, e: Entry, f: Entry -> int)
    ensures Sum([a, b, c, d, e], f) == f(a) + f(b) + f(c) + f(d) + f(e)
  {
    SumOfOne(a, f);
    SumSnoc([a], b, f);
    assert [a] + [b] == [a, b];
    SumSnoc([a, b], c, f);
    assert [a, b] + [c] == [a, b, c];
    SumSnoc([a, b, c], d, f);
    assert [a, b, c] + [d] == [a, b, c, d];
    SumSnoc([a, b, c, d], e, f);
    assert [a, b, c, d] + [e] == [a, b, c, d, e];
  }

  lemma {:induction false} CostEntriesBalance(cost: int, stockComesBack: bool)
    ensures NonNegative(CostEntries(cost, stockComesBack))
    ensures Sum(CostEntries(cost, stockComesBack), DebitAmount) == Sum(CostEntries(cost, stockComesBack), CreditAmount) == Max(cost, 0)
  {
    var es := CostEntries(cost, stockComesBack);
    if cost > 0 {
      TwoEntries(es[0], es[1], DebitAmount);
      TwoEntries(es[0], es[1], CreditAmount);
    }
  }

  /** Cash and bank together are every tender. */
  lemma {:induction false} BucketsCoverTenders(tenders: seq<Invoice.Tender>)
    requires NoneNegative(tenders)
    ensures var k := TenderBuckets(tenders);
      && 0 <= k.cash && 0 <= k.bank && k.bank == k.upi + k.card
      && k.cash + k.bank == Sum(tenders, Invoice.TenderAmount)
  {
    if tenders != [] {
      var n := |tenders| - 1;
      BucketsCoverTenders(tenders[..n]);
      EveryKindHasABucket(tenders[n]);
    }
  }

  lemma {:induction false} EveryKindHasABucket(t: Invoice.Tender)
    ensures AmountBy({Invoice.Cash})(t) + AmountBy({Invoice.Upi, Invoice.Card, Invoice.BankTransfer})(t) == t.amount
    ensures AmountBy({Invoice.Upi})(t) + AmountBy({Invoice.Card, Invoice.BankTransfer})(t)
         == AmountBy({Invoice.Upi, Invoice.Card, Invoice.BankTransfer})(t)
  {
    match t.kind
    case Cash =>
    case Upi =>
    case Card =>
    case BankTransfer =>
  }

  /** A document whose settlement covers what it settles to posts balanced, non-negative entries, as a sale and as a reversal. */
  lemma {:induction false} SettledDocumentBalances(
      tenders: seq<Invoice.Tender>, udhar: nat, taxable: nat, tax: nat, roundOff: int, cost: int)
    requires NoneNegative(tenders)
    requires Sum(tenders, Invoice.TenderAmount) + udhar == taxable + tax + roundOff
    ensures var es := SaleLedgerEntries(tenders, udhar, taxable, tax, roundOff, cost);
      NonNegative(es) && Sum(es, DebitAmount) == Sum(es, CreditAmount) == taxable + tax + roundOff + Max(cost, 0)
    ensures var es := ReversalLedgerEntries(tenders, udhar, taxable, tax, roundOff, cost);
      NonNegative(es) && Sum(es, DebitAmount) == Sum(es, CreditAmount) == taxable + tax + roundOff + Max(cost, 0)
  {
    hide TenderBuckets, CostEntries;
    BucketsCoverTenders(tenders);
    SplitRevenueIsExact(taxable, tax, roundOff);
    var k := TenderBuckets(tenders);
    var (revenue, gst) := SplitRevenue(taxable, tax, roundOff);
    var sale := [Entry(Cash, Debit, k.cash), Entry(Bank, Debit, k.bank), Entry(AccountsReceivable, Debit, udhar),
                 Entry(SalesRevenue, Credit, revenue), Entry(GstPayable, Credit, gst)];
    var reversal := [Entry(SalesRevenue, Debit, revenue), Entry(GstPayable, Debit, gst),
                     Entry(Cash, Credit, k.cash), Entry(Bank, Credit, k.bank), Entry(AccountsReceivable, Credit, udhar)];
    hide SplitRevenue;
    WithCost(sale, cost, false, taxable + tax + roundOff);
    WithCost(reversal, cost, true, taxable + tax + roundOff);
  }

  lemma {:induction false} WithCost(es: seq<Entry>, cost: int, stockComesBack: bool, total: int)
    requires |es| == 5 && NonNegative(es)
    requires DebitAmount(es[0]) + DebitAmount(es[1]) + DebitAmount(es[2]) + DebitAmount(es[3]) + DebitAmount(es[4]) == total
    requires CreditAmount(es[0]) + CreditAmount(es[1]) + CreditAmount(es[2]) + CreditAmount(es[3]) + CreditAmount(es[4]) == total
    ensures var all := es + CostEntries(cost, stockComesBack);
      NonNegative(all) && Sum(all, DebitAmount) == Sum(all, CreditAmount) == total + Max(cost, 0)
  {
    hide CostEntries;
    assert es == [es[0], es[1], es[2], es[3], es[4]];
    FiveEntries(es[0], es[1], es[2], es[3], es[4], DebitAmount);
    FiveEntries(es[0], es[1], es[2], es[3], es[4], CreditAmount);
    CostEntriesBalance(cost, stockComesBack);
    SumConcat(es, CostEntries(cost, stockComesBack), DebitAmount);
    SumConcat(es, CostEntries(cost, stockComesBack), CreditAmount);
  }

  function SalePostingOf(id: string, bill: Invoice.Bill, cost: int): Posting
    requires bill.payment.Some?
  {
    var p := bill.payment.value;
    Posting(Source(SaleSource, Document(id)),
            AsInputs(SaleLedgerEntries(p.tenders, p.udhar, bill.totals.taxable, bill.totals.tax, bill.roundOff, cost)))
  }

  /** The ledger never refuses a sale: every bill the engine accepts with a settled payment posts, under 50 paise included. */
  lemma {:induction false} EverySalePosts(b: Books, input: Invoice.Input, id: string, cost: int)
    requires Invoice.Calculated(input).Ok? && Invoice.Calculated(input).value.payment.Some?
    ensures Posted(b, SalePostingOf(id, Invoice.Calculated(input).value, cost)).Ok?
  {
    hide Invoice.Calculated, Invoice.TotalsOf, Invoice.ModeOf, SaleLedgerEntries, Posted;
    Invoice.CalculatedIsSound(input);
    var bill := Invoice.Calculated(input).value;
    var p := bill.payment.value;
    SettledDocumentBalances(p.tenders, p.udhar, bill.totals.taxable, bill.totals.tax, bill.roundOff, cost);
    BalancedPostingIsAccepted(b, Source(SaleSource, Document(id)),
      SaleLedgerEntries(p.tenders, p.udhar, bill.totals.taxable, bill.totals.tax, bill.roundOff, cost));
  }

  function ReturnPostingOf(id: string, doc: Returns.ReturnDoc, tender: Invoice.TenderType, udhar: int, cost: int): Posting {
    var refund := doc.finalTotal - udhar;
    var tenders := if refund > 0 then [Invoice.Tender(tender, refund, refund, 0)] else [];
    Posting(Source(ReturnSource, Document(id)),
            AsInputs(ReversalLedgerEntries(tenders, udhar, doc.totals.taxable, doc.totals.Tax(), doc.roundOff, cost)))
  }

  /** Nor a return of a settled sale, however much of it reverses credit. */
  lemma {:induction false} EveryReturnPosts(
      b: Books, s: Returns.Sale, requested: seq<Returns.Request>, id: string, tender: Invoice.TenderType, udhar: nat, cost: int)
    requires Returns.Good(s) && Returns.Settles(s) && Returns.Returned(s, requested).Ok?
    requires |Returns.Returned(s, requested).value.documents| == |s.documents| + 1
    requires udhar <= Returns.Returned(s, requested).value.documents[|s.documents|].finalTotal
    ensures Posted(b, ReturnPostingOf(id, Returns.Returned(s, requested).value.documents[|s.documents|], tender, udhar, cost)).Ok?
  {
    hide Returns.Returned, Returns.Refund, Returns.GrandTotal, Returns.Settles, Returns.AmountsTotal;
    hide Returns.Completes;
    hide Invoice.RoundToRupee, ReversalLedgerEntries, Posted, Max, Min;
    var doc := Returns.Returned(s, requested).value.documents[|s.documents|];
    Returns.ReturnKeepsSettlement(s, requested);
    Returns.ReturnedDocument(s, requested);
    Returns.DocumentSettles(s, requested);
    Returns.DocumentColumns(s, requested);
    var refund := doc.finalTotal - udhar;
    var tenders := if refund > 0 then [Invoice.Tender(tender, refund, refund, 0)] else [];
    assert tenders[..0] == [];
    SettledDocumentBalances(tenders, udhar, doc.totals.taxable, doc.totals.Tax(), doc.roundOff, cost);
    BalancedPostingIsAccepted(b, Source(ReturnSource, Document(id)),
      ReversalLedgerEntries(tenders, udhar, doc.totals.taxable, doc.totals.Tax(), doc.roundOff, cost));
  }

  /** After any run of returns of any bill the engine accepted, the next accepted return posts. */
  lemma {:induction false} EveryReturnOfABillPosts(
      b: Books, input: Invoice.Input, earlier: seq<seq<Returns.Request>>, requested: seq<Returns.Request>,
      id: string, tender: Invoice.TenderType, udhar: nat, cost: int)
    requires Invoice.Calculated(input).Ok?
    ensures var bill := Invoice.Calculated(input).value;
      var start := Returns.Fresh(Returns.StoredLines(bill), bill.finalTotal);
      Returns.WellShaped(start)
      && var s := Returns.Run(start, earlier);
      Returns.Returned(s, requested).Ok? ==>
        var t := Returns.Returned(s, requested).value;
        && |t.documents| == |s.documents| + 1
        && (udhar <= t.documents[|s.documents|].finalTotal ==>
              Posted(b, ReturnPostingOf(id, t.documents[|s.documents|], tender, udhar, cost)).Ok?)
  {
    hide Invoice.Calculated, Returns.Returned, Returns.Run, Returns.Settles, Posted, ReturnPostingOf;
    var bill := Invoice.Calculated(input).value;
    Returns.EveryBillIsReturnable(input);
    Returns.EveryRunSettles(Returns.StoredLines(bill), bill.finalTotal, earlier);
    var s := Returns.Run(Returns.Fresh(Returns.StoredLines(bill), bill.finalTotal), earlier);
    if Returns.Returned(s, requested).Ok? {
      Returns.ReturnedDocument(s, requested);
      var t := Returns.Returned(s, requested).value;
      if udhar <= t.documents[|s.documents|].finalTotal {
        EveryReturnPosts(b, s, requested, id, tender, udhar, cost);
      }
    }
  }

  // ---------------------------------------------------------------------------
  // A cancelled sale
  // ---------------------------------------------------------------------------

  function AmountOf(tenders: seq<Invoice.Tender>, kind: Invoice.TenderType): int {
    Sum(tenders, AmountBy({kind}))
  }

  function Kept(kind: Invoice.TenderType, amount: int): seq<Invoice.Tender> {
    if amount > 0 then [Invoice.Tender(kind, amount, amount, 0)] else []
  }

  /** What a cancellation pays back: every tender the way it came, one row a kind; repaid credit joins the cash. */
  function PaidBack(tenders: seq<Invoice.Tender>, repaid: int): seq<Invoice.Tender> {
    Kept(Invoice.Cash, AmountOf(tenders, Invoice.Cash) + repaid) + Kept(Invoice.Upi, AmountOf(tenders, Invoice.Upi))
    + Kept(Invoice.Card, AmountOf(tenders, Invoice.Card)) + Kept(Invoice.BankTransfer, AmountOf(tenders, Invoice.BankTransfer))
  }

  lemma {:induction false} KeptSum(kind: Invoice.TenderType, amount: nat, kinds: set<Invoice.TenderType>)
    ensures Sum(Kept(kind, amount), AmountBy(kinds)) == if kind in kinds then amount else 0
  {
    assert Kept(kind, amount) != [] ==> Kept(kind, amount)[..0] == [];
  }

  lemma {:induction false} PaidBackSum(tenders: seq<Invoice.Tender>, repaid: nat, kinds: set<Invoice.TenderType>)
    requires NoneNegative(tenders)
    ensures Sum(PaidBack(tenders, repaid), AmountBy(kinds))
         == Sum(tenders, AmountBy(kinds)) + (if Invoice.Cash in kinds then repaid else 0)
  {
    hide AmountBy, Kept, Sum;
    AmountsAreNonNegative(tenders);
    var cash, upi, card, bank := AmountOf(tenders, Invoice.Cash) + repaid, AmountOf(tenders, Invoice.Upi),
                                 AmountOf(tenders, Invoice.Card), AmountOf(tenders, Invoice.BankTransfer);
    var f := AmountBy(kinds);
    KeptSum(Invoice.Cash, cash, kinds);
    KeptSum(Invoice.Upi, upi, kinds);
    KeptSum(Invoice.Card, card, kinds);
    KeptSum(Invoice.BankTransfer, bank, kinds);
    SumConcat(Kept(Invoice.Cash, cash), Kept(Invoice.Upi, upi), f);
    SumConcat(Kept(Invoice.Cash, cash) + Kept(Invoice.Upi, upi), Kept(Invoice.Card, card), f);
    SumConcat(Kept(Invoice.Cash, cash) + Kept(Invoice.Upi, upi) + Kept(Invoice.Card, card), Kept(Invoice.BankTransfer, bank), f);
    SumByKind(tenders, kinds);
  }

  lemma {:induction false} AmountsAreNonNegative(tenders: seq<Invoice.Tender>)
    requires NoneNegative(tenders)
    ensures forall kind :: 0 <= AmountOf(tenders, kind)
  {
    forall kind ensures 0 <= AmountOf(tenders, kind) {
      SumNonNegative(tenders, AmountBy({kind}));
    }
  }

  lemma {:induction false} OneKind(t: Invoice.Tender, kinds: set<Invoice.TenderType>)
    ensures AmountBy(kinds)(t)
         == (if Invoice.Cash in kinds then AmountBy({Invoice.Cash})(t) else 0)
          + (if Invoice.Upi in kinds then AmountBy({Invoice.Upi})(t) else 0)
          + (if Invoice.Card in kinds then AmountBy({Invoice.Card})(t) else 0)
          + (if Invoice.BankTransfer in kinds then AmountBy({Invoice.BankTransfer})(t) else 0)
  {
    match t.kind
    case Cash =>
    case Upi =>
    case Card =>
    case BankTransfer =>
  }

  lemma {:induction false} SumByKind(tenders: seq<Invoice.Tender>, kinds: set<Invoice.TenderType>)
    ensures Sum(tenders, AmountBy(kinds))
         == (if Invoice.Cash in kinds then AmountOf(tenders, Invoice.Cash) else 0)
          + (if Invoice.Upi in kinds then AmountOf(tenders, Invoice.Upi) else 0)
          + (if Invoice.Card in kinds then AmountOf(tenders, Invoice.Card) else 0)
          + (if Invoice.BankTransfer in kinds then AmountOf(tenders, Invoice.BankTransfer) else 0)
  {
    if tenders != [] {
      SumByKind(tenders[..|tenders| - 1], kinds);
      OneKind(tenders[|tenders| - 1], kinds);
    }
  }

  lemma {:induction false} ExchangeMoves(es: seq<Entry>, back: seq<Entry>, cost: int, a: Account)
    requires |es| == |back| == 5
    ensures Moved(es + CostEntries(cost, false), a) + Moved(back + CostEntries(cost, true), a)
         == SignedEntry(a)(es[0]) + SignedEntry(a)(es[1]) + SignedEntry(a)(es[2]) + SignedEntry(a)(es[3]) + SignedEntry(a)(es[4])
          + SignedEntry(a)(back[0]) + SignedEntry(a)(back[1]) + SignedEntry(a)(back[2]) + SignedEntry(a)(back[3]) + SignedEntry(a)(back[4])
  {
    hide CostEntries, SignedEntry;
    assert es == [es[0], es[1], es[2], es[3], es[4]] && back == [back[0], back[1], back[2], back[3], back[4]];
    FiveEntries(es[0], es[1], es[2], es[3], es[4], SignedEntry(a));
    FiveEntries(back[0], back[1], back[2], back[3], back[4], SignedEntry(a));
    SumConcat(es, CostEntries(cost, false), SignedEntry(a));
    SumConcat(back, CostEntries(cost, true), SignedEntry(a));
    CostComesBack(cost, a);
  }

  lemma {:induction false} CostComesBack(cost: int, a: Account)
    ensures Moved(CostEntries(cost, false), a) + Moved(CostEntries(cost, true), a) == 0
  {
    if cost > 0 {
      var out, back := CostEntries(cost, false), CostEntries(cost, true);
      TwoEntries(out[0], out[1], SignedEntry(a));
      TwoEntries(back[0], back[1], SignedEntry(a));
    }
  }

  /** A cancellation takes back what its sale brought to every account; only credit repaid meanwhile leaves in cash instead. */
  lemma {:induction false} CancellationUndoesSale(
      tenders: seq<Invoice.Tender>, udhar: int, repaid: int, taxable: int, tax: int, roundOff: int, cost: int, a: Account)
    requires NoneNegative(tenders) && 0 <= repaid <= udhar
    ensures Moved(SaleLedgerEntries(tenders, udhar, taxable, tax, roundOff, cost), a)
          + Moved(ReversalLedgerEntries(PaidBack(tenders, repaid), udhar - repaid, taxable, tax, roundOff, cost), a)
         == if a == Ledger.Cash then -repaid else if a == AccountsReceivable then repaid else 0
  {
    hide PaidBack, CostEntries, SplitRevenue, Sum, AmountBy, Moved;
    PaidBackSum(tenders, repaid, {Invoice.Cash});
    PaidBackSum(tenders, repaid, {Invoice.Upi, Invoice.Card, Invoice.BankTransfer});
    var k, l := TenderBuckets(tenders), TenderBuckets(PaidBack(tenders, repaid));
    var (revenue, gst) := SplitRevenue(taxable, tax, roundOff);
    ExchangeMoves(
      [Entry(Cash, Debit, k.cash), Entry(Bank, Debit, k.bank), Entry(AccountsReceivable, Debit, udhar),
       Entry(SalesRevenue, Credit, revenue), Entry(GstPayable, Credit, gst)],
      [Entry(SalesRevenue, Debit, revenue), Entry(GstPayable, Debit, gst),
       Entry(Cash, Credit, l.cash), Entry(Bank, Credit, l.bank), Entry(AccountsReceivable, Credit, udhar - repaid)],
      cost, a);
  }

  /** A sale raises receivables by its credit, a reversal lowers them by the credit it reverses, whatever the money did. */
  lemma {:induction false} ReceivableMoves(
      tenders: seq<Invoice.Tender>, udhar: int, taxable: int, tax: int, roundOff: int, cost: int)
    ensures Moved(SaleLedgerEntries(tenders, udhar, taxable, tax, roundOff, cost), AccountsReceivable) == udhar
    ensures Moved(ReversalLedgerEntries(tenders, udhar, taxable, tax, roundOff, cost), AccountsReceivable) == -udhar
  {
    hide CostEntries, SplitRevenue, TenderBuckets;
    var k := TenderBuckets(tenders);
    var (revenue, gst) := SplitRevenue(taxable, tax, roundOff);
    var f := SignedEntry(AccountsReceivable);
    var sale := [Entry(Cash, Debit, k.cash), Entry(Bank, Debit, k.bank), Entry(AccountsReceivable, Debit, udhar),
                 Entry(SalesRevenue, Credit, revenue), Entry(GstPayable, Credit, gst)];
    var back := [Entry(SalesRevenue, Debit, revenue), Entry(GstPayable, Debit, gst),
                 Entry(Cash, Credit, k.cash), Entry(Bank, Credit, k.bank), Entry(AccountsReceivable, Credit, udhar)];
    FiveEntries(sale[0], sale[1], sale[2], sale[3], sale[4], f);
    FiveEntries(back[0], back[1], back[2], back[3], back[4], f);
    SumConcat(sale, CostEntries(cost, false), f);
    SumConcat(back, CostEntries(cost, true), f);
    CostLeavesReceivables(cost, false);
    CostLeavesReceivables(cost, true);
  }

  lemma {:induction false} CostLeavesReceivables(cost: int, stockComesBack: bool)
    ensures Moved(CostEntries(cost, stockComesBack), AccountsReceivable) == 0
  {
    CostReaches(cost, stockComesBack, AccountsReceivable);
  }

  lemma {:induction false} CostReaches(cost: int, stockComesBack: bool, a: Account)
    ensures Moved(CostEntries(cost, stockComesBack), a)
         == (if stockComesBack then -1 else 1) * (if a == CostOfGoods then Max(cost, 0) else if a == Inventory then -Max(cost, 0) else 0)
  {
    if cost > 0 {
      var es := CostEntries(cost, stockComesBack);
      TwoEntries(es[0], es[1], SignedEntry(a));
    }
  }

  /**
   * Where a sale's money ends up: cash tenders in the drawer, every other
   * tender in the bank, credit in receivables, what was settled split between
   * revenue and tax, and the goods at cost from stock to cost of goods.
   */
  lemma {:induction false} SaleReaches(tenders: seq<Invoice.Tender>, udhar: int, taxable: nat, tax: nat, roundOff: int, cost: int)
    requires NoneNegative(tenders) && 0 <= taxable + tax + roundOff
    ensures var es := SaleLedgerEntries(tenders, udhar, taxable, tax, roundOff, cost);
      && Moved(es, Ledger.Cash) + Moved(es, Bank) == Sum(tenders, Invoice.TenderAmount)
      && Moved(es, Ledger.Cash) == Sum(tenders, AmountBy({Invoice.Cash}))
      && Moved(es, AccountsReceivable) == udhar
      && Moved(es, SalesRevenue) + Moved(es, GstPayable) == taxable + tax + roundOff
      && Moved(es, SalesRevenue) == Max(taxable + roundOff, 0)
      && Moved(es, CostOfGoods) == Max(cost, 0) == -Moved(es, Inventory)
  {
    hide CostEntries, Sum, AmountBy, Moved;
    BucketsCoverTenders(tenders);
    SplitRevenueIsExact(taxable, tax, roundOff);
    SaleOnAccount(tenders, udhar, taxable, tax, roundOff, cost, Ledger.Cash);
    SaleOnAccount(tenders, udhar, taxable, tax, roundOff, cost, Bank);
    SaleOnAccount(tenders, udhar, taxable, tax, roundOff, cost, AccountsReceivable);
    SaleOnAccount(tenders, udhar, taxable, tax, roundOff, cost, SalesRevenue);
    SaleOnAccount(tenders, udhar, taxable, tax, roundOff, cost, GstPayable);
    SaleOnAccount(tenders, udhar, taxable, tax, roundOff, cost, CostOfGoods);
    SaleOnAccount(tenders, udhar, taxable, tax, roundOff, cost, Inventory);
  }

  lemma {:induction false} SaleOnAccount(
      tenders: seq<Invoice.Tender>, udhar: int, taxable: int, tax: int, roundOff: int, cost: int, a: Account)
    ensures var k, split := TenderBuckets(tenders), SplitRevenue(taxable, tax, roundOff);
      Moved(SaleLedgerEntries(tenders, udhar, taxable, tax, roundOff, cost), a)
      == (match a
          case Cash => k.cash
          case Bank => k.bank
          case AccountsReceivable => udhar
          case SalesRevenue => split.0
          case GstPayable => split.1
          case CostOfGoods => Max(cost, 0)
          case Inventory => -Max(cost, 0)
          case _ => 0)
  {
    hide CostEntries, SplitRevenue, TenderBuckets, Sum;
    var k := TenderBuckets(tenders);
    var (revenue, gst) := SplitRevenue(taxable, tax, roundOff);
    var sale := [Entry(Cash, Debit, k.cash), Entry(Bank, Debit, k.bank), Entry(AccountsReceivable, Debit, udhar),
                 Entry(SalesRevenue, Credit, revenue), Entry(GstPayable, Credit, gst)];
    FiveEntries(sale[0], sale[1], sale[2], sale[3], sale[4], SignedEntry(a));
    SumConcat(sale, CostEntries(cost, false), SignedEntry(a));
    CostReaches(cost, false, a);
  }

  /** What a cancellation asks the return arithmetic for: every line, whole, completing the sale. */
  function WholeSale(lines: seq<Returns.SaleLine>): (inputs: seq<Returns.ReturnInput>)
    ensures |inputs| == |lines|
  {
    seq(|lines|, i requires 0 <= i < |lines| => Returns.ReturnInput(lines[i], 0, lines[i].quantity))
  }

  lemma {:induction false} WholeSlices(lines: seq<Returns.SaleLine>)
    requires forall i | 0 <= i < |lines| :: 0 < lines[i].quantity
    ensures Returns.SlicesOf(WholeSale(lines)).Ok?
    ensures forall i | 0 <= i < |lines| :: Returns.SlicesOf(WholeSale(lines)).value[i] == lines[i].stored
  {
    hide Returns.CumulativeAmounts;
    if lines != [] {
      var n := |lines| - 1;
      WholeSlices(lines[..n]);
      assert WholeSale(lines)[..n] == WholeSale(lines[..n]);
      Returns.CumulativeEnds(lines[n]);
    }
  }

  /** The cancellation document of any bill restates the bill: same taxable amount, tax, round-off and total. */
  lemma {:induction false} CancellationRestatesBill(input: Invoice.Input)
    requires Invoice.Calculated(input).Ok?
    ensures var b := Invoice.Calculated(input).value;
      var r := Returns.CalculateReturn(WholeSale(Returns.StoredLines(b)), Some(Returns.Settlement(b.finalTotal, 0, true)));
      && r.Ok?
      && r.value.totals.taxable == b.totals.taxable && r.value.totals.Tax() == b.totals.tax
      && r.value.roundOff == b.roundOff && r.value.finalTotal == b.finalTotal
  {
    hide Invoice.Calculated, Returns.SlicesOf, Sum, Invoice.RoundToRupee;
    Invoice.CalculatedIsSound(input);
    Returns.EveryBillIsReturnable(input);
    var b := Invoice.Calculated(input).value;
    HasLines(input);
    var lines := Returns.StoredLines(b);
    WholeSlices(lines);
    var slices := Returns.SlicesOf(WholeSale(lines)).value;
    SumEqual(slices, Returns.Taxable, b.lines, Invoice.LineTaxable);
    SumEqual(slices, Returns.Cgst, b.lines, Invoice.LineCgst);
    SumEqual(slices, Returns.Sgst, b.lines, Invoice.LineSgst);
    SumEqual(slices, Returns.Igst, b.lines, Invoice.LineIgst);
    SumEqual(slices, Returns.Cess, b.lines, Invoice.LineCess);
  }

  lemma {:induction false} HasLines(input: Invoice.Input)
    requires Invoice.Calculated(input).Ok?
    ensures Invoice.Calculated(input).value.lines != []
  {
    hide Invoice.InvoiceDiscount, Invoice.TotalsOf, Invoice.Settled, Allocation.Allocated, Invoice.RoundToRupee;
  }

  function CancellationPostingOf(id: string, bill: Invoice.Bill, doc: Returns.ReturnDoc, repaid: int, cost: int): Posting
    requires bill.payment.Some?
  {
    var p := bill.payment.value;
    Posting(Source(CancellationSource, Document(id)),
            AsInputs(ReversalLedgerEntries(PaidBack(p.tenders, repaid), p.udhar - repaid, doc.totals.taxable, doc.totals.Tax(), doc.roundOff, cost)))
  }

  /**
   * Selling and cancelling any bill, with anything posted in between: every
   * account gets back what the sale gave it, save credit repaid meanwhile.
   */
  lemma {:induction false} CancellingABill(
      before: Books, between: Books, input: Invoice.Input, id: string, repaid: int, cost: int, a: Account)
    requires Invoice.Calculated(input).Ok? && Invoice.Calculated(input).value.payment.Some?
    requires 0 <= repaid <= Invoice.Calculated(input).value.payment.value.udhar
    requires Consistent(before) && Source(SaleSource, Document(id)) !in before.postings
    requires Consistent(between) && Source(CancellationSource, Document(id)) !in between.postings
    ensures var bill := Invoice.Calculated(input).value;
      var doc := Returns.CalculateReturn(WholeSale(Returns.StoredLines(bill)), Some(Returns.Settlement(bill.finalTotal, 0, true)));
      && doc.Ok?
      && var sold := Posted(before, SalePostingOf(id, bill, cost));
      var cancelled := Posted(between, CancellationPostingOf(id, bill, doc.value, repaid, cost));
      && sold.Ok? && cancelled.Ok?
      && (BalanceOf(sold.value.0, a) - BalanceOf(before, a)) + (BalanceOf(cancelled.value.0, a) - BalanceOf(between, a))
         == if a == Ledger.Cash then -repaid else if a == AccountsReceivable then repaid else 0
  {
    hide Invoice.Calculated, Returns.CalculateReturn, Invoice.TotalsOf, Invoice.ModeOf, Posted, Consistent, BalanceOf;
    hide Moved, PaidBack;
    hide SaleLedgerEntries, ReversalLedgerEntries;
    Invoice.CalculatedIsSound(input);
    CancellationRestatesBill(input);
    var bill := Invoice.Calculated(input).value;
    var p, t := bill.payment.value, bill.totals;
    var sale := SaleLedgerEntries(p.tenders, p.udhar, t.taxable, t.tax, bill.roundOff, cost);
    var back := ReversalLedgerEntries(PaidBack(p.tenders, repaid), p.udhar - repaid, t.taxable, t.tax, bill.roundOff, cost);
    SettledDocumentBalances(p.tenders, p.udhar, t.taxable, t.tax, bill.roundOff, cost);
    PaidBackCovers(p.tenders, repaid);
    SettledDocumentBalances(PaidBack(p.tenders, repaid), p.udhar - repaid, t.taxable, t.tax, bill.roundOff, cost);
    BalancedPostingIsAccepted(before, Source(SaleSource, Document(id)), sale);
    BalancedPostingIsAccepted(between, Source(CancellationSource, Document(id)), back);
    PostedMoves(before, Source(SaleSource, Document(id)), sale, a);
    PostedMoves(between, Source(CancellationSource, Document(id)), back, a);
    CancellationUndoesSale(p.tenders, p.udhar, repaid, t.taxable, t.tax, bill.roundOff, cost, a);
  }

  lemma {:induction false} PaidBackCovers(tenders: seq<Invoice.Tender>, repaid: nat)
    requires NoneNegative(tenders)
    ensures NoneNegative(PaidBack(tenders, repaid))
    ensures Sum(PaidBack(tenders, repaid), Invoice.TenderAmount) == Sum(tenders, Invoice.TenderAmount) + repaid
  {
    assert NoneNegative(PaidBack(tenders, repaid)) by {
      hide AmountOf;
    }
    hide PaidBack;
    PaidBackSum(tenders, repaid, EveryKind);
    ByEveryKind(tenders);
    ByEveryKind(PaidBack(tenders, repaid));
  }

  lemma {:induction false} ByEveryKind(tenders: seq<Invoice.Tender>)
    ensures Sum(tenders, AmountBy(EveryKind)) == Sum(tenders, Invoice.TenderAmount)
  {
    forall i | 0 <= i < |tenders| ensures AmountBy(EveryKind)(tenders[i]) == tenders[i].amount {
      match tenders[i].kind
      case Cash =>
      case Upi =>
      case Card =>
      case BankTransfer =>
    }
    SumEqual(tenders, AmountBy(EveryKind), tenders, Invoice.TenderAmount);
  }

  const EveryKind := {Invoice.Cash, Invoice.Upi, Invoice.Card, Invoice.BankTransfer}
}
