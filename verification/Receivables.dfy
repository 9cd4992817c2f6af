/** Customers' credit: running balances, their unbroken row history, and the control account in the books. */
module Receivables {
  import opened Common
  import opened Ledger
  import Invoice
  import SalePosting

  /** A client's request key, or the key of a customer's one opening row. */
  datatype Key = Client(uuid: string) | Opening(customer: string)

  datatype Kind = CreditRow | PaymentRow | AdjustmentRow

  datatype Row = Row(id: string, customer: string, kind: Kind, amount: int, before: int, after: int,
                     tender: Option<Invoice.TenderType>, key: Option<Key>)

  datatype Customer = Customer(id: string, balance: int, creditLimit: int, isActive: bool, isDeleted: bool)

  /** The settled figures of a document, as the engine computes them. */
  datatype Figures = Figures(tenders: seq<Invoice.Tender>, udhar: int, taxable: int, tax: int, roundOff: int, cost: int) {
    function Total(): int { taxable + tax + roundOff }
  }

  datatype Sale = Sale(id: string, customer: Option<string>, figures: Figures, creditReversed: int, hasReturns: bool, cancelled: bool)

  datatype Shop = Shop(customers: seq<Customer>, rows: seq<Row>, sales: seq<Sale>, books: Books)

  datatype Error =
    | CustomerRequired | CustomerNotFound | CustomerInactive | BalanceTooLarge | CreditLimitExceeded
    | InvalidAmount | ExceedsOutstanding | KeyReused | KeyTaken
    | RequiresManager | OpeningExists | OpeningAfterActivity | CustomerHasBalance
    | InvoiceNotFound | NotReturnable | NotCancellable | DuplicateId | LedgerRefused

  const MONEY_MAX := 9_999_999_999

  function CustomerId(c: Customer): string { c.id }
  function SaleId(s: Sale): string { s.id }
  function RowKey(r: Row): Option<Key> { r.key }

  predicate HasActivity(rows: seq<Row>, customer: string) {
    exists i | 0 <= i < |rows| :: rows[i].customer == customer
  }

  /** A posting under a document's own id; an id that is already taken is refused. */
  function PostNew(b: Books, source: Source, entries: seq<Entry>): Result<Books, Error> {
    if source in b.postings then Err(DuplicateId) else
    match Posted(b, Posting(source, AsInputs(entries)))
    case Err(_) => Err(LedgerRefused)
    case Ok((c, _)) => Ok(c)
  }

  /** A customer's balance moved by one new row. */
  function WithRow(s: Shop, i: nat, row: Row): Shop
    requires i < |s.customers|
  {
    s.(customers := s.customers[i := s.customers[i].(balance := row.after)], rows := s.rows + [row])
  }

  // ---------------------------------------------------------------------------
  // Credit sales
  // ---------------------------------------------------------------------------

  function CreditCheck(c: Customer, udhar: int, manager: bool): Option<Error> {
    if c.isDeleted then Some(CustomerNotFound)
    else if !c.isActive then Some(CustomerInactive)
    else if udhar <= 0 then None
    else if c.balance + udhar > MONEY_MAX then Some(BalanceTooLarge)
    else if c.balance + udhar > c.creditLimit && !manager then Some(CreditLimitExceeded)
    else None
  }

  function Sold(s: Shop, id: string, rowId: string, customer: Option<string>, f: Figures, manager: bool): Result<Shop, Error> {
    if f.udhar > 0 && customer.None? then Err(CustomerRequired) else
    var i := if customer.Some? then Find(s.customers, CustomerId, customer.value) else None;
    if customer.Some? && i.None? then Err(CustomerNotFound)
    else if i.Some? && CreditCheck(s.customers[i.value], f.udhar, manager).Some?
    then Err(CreditCheck(s.customers[i.value], f.udhar, manager).value)
    else
      match PostNew(s.books, Source(SaleSource, Document(id)),
                    SalePosting.SaleLedgerEntries(f.tenders, f.udhar, f.taxable, f.tax, f.roundOff, f.cost))
      case Err(e) => Err(e)
      case Ok(books) =>
        var t := s.(sales := s.sales + [Sale(id, customer, f, 0, false, false)], books := books);
        if i.Some? && f.udhar > 0 then
          var before := s.customers[i.value].balance;
          Ok(WithRow(t, i.value, Row(rowId, customer.value, CreditRow, f.udhar, before, before + f.udhar, None, None)))
        else Ok(t)
  }

  // ---------------------------------------------------------------------------
  // Repayments
  // ---------------------------------------------------------------------------

  datatype Payment = Payment(customer: string, amount: int, tender: Invoice.TenderType, key: string, allowAdvance: bool)

  /** The answer to a key already used: its stored row for the same payment, a refusal for another. */
  function Replay(rows: seq<Row>, p: Payment): Option<Result<Row, Error>> {
    var i := Find(rows, RowKey, Some(Client(p.key)));
    if i.None? then None else
    var row := rows[i.value];
    Some(if row.customer != p.customer || row.amount != p.amount || row.tender != Some(p.tender) then Err(KeyReused) else Ok(row))
  }

  function PaymentEntries(p: Payment): seq<Entry> {
    [Entry(if p.tender == Invoice.Cash then Cash else Bank, Debit, p.amount), Entry(AccountsReceivable, Credit, p.amount)]
  }

  /** The repayment's transaction; a key that another request committed meanwhile breaks its unique index. */
  function Paid(s: Shop, p: Payment, rowId: string): Result<Shop, Error> {
    var i := Find(s.customers, CustomerId, p.customer);
    if i.None? || s.customers[i.value].isDeleted then Err(CustomerNotFound)
    else if !s.customers[i.value].isActive then Err(CustomerInactive)
    else
      var before := s.customers[i.value].balance;
      if p.amount > before && !p.allowAdvance then Err(ExceedsOutstanding)
      else if before - p.amount < -MONEY_MAX then Err(BalanceTooLarge)
      else if Find(s.rows, RowKey, Some(Client(p.key))).Some? then Err(KeyTaken)
      else
        match PostNew(s.books, Source(CustomerPaymentSource, Document(rowId)), PaymentEntries(p))
        case Err(e) => Err(e)
        case Ok(books) =>
          Ok(WithRow(s.(books := books), i.value,
                   Row(rowId, p.customer, PaymentRow, p.amount, before, before - p.amount, Some(p.tender), Some(Client(p.key)))))
  }

  /**
   * A repayment request: the replay check reads `seen`, the transaction runs
   * on `s`, and whatever committed between the two is in `s` only.
   */
  function PaymentRecorded(seen: seq<Row>, s: Shop, p: Payment, rowId: string): (Shop, Result<Row, Error>) {
    if p.amount <= 0 then (s, Err(InvalidAmount)) else
    match Replay(seen, p)
    case Some(answer) => (s, answer)
    case None =>
      match Paid(s, p, rowId)
      case Ok(t) => (t, Ok(t.rows[|t.rows| - 1]))
      case Err(KeyTaken) => (s, Replay(s.rows, p).value)
      case Err(e) => (s, Err(e))
  }

  // ---------------------------------------------------------------------------
  // Opening balances and deletion
  // ---------------------------------------------------------------------------

  function OpeningEntries(value: int): seq<Entry> {
    if value > 0 then [Entry(AccountsReceivable, Debit, value), Entry(OpeningBalanceEquity, Credit, value)]
    else [Entry(OpeningBalanceEquity, Debit, -value), Entry(AccountsReceivable, Credit, -value)]
  }

  datatype Outcome = CreatedRow | Unchanged

  function OpeningRecorded(s: Shop, customer: string, value: int, manager: bool, rowId: string): Result<(Shop, Outcome), Error> {
    if !manager then Err(RequiresManager)
    else if value == 0 || Abs(value) > MONEY_MAX then Err(InvalidAmount)
    else
      var i := Find(s.customers, CustomerId, customer);
      var recorded := Find(s.rows, RowKey, Some(Opening(customer)));
      if i.None? || s.customers[i.value].isDeleted then Err(CustomerNotFound)
      else if recorded.Some? then
        if s.rows[recorded.value].after - s.rows[recorded.value].before == value then Ok((s, Unchanged)) else Err(OpeningExists)
      else if HasActivity(s.rows, customer) || s.customers[i.value].balance != 0 then Err(OpeningAfterActivity)
      else
        match PostNew(s.books, Source(OpeningBalanceSource, Document(rowId)), OpeningEntries(value))
        case Err(e) => Err(e)
        case Ok(books) =>
          Ok((WithRow(s.(books := books), i.value,
                    Row(rowId, customer, AdjustmentRow, Abs(value), 0, value, None, Some(Opening(customer)))), CreatedRow))
  }

  function Deleted(s: Shop, customer: string): Result<Shop, Error> {
    var i := Find(s.customers, CustomerId, customer);
    if i.None? || s.customers[i.value].isDeleted then Err(CustomerNotFound)
    else if s.customers[i.value].balance != 0 then Err(CustomerHasBalance)
    else Ok(s.(customers := s.customers[i.value := s.customers[i.value].(isDeleted := true, isActive := false)]))
  }

  // ---------------------------------------------------------------------------
  // Reversals: credit first, the rest in money
  // ---------------------------------------------------------------------------

  /** The credit a refund cancels: what of the sale's credit is not yet reversed, never past the customer's own balance. */
  function CreditReversal(refund: int, reversible: int, balance: int): int {
    Min(Min(refund, Max(reversible, 0)), Max(balance, 0))
  }

  /** What a reversal of a sale does to its customer, once its posting is written. */
  function CreditReversed(s: Shop, i: Option<nat>, reversal: int, rowId: string): Shop
    requires i.Some? ==> i.value < |s.customers|
  {
    if i.Some? && reversal > 0 then
      var before := s.customers[i.value].balance;
      WithRow(s, i.value, Row(rowId, s.customers[i.value].id, AdjustmentRow, reversal, before, before - reversal, None, None))
    else s
  }

  function ReversalOf(s: Shop, sale: Sale, refund: int): Result<(Option<nat>, int), Error> {
    var i := if sale.customer.Some? then Find(s.customers, CustomerId, sale.customer.value) else None;
    if sale.customer.Some? && i.None? then Err(CustomerNotFound)
    else if i.None? then Ok((None, 0))
    else Ok((i, CreditReversal(refund, sale.figures.udhar - sale.creditReversed, s.customers[i.value].balance)))
  }

  /** A return of part of a sale; `f` holds the part's figures, its tenders and credit still to be decided. */
  function ReturnRecorded(
      s: Shop, id: string, rowId: string, saleId: string, f: Figures, tender: Invoice.TenderType): Result<Shop, Error> {
    var k := Find(s.sales, SaleId, saleId);
    if k.None? then Err(InvoiceNotFound)
    else if s.sales[k.value].cancelled then Err(NotReturnable)
    else
      var sale := s.sales[k.value];
      match ReversalOf(s, sale, f.Total())
      case Err(e) => Err(e)
      case Ok((i, reversal)) =>
        var tenders := SalePosting.Kept(tender, f.Total() - reversal);
        match PostNew(s.books, Source(ReturnSource, Document(id)),
                      SalePosting.ReversalLedgerEntries(tenders, reversal, f.taxable, f.tax, f.roundOff, f.cost))
        case Err(e) => Err(e)
        case Ok(books) =>
          var sales := s.sales[k.value := sale.(creditReversed := sale.creditReversed + reversal, hasReturns := true)];
          Ok(CreditReversed(s.(books := books, sales := sales), i, reversal, rowId))
  }

  function Cancelled(s: Shop, saleId: string, rowId: string): Result<Shop, Error> {
    var k := Find(s.sales, SaleId, saleId);
    if k.None? then Err(InvoiceNotFound)
    else if s.sales[k.value].cancelled then Ok(s)
    else if s.sales[k.value].hasReturns then Err(NotCancellable)
    else
      var sale := s.sales[k.value];
      var f := sale.figures;
      match ReversalOf(s, sale, f.udhar)
      case Err(e) => Err(e)
      case Ok((i, reversal)) =>
        match PostNew(s.books, Source(CancellationSource, Document(saleId)),
                      SalePosting.ReversalLedgerEntries(SalePosting.PaidBack(f.tenders, f.udhar - reversal), reversal,
                                                        f.taxable, f.tax, f.roundOff, f.cost))
        case Err(e) => Err(e)
        case Ok(books) =>
          var sales := s.sales[k.value := sale.(creditReversed := reversal, cancelled := true)];
          Ok(CreditReversed(s.(books := books, sales := sales), i, reversal, rowId))
  }

  // ---------------------------------------------------------------------------
  // The service
  // ---------------------------------------------------------------------------

  class CustomersService {
    var customers: seq<Customer>
    var rows: seq<Row>
    var sales: seq<Sale>
    const ledger: LedgerPostingService

    ghost function State(): Shop
      reads this, ledger
    {
      Shop(customers, rows, sales, ledger.Contents())
    }

    constructor (ledger: LedgerPostingService)
      ensures this.ledger == ledger && State() == Shop([], [], [], ledger.Contents())
    {
      this.ledger := ledger;
      customers, rows, sales := [], [], [];
    }

    /** Writes a posting under a new id. */
    method PostEntries(source: Source, entries: seq<Entry>) returns (r: Result<(), Error>)
      modifies ledger
      ensures var spec := PostNew(old(ledger.Contents()), source, entries);
        && (spec.Err? ==> r == Err(spec.error) && ledger.Contents() == old(ledger.Contents()))
        && (spec.Ok? ==> r == Ok(()) && ledger.Contents() == spec.value)
    {
      if source in ledger.postings {
        return Err(DuplicateId);
      }
      var posted := ledger.Post(Posting(source, AsInputs(entries)));
      return if posted.Err? then Err(LedgerRefused) else Ok(());
    }

    /** A repayment whose replay check read `seen`. */
    method RecordPayment(seen: seq<Row>, p: Payment, rowId: string) returns (r: Result<Row, Error>)
      modifies this, ledger
      ensures (State(), r) == PaymentRecorded(seen, old(State()), p, rowId)
    {
      hide Find, PostNew;
      if p.amount <= 0 {
        return Err(InvalidAmount);
      }
      var replay := Replay(seen, p);
      if replay.Some? {
        return replay.value;
      }
      var i := Find(customers, CustomerId, p.customer);
      if i.None? || customers[i.value].isDeleted {
        return Err(CustomerNotFound);
      }
      if !customers[i.value].isActive {
        return Err(CustomerInactive);
      }
      var before := customers[i.value].balance;
      if p.amount > before && !p.allowAdvance {
        return Err(ExceedsOutstanding);
      }
      var after := before - p.amount;
      if after < -MONEY_MAX {
        return Err(BalanceTooLarge);
      }
      if Find(rows, RowKey, Some(Client(p.key))).Some? {
        return Replay(rows, p).value;
      }
      var posted := PostEntries(Source(CustomerPaymentSource, Document(rowId)), PaymentEntries(p));
      if posted.Err? {
        PostNewErrors(old(ledger.Contents()), Source(CustomerPaymentSource, Document(rowId)), PaymentEntries(p));
        return Err(posted.error);
      }
      var row := Row(rowId, p.customer, PaymentRow, p.amount, before, after, Some(p.tender), Some(Client(p.key)));
      rows := rows + [row];
      customers := customers[i.value := customers[i.value].(balance := after)];
      return Ok(row);
    }

    method RecordOpeningBalance(customer: string, value: int, manager: bool, rowId: string) returns (r: Result<Outcome, Error>)
      modifies this, ledger
      ensures var spec := OpeningRecorded(old(State()), customer, value, manager, rowId);
        && (spec.Err? ==> r == Err(spec.error) && State() == old(State()))
        && (spec.Ok? ==> r == Ok(spec.value.1) && State() == spec.value.0)
    {
      hide Find, PostNew;
      if !manager {
        return Err(RequiresManager);
      }
      if value == 0 || Abs(value) > MONEY_MAX {
        return Err(InvalidAmount);
      }
      var i := Find(customers, CustomerId, customer);
      if i.None? || customers[i.value].isDeleted {
        return Err(CustomerNotFound);
      }
      var recorded := Find(rows, RowKey, Some(Opening(customer)));
      if recorded.Some? {
        var row := rows[recorded.value];
        return if row.after - row.before == value then Ok(Unchanged) else Err(OpeningExists);
      }
      if HasActivity(rows, customer) || customers[i.value].balance != 0 {
        return Err(OpeningAfterActivity);
      }
      var posted := PostEntries(Source(OpeningBalanceSource, Document(rowId)), OpeningEntries(value));
      if posted.Err? {
        return Err(posted.error);
      }
      rows := rows + [Row(rowId, customer, AdjustmentRow, Abs(value), 0, value, None, Some(Opening(customer)))];
      customers := customers[i.value := customers[i.value].(balance := value)];
      return Ok(CreatedRow);
    }

    method SoftDelete(customer: string) returns (r: Result<(), Error>)
      modifies this
      ensures var spec := Deleted(old(State()), customer);
        && (spec.Err? ==> r == Err(spec.error) && State() == old(State()))
        && (spec.Ok? ==> r == Ok(()) && State() == spec.value)
    {
      hide Find;
      var i := Find(customers, CustomerId, customer);
      if i.None? || customers[i.value].isDeleted {
        return Err(CustomerNotFound);
      }
      if customers[i.value].balance != 0 {
        return Err(CustomerHasBalance);
      }
      customers := customers[i.value := customers[i.value].(isDeleted := true, isActive := false)];
      return Ok(());
    }
  }

  lemma {:induction false} PostNewErrors(b: Books, source: Source, entries: seq<Entry>)
    requires PostNew(b, source, entries).Err?
    ensures PostNew(b, source, entries).error in {DuplicateId, LedgerRefused}
  {}

  // ---------------------------------------------------------------------------
  // What every run keeps
  // ---------------------------------------------------------------------------

  function BalanceField(c: Customer): int { c.balance }

  /** A row moves its customer by its amount, in the direction its kind allows. */
  ghost predicate RowIsSound(r: Row) {
    && 0 < r.amount
    && (r.kind.CreditRow? ==> r.after == r.before + r.amount)
    && (r.kind.PaymentRow? ==> r.after == r.before - r.amount)
    && (r.kind.AdjustmentRow? ==> Abs(r.after - r.before) == r.amount)
  }

  /** Where a customer's rows lead from zero, each starting where the one before it ended; nothing if the chain breaks. */
  function ChainEnd(rows: seq<Row>, customer: string): Option<int> {
    if rows == [] then Some(0) else
    var last := rows[|rows| - 1];
    match ChainEnd(rows[..|rows| - 1], customer)
    case None => None
    case Some(balance) => if last.customer != customer then Some(balance) else if last.before == balance then Some(last.after) else None
  }

  ghost predicate IdsAreUnique(customers: seq<Customer>) {
    forall i, j | 0 <= i < j < |customers| :: customers[i].id != customers[j].id
  }

  /** Every customer's balance is where its unbroken rows lead, within the column's bound, and zero once deleted. */
  ghost predicate BalancesFollowRows(customers: seq<Customer>, rows: seq<Row>) {
    && IdsAreUnique(customers)
    && (forall i | 0 <= i < |rows| :: RowIsSound(rows[i]) && Find(customers, CustomerId, rows[i].customer).Some?)
    && (forall i | 0 <= i < |customers| ::
          && ChainEnd(rows, customers[i].id) == Some(customers[i].balance)
          && -MONEY_MAX <= customers[i].balance <= MONEY_MAX
          && (customers[i].isDeleted ==> customers[i].balance == 0))
  }

  ghost predicate KeysAreUnique(rows: seq<Row>) {
    forall i, j | 0 <= i < j < |rows| && rows[i].key.Some? :: rows[i].key != rows[j].key
  }

  ghost predicate GoodFigures(f: Figures) {
    && SalePosting.NoneNegative(f.tenders) && 0 <= f.udhar && 0 <= f.taxable && 0 <= f.tax
  }

  ghost predicate Settled(f: Figures) {
    GoodFigures(f) && Sum(f.tenders, Invoice.TenderAmount) + f.udhar == f.Total()
  }

  ghost predicate GoodSales(sales: seq<Sale>) {
    forall i | 0 <= i < |sales| ::
      && Settled(sales[i].figures)
      && 0 <= sales[i].creditReversed <= sales[i].figures.udhar
      && (!sales[i].hasReturns && !sales[i].cancelled ==> sales[i].creditReversed == 0)
  }

  /** The control account holds exactly what the customers owe. */
  ghost predicate Controlled(b: Books, customers: seq<Customer>) {
    Consistent(b) && BalanceOf(b, AccountsReceivable) == Sum(customers, BalanceField)
  }

  ghost predicate Good(s: Shop) {
    && BalancesFollowRows(s.customers, s.rows)
    && KeysAreUnique(s.rows)
    && GoodSales(s.sales)
    && Controlled(s.books, s.customers)
  }

  lemma {:induction false} ChainSnoc(rows: seq<Row>, row: Row, customer: string)
    ensures ChainEnd(rows + [row], customer)
         == if ChainEnd(rows, customer).None? || row.customer != customer then ChainEnd(rows, customer)
            else if row.before == ChainEnd(rows, customer).value then Some(row.after) else None
  {
    assert (rows + [row])[..|rows|] == rows;
  }

  /** A new row for a customer who is not deleted: the chain goes on, and the balances stay within bounds. */
  lemma {:induction false} RowExtendsChain(customers: seq<Customer>, rows: seq<Row>, i: nat, row: Row)
    requires BalancesFollowRows(customers, rows) && i < |customers|
    requires row.customer == customers[i].id && row.before == customers[i].balance && RowIsSound(row)
    requires -MONEY_MAX <= row.after <= MONEY_MAX && !customers[i].isDeleted
    ensures BalancesFollowRows(customers[i := customers[i].(balance := row.after)], rows + [row])
  {
    hide ChainEnd, Find, RowIsSound;
    var c := customers[i].(balance := row.after);
    var after := customers[i := c];
    forall k | 0 <= k < |after| ensures ChainEnd(rows + [row], after[k].id) == Some(after[k].balance) {
      ChainSnoc(rows, row, after[k].id);
    }
    forall k | 0 <= k < |rows + [row]| ensures Find(after, CustomerId, (rows + [row])[k].customer).Some? {
      FindUpdate(customers, i, c, CustomerId, (rows + [row])[k].customer);
    }
  }

  /** A posting under a new id moves the control account by exactly its net receivable. */
  lemma {:induction false} PostNewMoves(b: Books, source: Source, entries: seq<Entry>)
    requires Consistent(b) && NonNegative(entries) && PostNew(b, source, entries).Ok?
    ensures var c := PostNew(b, source, entries).value;
      Consistent(c) && BalanceOf(c, AccountsReceivable) == BalanceOf(b, AccountsReceivable) + Ledger.Moved(entries, AccountsReceivable)
  {
    hide Posted, Consistent, BalanceOf, Ledger.Moved;
    PostingKeepsBooks(b, Posting(source, AsInputs(entries)));
    PostedMoves(b, source, entries, AccountsReceivable);
  }

  /** The step every credit movement takes: one row, one balance, one posting of the same amount. */
  lemma {:induction false} MovementKeeps(s: Shop, i: nat, row: Row, books: Books)
    requires Good(s) && i < |s.customers|
    requires row.customer == s.customers[i].id && row.before == s.customers[i].balance && RowIsSound(row)
    requires -MONEY_MAX <= row.after <= MONEY_MAX && !s.customers[i].isDeleted
    requires row.key.Some? ==> Find(s.rows, RowKey, Some(row.key.value)).None?
    requires Consistent(books)
    requires BalanceOf(books, AccountsReceivable) == BalanceOf(s.books, AccountsReceivable) + row.after - row.before
    ensures Good(WithRow(s.(books := books), i, row))
  {
    hide BalancesFollowRows, RowIsSound, Consistent, Find, GoodSales;
    RowExtendsChain(s.customers, s.rows, i, row);
    SumUpdate(s.customers, i, s.customers[i].(balance := row.after), BalanceField);
  }

  /** A movement with no customer, or of nothing, leaves the control account where it was. */
  lemma {:induction false} UncontrolledKeeps(s: Shop, books: Books)
    requires Good(s) && Consistent(books)
    requires BalanceOf(books, AccountsReceivable) == BalanceOf(s.books, AccountsReceivable)
    ensures Good(s.(books := books))
  {}

  /** A sale's posting: never refused, and raising receivables by the credit given. */
  lemma {:induction false} SalePosts(b: Books, source: Source, f: Figures)
    requires Consistent(b) && Settled(f)
    ensures var r := PostNew(b, source, SalePosting.SaleLedgerEntries(f.tenders, f.udhar, f.taxable, f.tax, f.roundOff, f.cost));
      && r != Err(LedgerRefused)
      && (r.Ok? ==> Consistent(r.value) && BalanceOf(r.value, AccountsReceivable) == BalanceOf(b, AccountsReceivable) + f.udhar)
  {
    hide Posted, Consistent, BalanceOf, SalePosting.SaleLedgerEntries;
    var entries := SalePosting.SaleLedgerEntries(f.tenders, f.udhar, f.taxable, f.tax, f.roundOff, f.cost);
    SalePosting.SettledDocumentBalances(f.tenders, f.udhar, f.taxable, f.tax, f.roundOff, f.cost);
    SalePosting.ReceivableMoves(f.tenders, f.udhar, f.taxable, f.tax, f.roundOff, f.cost);
    BalancedPostingIsAccepted(b, source, entries);
    if PostNew(b, source, entries).Ok? {
      PostNewMoves(b, source, entries);
    }
  }

  /** A settled bill is never refused by the books, and a sale on credit keeps everything in step. */
  lemma {:induction false} SaleKeeps(s: Shop, id: string, rowId: string, customer: Option<string>, f: Figures, manager: bool)
    requires Good(s) && Settled(f)
    ensures Sold(s, id, rowId, customer, f, manager) != Err(LedgerRefused)
    ensures Sold(s, id, rowId, customer, f, manager).Ok? ==> Good(Sold(s, id, rowId, customer, f, manager).value)
  {
    hide PostNew, BalancesFollowRows, Consistent, Find, KeysAreUnique, BalanceOf, SalePosting.SaleLedgerEntries;
    hide WithRow, GoodSales, Sum;
    var source := Source(SaleSource, Document(id));
    SalePosts(s.books, source, f);
    if Sold(s, id, rowId, customer, f, manager).Ok? {
      var books := PostNew(s.books, source, SalePosting.SaleLedgerEntries(f.tenders, f.udhar, f.taxable, f.tax, f.roundOff, f.cost)).value;
      var t := s.(sales := s.sales + [Sale(id, customer, f, 0, false, false)]);
      SaleIsGood(s.sales, t.sales[|s.sales|]);
      var i := if customer.Some? then Find(s.customers, CustomerId, customer.value) else None;
      if i.Some? && f.udhar > 0 {
        var before := s.customers[i.value].balance;
        InBounds(s.customers, s.rows, i.value);
        MovementKeeps(t, i.value, Row(rowId, customer.value, CreditRow, f.udhar, before, before + f.udhar, None, None), books);
      } else {
        UncontrolledKeeps(t, books);
      }
    }
  }

  lemma {:induction false} SaleIsGood(sales: seq<Sale>, sale: Sale)
    requires GoodSales(sales) && Settled(sale.figures) && sale.creditReversed == 0
    ensures GoodSales(sales + [sale])
  {
    hide Sum;
  }

  lemma {:induction false} InBounds(customers: seq<Customer>, rows: seq<Row>, i: nat)
    requires BalancesFollowRows(customers, rows) && i < |customers|
    ensures -MONEY_MAX <= customers[i].balance <= MONEY_MAX
    ensures customers[i].isDeleted ==> customers[i].balance == 0
  {
    hide Find, RowIsSound;
    assert ChainEnd(rows, customers[i].id) == Some(customers[i].balance);
  }

  lemma {:induction false} PaymentPosts(b: Books, p: Payment, rowId: string)
    requires Consistent(b) && 0 < p.amount
    ensures var r := PostNew(b, Source(CustomerPaymentSource, Document(rowId)), PaymentEntries(p));
      && r != Err(LedgerRefused)
      && (r.Ok? ==> Consistent(r.value) && BalanceOf(r.value, AccountsReceivable) == BalanceOf(b, AccountsReceivable) - p.amount)
  {
    hide Posted, Consistent, BalanceOf;
    var source, entries := Source(CustomerPaymentSource, Document(rowId)), PaymentEntries(p);
    TwoEntries(entries[0], entries[1], DebitAmount);
    TwoEntries(entries[0], entries[1], CreditAmount);
    TwoEntries(entries[0], entries[1], SignedEntry(AccountsReceivable));
    BalancedPostingIsAccepted(b, source, entries);
    if PostNew(b, source, entries).Ok? {
      PostNewMoves(b, source, entries);
    }
  }

  lemma {:induction false} PaymentKeeps(s: Shop, p: Payment, rowId: string)
    requires Good(s) && 0 < p.amount
    ensures Paid(s, p, rowId) != Err(LedgerRefused)
    ensures Paid(s, p, rowId).Ok? ==> Good(Paid(s, p, rowId).value)
  {
    hide PostNew, BalancesFollowRows, Consistent, KeysAreUnique, BalanceOf, Find, GoodSales, PaymentEntries, WithRow;
    PaymentPosts(s.books, p, rowId);
    if Paid(s, p, rowId).Ok? {
      var i := Find(s.customers, CustomerId, p.customer).value;
      var before := s.customers[i].balance;
      InBounds(s.customers, s.rows, i);
      MovementKeeps(s, i, Row(rowId, p.customer, PaymentRow, p.amount, before, before - p.amount, Some(p.tender), Some(Client(p.key))),
                    PostNew(s.books, Source(CustomerPaymentSource, Document(rowId)), PaymentEntries(p)).value);
    }
  }

  lemma {:induction false} OpeningPosts(b: Books, value: int, rowId: string)
    requires Consistent(b) && value != 0
    ensures var r := PostNew(b, Source(OpeningBalanceSource, Document(rowId)), OpeningEntries(value));
      && r != Err(LedgerRefused)
      && (r.Ok? ==> Consistent(r.value) && BalanceOf(r.value, AccountsReceivable) == BalanceOf(b, AccountsReceivable) + value)
  {
    hide Posted, Consistent, BalanceOf;
    var source, entries := Source(OpeningBalanceSource, Document(rowId)), OpeningEntries(value);
    TwoEntries(entries[0], entries[1], DebitAmount);
    TwoEntries(entries[0], entries[1], CreditAmount);
    TwoEntries(entries[0], entries[1], SignedEntry(AccountsReceivable));
    BalancedPostingIsAccepted(b, source, entries);
    if PostNew(b, source, entries).Ok? {
      PostNewMoves(b, source, entries);
    }
  }

  lemma {:induction false} OpeningKeeps(s: Shop, customer: string, value: int, manager: bool, rowId: string)
    requires Good(s)
    ensures OpeningRecorded(s, customer, value, manager, rowId) != Err(LedgerRefused)
    ensures OpeningRecorded(s, customer, value, manager, rowId).Ok? ==> Good(OpeningRecorded(s, customer, value, manager, rowId).value.0)
  {
    hide PostNew, BalancesFollowRows, Consistent, Find, KeysAreUnique, BalanceOf, GoodSales, WithRow;
    if value != 0 {
      OpeningPosts(s.books, value, rowId);
      var r := OpeningRecorded(s, customer, value, manager, rowId);
      if r.Ok? && r.value.1.CreatedRow? {
        var i := Find(s.customers, CustomerId, customer).value;
        MovementKeeps(s, i, Row(rowId, customer, AdjustmentRow, Abs(value), 0, value, None, Some(Opening(customer))),
                      PostNew(s.books, Source(OpeningBalanceSource, Document(rowId)), OpeningEntries(value)).value);
      }
    }
  }

  /** A reversal's posting: never refused, and lowering receivables by the credit it reverses. */
  lemma {:induction false} ReversalPosts(b: Books, source: Source, tenders: seq<Invoice.Tender>, reversal: int, f: Figures)
    requires Consistent(b) && SalePosting.NoneNegative(tenders) && 0 <= reversal && 0 <= f.taxable && 0 <= f.tax
    requires Sum(tenders, Invoice.TenderAmount) + reversal == f.Total()
    ensures var r := PostNew(b, source, SalePosting.ReversalLedgerEntries(tenders, reversal, f.taxable, f.tax, f.roundOff, f.cost));
      && r != Err(LedgerRefused)
      && (r.Ok? ==> Consistent(r.value) && BalanceOf(r.value, AccountsReceivable) == BalanceOf(b, AccountsReceivable) - reversal)
  {
    hide Posted, Consistent, BalanceOf, SalePosting.ReversalLedgerEntries;
    var entries := SalePosting.ReversalLedgerEntries(tenders, reversal, f.taxable, f.tax, f.roundOff, f.cost);
    SalePosting.SettledDocumentBalances(tenders, reversal, f.taxable, f.tax, f.roundOff, f.cost);
    SalePosting.ReceivableMoves(tenders, reversal, f.taxable, f.tax, f.roundOff, f.cost);
    BalancedPostingIsAccepted(b, source, entries);
    if PostNew(b, source, entries).Ok? {
      PostNewMoves(b, source, entries);
    }
  }

  /** Reversing credit never takes a customer below zero, and a deleted one not at all. */
  lemma {:induction false} CreditReversalKeeps(
      s: Shop, sales: seq<Sale>, i: Option<nat>, refund: int, reversible: int, rowId: string, books: Books)
    requires Good(s) && GoodSales(sales) && (i.Some? ==> i.value < |s.customers|) && 0 <= refund && Consistent(books)
    requires var reversal := if i.Some? then CreditReversal(refund, reversible, s.customers[i.value].balance) else 0;
      BalanceOf(books, AccountsReceivable) == BalanceOf(s.books, AccountsReceivable) - reversal
    ensures var reversal := if i.Some? then CreditReversal(refund, reversible, s.customers[i.value].balance) else 0;
      Good(CreditReversed(s.(books := books, sales := sales), i, reversal, rowId))
  {
    hide BalancesFollowRows, Consistent, KeysAreUnique, BalanceOf, Find, GoodSales, WithRow;
    var reversal := if i.Some? then CreditReversal(refund, reversible, s.customers[i.value].balance) else 0;
    var t := s.(sales := sales);
    if reversal > 0 {
      var before := s.customers[i.value].balance;
      InBounds(s.customers, s.rows, i.value);
      MovementKeeps(t, i.value, Row(rowId, s.customers[i.value].id, AdjustmentRow, reversal, before, before - reversal, None, None), books);
    } else {
      UncontrolledKeeps(t, books);
    }
  }

  /** Credit first: a refund cancels as much credit as it, the sale and the customer's balance allow, and no more. */
  lemma {:induction false} CreditComesFirst(refund: nat, reversible: int, balance: int, credit: int)
    ensures 0 <= CreditReversal(refund, reversible, balance)
    ensures 0 < credit ==>
      (credit <= CreditReversal(refund, reversible, balance) <==> credit <= refund && credit <= reversible && credit <= balance)
  {}

  lemma {:induction false} KeptCovers(tender: Invoice.TenderType, amount: nat)
    ensures SalePosting.NoneNegative(SalePosting.Kept(tender, amount))
    ensures Sum(SalePosting.Kept(tender, amount), Invoice.TenderAmount) == amount
  {
    if amount > 0 {
      assert SalePosting.Kept(tender, amount)[..0] == [];
    }
  }

  lemma {:induction false} ReversedSaleIsGood(sales: seq<Sale>, k: nat, sale: Sale)
    requires GoodSales(sales) && k < |sales|
    requires sale.figures == sales[k].figures && 0 <= sale.creditReversed <= sale.figures.udhar && (sale.hasReturns || sale.cancelled)
    ensures GoodSales(sales[k := sale])
  {
    hide Settled;
  }

  lemma {:induction false} SaleFacts(sales: seq<Sale>, k: nat)
    requires GoodSales(sales) && k < |sales|
    ensures Settled(sales[k].figures) && 0 <= sales[k].creditReversed <= sales[k].figures.udhar
    ensures !sales[k].hasReturns && !sales[k].cancelled ==> sales[k].creditReversed == 0
  {
    hide Settled;
  }

  /** A return reverses no more credit than its sale still holds, and keeps everything in step. */
  lemma {:induction false} ReturnKeeps(s: Shop, id: string, rowId: string, saleId: string, f: Figures, tender: Invoice.TenderType)
    requires Good(s) && 0 <= f.taxable && 0 <= f.tax && 0 <= f.Total()
    ensures ReturnRecorded(s, id, rowId, saleId, f, tender) != Err(LedgerRefused)
    ensures ReturnRecorded(s, id, rowId, saleId, f, tender).Ok? ==> Good(ReturnRecorded(s, id, rowId, saleId, f, tender).value)
  {
    hide PostNew, BalancesFollowRows, Consistent, Find, KeysAreUnique, BalanceOf, GoodSales, Settled, CreditReversed;
    hide SalePosting.ReversalLedgerEntries, SalePosting.Kept;
    var k := Find(s.sales, SaleId, saleId);
    if k.Some? && !s.sales[k.value].cancelled && ReversalOf(s, s.sales[k.value], f.Total()).Ok? {
      var sale := s.sales[k.value];
      var (i, reversal) := ReversalOf(s, sale, f.Total()).value;
      SaleFacts(s.sales, k.value);
      var source, tenders := Source(ReturnSource, Document(id)), SalePosting.Kept(tender, f.Total() - reversal);
      KeptCovers(tender, f.Total() - reversal);
      ReversalPosts(s.books, source, tenders, reversal, f);
      var posted := PostNew(s.books, source, SalePosting.ReversalLedgerEntries(tenders, reversal, f.taxable, f.tax, f.roundOff, f.cost));
      if posted.Ok? {
        var after := sale.(creditReversed := sale.creditReversed + reversal, hasReturns := true);
        ReversedSaleIsGood(s.sales, k.value, after);
        CreditReversalKeeps(s, s.sales[k.value := after], i, f.Total(), sale.figures.udhar - sale.creditReversed, rowId, posted.value);
      }
    }
  }

  /** A cancellation is never refused by the books and keeps everything in step; repaid credit leaves in cash. */
  lemma {:induction false} CancellationKeeps(s: Shop, saleId: string, rowId: string)
    requires Good(s)
    ensures Cancelled(s, saleId, rowId) != Err(LedgerRefused)
    ensures Cancelled(s, saleId, rowId).Ok? ==> Good(Cancelled(s, saleId, rowId).value)
  {
    hide PostNew, BalancesFollowRows, Consistent, Find, KeysAreUnique, BalanceOf, GoodSales, CreditReversed;
    hide SalePosting.ReversalLedgerEntries, SalePosting.PaidBack;
    var k := Find(s.sales, SaleId, saleId);
    if k.Some? && !s.sales[k.value].cancelled && !s.sales[k.value].hasReturns
      && ReversalOf(s, s.sales[k.value], s.sales[k.value].figures.udhar).Ok? {
      var sale := s.sales[k.value];
      var f := sale.figures;
      var (i, reversal) := ReversalOf(s, sale, f.udhar).value;
      SaleFacts(s.sales, k.value);
      var source, tenders := Source(CancellationSource, Document(saleId)), SalePosting.PaidBack(f.tenders, f.udhar - reversal);
      SalePosting.PaidBackCovers(f.tenders, f.udhar - reversal);
      ReversalPosts(s.books, source, tenders, reversal, f);
      var posted := PostNew(s.books, source, SalePosting.ReversalLedgerEntries(tenders, reversal, f.taxable, f.tax, f.roundOff, f.cost));
      if posted.Ok? {
        var after := sale.(creditReversed := reversal, cancelled := true);
        ReversedSaleIsGood(s.sales, k.value, after);
        CreditReversalKeeps(s, s.sales[k.value := after], i, f.udhar, f.udhar - sale.creditReversed, rowId, posted.value);
      }
    }
  }

  datatype Op =
    | AddCustomer(customer: string, limit: int)
    | EditCustomer(customer: string, limit: int, active: bool)
    | RemoveCustomer(customer: string)
    | Sell(id: string, rowId: string, buyer: Option<string>, figures: Figures, manager: bool)
    | Pay(seenRows: nat, payment: Payment, rowId: string)
    | Open(customer: string, value: int, manager: bool, rowId: string)
    | Return(id: string, rowId: string, saleId: string, figures: Figures, tender: Invoice.TenderType)
    | Cancel(saleId: string, rowId: string)
    | PostOther(posting: Posting)

  /** A posting of another module: it names no receivable. */
  ghost predicate Foreign(p: Posting) { Sum(Normalised(p.entries), SignedEntry(AccountsReceivable)) == 0 }

  /** The shop after a transaction; a refused one, and figures the engine does not produce, change nothing. */
  ghost function Step(s: Shop, op: Op): Shop {
    match op
    case AddCustomer(id, limit) =>
      if Find(s.customers, CustomerId, id).Some? then s else s.(customers := s.customers + [Customer(id, 0, limit, true, false)])
    case EditCustomer(id, limit, active) =>
      var i := Find(s.customers, CustomerId, id);
      if i.None? || s.customers[i.value].isDeleted then s
      else s.(customers := s.customers[i.value := s.customers[i.value].(creditLimit := limit, isActive := active)])
    case RemoveCustomer(id) => Or(Deleted(s, id), s)
    case Sell(id, rowId, buyer, f, manager) => if Settled(f) then Or(Sold(s, id, rowId, buyer, f, manager), s) else s
    case Pay(k, p, rowId) => PaymentRecorded(s.rows[..Min(k, |s.rows|)], s, p, rowId).0
    case Open(id, value, manager, rowId) =>
      var r := OpeningRecorded(s, id, value, manager, rowId);
      if r.Ok? then r.value.0 else s
    case Return(id, rowId, saleId, f, tender) =>
      if 0 <= f.taxable && 0 <= f.tax && 0 <= f.Total() then Or(ReturnRecorded(s, id, rowId, saleId, f, tender), s) else s
    case Cancel(saleId, rowId) => Or(Cancelled(s, saleId, rowId), s)
    case PostOther(p) => if Foreign(p) && Posted(s.books, p).Ok? then s.(books := Posted(s.books, p).value.0) else s
  }

  function Or(r: Result<Shop, Error>, s: Shop): Shop { if r.Ok? then r.value else s }

  lemma {:induction false} NewCustomerKeeps(s: Shop, id: string, limit: int)
    requires Good(s) && Find(s.customers, CustomerId, id).None?
    ensures Good(s.(customers := s.customers + [Customer(id, 0, limit, true, false)]))
  {
    hide Find, RowIsSound, Consistent;
    var c := Customer(id, 0, limit, true, false);
    var after := s.customers + [c];
    SumSnoc(s.customers, c, BalanceField);
    forall k | 0 <= k < |s.rows| ensures Find(after, CustomerId, s.rows[k].customer).Some? && s.rows[k].customer != id {
      var i := Find(s.customers, CustomerId, s.rows[k].customer).value;
      assert after[i].id == s.rows[k].customer;
    }
    NoRowsNoChain(s.rows, id);
  }

  lemma {:induction false} NoRowsNoChain(rows: seq<Row>, customer: string)
    requires forall i | 0 <= i < |rows| :: rows[i].customer != customer
    ensures ChainEnd(rows, customer) == Some(0)
  {
    if rows != [] {
      NoRowsNoChain(rows[..|rows| - 1], customer);
    }
  }

  lemma {:induction false} SameBalanceKeeps(s: Shop, i: nat, c: Customer)
    requires Good(s) && i < |s.customers| && c.id == s.customers[i].id && c.balance == s.customers[i].balance
    requires c.isDeleted ==> c.balance == 0
    ensures Good(s.(customers := s.customers[i := c]))
  {
    hide Find, RowIsSound, Consistent, ChainEnd;
    SumUpdate(s.customers, i, c, BalanceField);
    forall k | 0 <= k < |s.rows| ensures Find(s.customers[i := c], CustomerId, s.rows[k].customer).Some? {
      FindUpdate(s.customers, i, c, CustomerId, s.rows[k].customer);
    }
  }

  lemma {:induction false} ForeignKeeps(s: Shop, p: Posting)
    requires Good(s) && Foreign(p) && Posted(s.books, p).Ok?
    ensures Good(s.(books := Posted(s.books, p).value.0))
  {
    hide Posted, Consistent, BalanceOf, BalancesFollowRows, Normalised;
    PostingKeepsBooks(s.books, p);
    var c := Posted(s.books, p).value.0;
    if Posted(s.books, p).value.1 {
      PostedBalance(s.books, p, AccountsReceivable);
    } else {
      Unwritten(s.books, p);
    }
  }

  lemma {:induction false} StepKeepsGood(s: Shop, op: Op)
    requires Good(s)
    ensures Good(Step(s, op))
  {
    hide Posted, Find, PostNew, KeysAreUnique, GoodSales, BalancesFollowRows, Controlled, CreditCheck, Sold, Paid;
    hide ReturnRecorded, Cancelled, OpeningRecorded, Replay;
    match op
    case AddCustomer(id, limit) =>
      if Find(s.customers, CustomerId, id).None? {
        NewCustomerKeeps(s, id, limit);
      }
    case EditCustomer(id, limit, active) =>
      var i := Find(s.customers, CustomerId, id);
      if i.Some? && !s.customers[i.value].isDeleted {
        SameBalanceKeeps(s, i.value, s.customers[i.value].(creditLimit := limit, isActive := active));
      }
    case RemoveCustomer(id) =>
      if Deleted(s, id).Ok? {
        var i := Find(s.customers, CustomerId, id).value;
        SameBalanceKeeps(s, i, s.customers[i].(isDeleted := true, isActive := false));
      }
    case Sell(id, rowId, buyer, f, manager) =>
      if Settled(f) {
        SaleKeeps(s, id, rowId, buyer, f, manager);
      }
    case Pay(k, p, rowId) =>
      if 0 < p.amount {
        PaymentKeeps(s, p, rowId);
        PaymentRecordedState(s.rows[..Min(k, |s.rows|)], s, p, rowId);
      }
    case Open(id, value, manager, rowId) => OpeningKeeps(s, id, value, manager, rowId);
    case Return(id, rowId, saleId, f, tender) =>
      if 0 <= f.taxable && 0 <= f.tax && 0 <= f.Total() {
        ReturnKeeps(s, id, rowId, saleId, f, tender);
      }
    case Cancel(saleId, rowId) => CancellationKeeps(s, saleId, rowId);
    case PostOther(p) =>
      if Foreign(p) && Posted(s.books, p).Ok? {
        ForeignKeeps(s, p);
      }
  }

  lemma {:induction false} PaymentRecordedState(seen: seq<Row>, s: Shop, p: Payment, rowId: string)
    ensures PaymentRecorded(seen, s, p, rowId).0 == s
      || (Paid(s, p, rowId).Ok? && PaymentRecorded(seen, s, p, rowId).0 == Paid(s, p, rowId).value)
  {
    hide PostNew, Find;
  }

  ghost function Run(s: Shop, ops: seq<Op>): Shop {
    if ops == [] then s else Step(Run(s, ops[..|ops| - 1]), ops[|ops| - 1])
  }

  /**
   * After any run of sales, repayments, openings, returns, cancellations and
   * other postings: receivables in the books are the sum of the customers'
   * balances, each customer's rows form an unbroken chain from zero to the
   * balance, every balance is within the column's bound, and deleted
   * customers owe nothing.
   */
  lemma {:induction false} EveryRunIsControlled(ops: seq<Op>)
    ensures Good(Run(Shop([], [], [], EmptyBooks), ops))
  {
    hide Good, Step;
    if ops == [] {
      NoShopIsGood();
    } else {
      EveryRunIsControlled(ops[..|ops| - 1]);
      StepKeepsGood(Run(Shop([], [], [], EmptyBooks), ops[..|ops| - 1]), ops[|ops| - 1]);
    }
  }

  lemma {:induction false} NoShopIsGood()
    ensures Good(Shop([], [], [], EmptyBooks))
  {
    hide DebitSide, CreditSide;
    assert DebitSide(EmptyBooks) == CreditSide(EmptyBooks) by {
      EmptySides();
    }
  }

  lemma {:induction false} EmptySides()
    ensures DebitSide(EmptyBooks) == CreditSide(EmptyBooks)
  {}

  /** Without consent to an advance, a repayment never leaves the customer in credit. */
  lemma {:induction false} AdvanceNeedsConsent(s: Shop, p: Payment, rowId: string)
    requires Paid(s, p, rowId).Ok? && !p.allowAdvance
    ensures var t := Paid(s, p, rowId).value;
      var i := Find(s.customers, CustomerId, p.customer).value;
      && Find(s.customers, CustomerId, p.customer).Some? && i < |t.customers|
      && 0 <= t.customers[i].balance == s.customers[i].balance - p.amount
  {
    hide PostNew, Find, PaymentEntries;
  }

  /** Only a manager sells on credit past a customer's limit. */
  lemma {:induction false} CreditLimitHolds(s: Shop, id: string, rowId: string, customer: string, f: Figures, manager: bool)
    requires Sold(s, id, rowId, Some(customer), f, manager).Ok? && 0 < f.udhar && !manager
    ensures var t := Sold(s, id, rowId, Some(customer), f, manager).value;
      var i := Find(s.customers, CustomerId, customer).value;
      && Find(s.customers, CustomerId, customer).Some? && i < |t.customers|
      && t.customers[i].balance == s.customers[i].balance + f.udhar <= t.customers[i].creditLimit
  {
    hide PostNew, SalePosting.SaleLedgerEntries;
  }

  /**
   * A repayment key moves money at most once. Whatever the replay check saw,
   * a successful answer names the one row of the key, for the same customer,
   * amount and tender; an already used key and a refusal change nothing.
   */
  lemma {:induction false} KeyPaysOnce(seenRows: nat, s: Shop, p: Payment, rowId: string)
    requires Good(s) && seenRows <= |s.rows|
    ensures var (t, answer) := PaymentRecorded(s.rows[..seenRows], s, p, rowId);
      && KeysAreUnique(t.rows)
      && (Find(s.rows, RowKey, Some(Client(p.key))).Some? || answer.Err? ==> t == s)
      && (answer.Ok? ==>
            && answer.value in t.rows && answer.value.key == Some(Client(p.key))
            && answer.value.customer == p.customer && answer.value.amount == p.amount && answer.value.tender == Some(p.tender))
  {
    hide PostNew, Find, BalancesFollowRows, Controlled, GoodSales, KeysAreUnique, PaymentEntries;
    var seen := s.rows[..seenRows];
    assert forall i | 0 <= i < |seen| :: seen[i] == s.rows[i];
    if 0 < p.amount {
      PaymentKeeps(s, p, rowId);
    }
    var (t, answer) := PaymentRecorded(seen, s, p, rowId);
    var source := Source(CustomerPaymentSource, Document(rowId));
    if PostNew(s.books, source, PaymentEntries(p)).Err? {
      PostNewErrors(s.books, source, PaymentEntries(p));
    }
    var i := Find(seen, RowKey, Some(Client(p.key)));
    if i.Some? {
      assert seen[i.value] == s.rows[i.value] && s.rows[i.value] in s.rows;
      assert s.rows[i.value].key == Some(Client(p.key));
    } else if 0 < p.amount && Paid(s, p, rowId).Ok? {
      assert t.rows[|t.rows| - 1] in t.rows;
    }
  }

  /** Where a repayment's money ends up: the drawer for cash, the bank otherwise, against receivables and nothing else. */
  lemma {:induction false} RepaymentReaches(b: Books, p: Payment, rowId: string, a: Account)
    requires Consistent(b) && 0 < p.amount && PostNew(b, Source(CustomerPaymentSource, Document(rowId)), PaymentEntries(p)).Ok?
    ensures BalanceOf(PostNew(b, Source(CustomerPaymentSource, Document(rowId)), PaymentEntries(p)).value, a) - BalanceOf(b, a)
         == if a == AccountsReceivable then -p.amount
            else if a == Cash && p.tender.Cash? then p.amount
            else if a == Bank && !p.tender.Cash? then p.amount
            else 0
  {
    hide Posted, Consistent, BalanceOf;
    var entries := PaymentEntries(p);
    PostedMoves(b, Source(CustomerPaymentSource, Document(rowId)), entries, a);
    TwoEntries(entries[0], entries[1], SignedEntry(a));
  }
}
