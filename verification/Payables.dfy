/** What the shop owes its suppliers: running balances kept beside the postings that move them. */
module Payables {
  import opened Common
  import opened Ledger

  datatype Tender = InCash | ByUpi | ByCard | ByBankTransfer

  datatype Supplier = Supplier(id: string, opening: int, pending: int, isDeleted: bool)

  datatype Payment = Payment(id: string, supplier: string, amount: int, tender: Tender, key: Option<string>, bill: Option<string>)

  /** An issued credit note; `debit` is what it took off the payable. */
  datatype Note = Note(id: string, returnId: Option<string>, total: int, debit: int)

  /**
   * `owners` names the supplier of every posted document that has one;
   * `returned` holds the completed purchase returns and what each took off the payable.
   */
  datatype Shop = Shop(
    suppliers: seq<Supplier>, payments: seq<Payment>, notes: seq<Note>,
    returned: map<string, int>, owners: map<Source, string>, books: Books)

  datatype Error =
    | SupplierNotFound | PaymentInvalid | KeyReused | PayablesInsufficient
    | ReturnNotCompleted | DuplicateId | LedgerRefused

  function SupplierId(s: Supplier): string { s.id }
  function PaymentKey(p: Payment): Option<string> { p.key }

  function MovePayable(s: Shop, i: nat, delta: int): Shop
    requires i < |s.suppliers|
  {
    s.(suppliers := s.suppliers[i := s.suppliers[i].(pending := s.suppliers[i].pending + delta)])
  }

  /** A document's posting, then its supplier's balance; a source posted before posts and moves nothing. */
  function PostedWithPayable(s: Shop, supplier: Option<string>, source: Source, entries: seq<Entry>, delta: int): Result<(Shop, bool), Error> {
    var i := if supplier.Some? then Find(s.suppliers, SupplierId, supplier.value) else None;
    if supplier.Some? && i.None? then Err(SupplierNotFound) else
    match Posted(s.books, Posting(source, AsInputs(entries)))
    case Err(_) => Err(LedgerRefused)
    case Ok((books, posted)) =>
      var owners := if posted && supplier.Some? then s.owners[source := supplier.value] else s.owners;
      var t := s.(books := books, owners := owners);
      Ok((if posted && i.Some? && delta != 0 then MovePayable(t, i.value, delta) else t, posted))
  }

  // ---------------------------------------------------------------------------
  // The documents
  // ---------------------------------------------------------------------------

  /** Debits of accounts against payables, or payables against credits, by the sign of the amount. */
  function Against(account: Account, amount: int): seq<Entry> {
    if amount > 0 then [Entry(account, Debit, amount)] else if amount < 0 then [Entry(account, Credit, -amount)] else []
  }

  function ReceiptEntries(value: int): seq<Entry> { [Entry(Inventory, Debit, value), Entry(AccountsPayable, Credit, value)] }

  function Received(s: Shop, id: string, supplier: Option<string>, value: int): Result<Shop, Error> {
    if value <= 0 then Ok(s) else
    match PostedWithPayable(s, supplier, Source(GrnSource, Document(id)), ReceiptEntries(value), value)
    case Err(e) => Err(e)
    case Ok((t, _)) => Ok(t)
  }

  function ReturnEntries(value: int): seq<Entry> { [Entry(AccountsPayable, Debit, value), Entry(Inventory, Credit, value)] }

  /** A purchase return completes once; its goods leave at their net cost. */
  function SentBack(s: Shop, id: string, supplier: Option<string>, value: int): Result<Shop, Error> {
    if id in s.returned then Err(DuplicateId)
    else if value <= 0 then Ok(s.(returned := s.returned[id := 0]))
    else
      match PostedWithPayable(s, supplier, Source(PurchaseReturnSource, Document(id)), ReturnEntries(value), -value)
      case Err(e) => Err(e)
      case Ok((t, posted)) => Ok(t.(returned := t.returned[id := if posted then value else 0]))
  }

  datatype BillLine = BillLine(base: int, tax: int, receiptValue: int, stocked: bool)

  function LineTax(l: BillLine): int { l.tax }
  function LineDifference(l: BillLine): int { if l.stocked then l.base - l.receiptValue else 0 }
  function LineExpense(l: BillLine): int { if l.stocked then 0 else l.base }
  function LinePayable(l: BillLine): int { l.base + l.tax - (if l.stocked then l.receiptValue else 0) }

  /** What a vendor bill adds to the books that its receipts could not know, and what it adds to the payable. */
  function PostingPlan(lines: seq<BillLine>): (seq<Entry>, int) {
    var tax, difference, expenses := Sum(lines, LineTax), Sum(lines, LineDifference), Sum(lines, LineExpense);
    var delta := tax + difference + expenses;
    ((if tax > 0 then [Entry(InputGst, Debit, tax)] else [])
     + Against(Inventory, difference)
     + (if expenses > 0 then [Entry(Expenses, Debit, expenses)] else [])
     + Against(AccountsPayable, -delta),
     delta)
  }

  function Billed(s: Shop, id: string, supplier: string, lines: seq<BillLine>): Result<Shop, Error> {
    var (entries, delta) := PostingPlan(lines);
    if entries == [] then Ok(s) else
    match PostedWithPayable(s, Some(supplier), Source(VendorBillSource, Document(id)), entries, delta)
    case Err(e) => Err(e)
    case Ok((t, _)) => Ok(t)
  }

  function ForReturn(returnId: string): Note -> int {
    (n: Note) => if n.returnId == Some(returnId) then n.total else 0
  }

  function DebitForReturn(returnId: string): Note -> int {
    (n: Note) => if n.returnId == Some(returnId) then n.debit else 0
  }

  /** What a note takes off the payable: all of it, or the part of its return's notes above what the return already took. */
  function NoteDebit(s: Shop, returnId: Option<string>, total: int): int
    requires returnId.Some? ==> returnId.value in s.returned
  {
    if returnId.None? then total else
    var taken, before := s.returned[returnId.value], Sum(s.notes, ForReturn(returnId.value));
    Max(before + total - taken, 0) - Max(before - taken, 0)
  }

  function NoteEntries(returnId: Option<string>, total: int, tax: int, debit: int): seq<Entry> {
    if returnId.None? then
      var gst := Min(tax, total);
      [Entry(AccountsPayable, Debit, debit)]
      + (if gst > 0 then [Entry(InputGst, Credit, gst)] else [])
      + (if total - gst > 0 then [Entry(Inventory, Credit, total - gst)] else [])
    else if debit > 0 then [Entry(AccountsPayable, Debit, debit), Entry(InputGst, Credit, debit)]
    else []
  }

  function NoteIssued(
      s: Shop, id: string, supplier: string, returnId: Option<string>, total: int, tax: int): Result<Shop, Error> {
    var source := Source(SupplierCreditNoteSource, Document(id));
    if source in s.books.postings then Err(DuplicateId)
    else if returnId.Some? && returnId.value !in s.returned then Err(ReturnNotCompleted)
    else
      var debit := NoteDebit(s, returnId, total);
      var t := s.(notes := s.notes + [Note(id, returnId, total, debit)]);
      var entries := NoteEntries(returnId, total, tax, debit);
      if entries == [] then Ok(t) else
      match PostedWithPayable(t, Some(supplier), source, entries, -debit)
      case Err(e) => Err(e)
      case Ok((u, _)) => Ok(u)
  }

  function OpeningEntries(opening: int): seq<Entry> { [Entry(OpeningBalanceEquity, Debit, opening), Entry(AccountsPayable, Credit, opening)] }

  function Created(s: Shop, id: string, opening: int): Result<Shop, Error> {
    var source := Source(SupplierOpeningBalanceSource, Document(id));
    if Find(s.suppliers, SupplierId, id).Some? || source in s.books.postings then Err(DuplicateId) else
    var t := s.(suppliers := s.suppliers + [Supplier(id, opening, opening, false)]);
    if opening <= 0 then Ok(t) else
    match Posted(s.books, Posting(source, AsInputs(OpeningEntries(opening))))
    case Err(_) => Err(LedgerRefused)
    case Ok((books, _)) => Ok(t.(books := books))
  }

  // ---------------------------------------------------------------------------
  // Payments
  // ---------------------------------------------------------------------------

  datatype PaymentInput = PaymentInput(supplier: string, amount: int, tender: Tender, key: Option<string>, bill: Option<string>)

  function PaymentEntries(p: PaymentInput): seq<Entry> {
    [Entry(AccountsPayable, Debit, p.amount), Entry(if p.tender.InCash? then Cash else Bank, Credit, p.amount)]
  }

  /** The stored payment of a key, when the request repeats it; the tender is not compared. */
  function Replay(payments: seq<Payment>, p: PaymentInput): Option<Result<Payment, Error>> {
    var found := if p.key.Some? then Find(payments, PaymentKey, Some(p.key.value)) else None;
    if found.None? then None else
    var existing := payments[found.value];
    Some(if existing.supplier == p.supplier && existing.amount == p.amount && existing.bill == p.bill then Ok(existing) else Err(KeyReused))
  }

  /** A payment settles against what is owed and never takes the balance below zero. */
  function Paid(s: Shop, p: PaymentInput, id: string): Result<(Shop, Payment), Error> {
    var i := Find(s.suppliers, SupplierId, p.supplier);
    var source := Source(SupplierPaymentSource, Document(id));
    if p.amount <= 0 then Err(PaymentInvalid)
    else if i.None? || s.suppliers[i.value].isDeleted then Err(SupplierNotFound)
    else if Replay(s.payments, p).Some? then
      match Replay(s.payments, p).value
      case Err(e) => Err(e)
      case Ok(existing) => Ok((s, existing))
    else if s.suppliers[i.value].pending < p.amount then Err(PayablesInsufficient)
    else if source in s.books.postings then Err(DuplicateId)
    else
      match Posted(s.books, Posting(source, AsInputs(PaymentEntries(p))))
      case Err(_) => Err(LedgerRefused)
      case Ok((books, _)) =>
        var payment := Payment(id, p.supplier, p.amount, p.tender, p.key, p.bill);
        Ok((MovePayable(s.(payments := s.payments + [payment], owners := s.owners[source := p.supplier], books := books), i.value, -p.amount),
            payment))
  }

  class SupplierPayablesService {
    var suppliers: seq<Supplier>
    var payments: seq<Payment>
    var notes: seq<Note>
    var returned: map<string, int>
    var owners: map<Source, string>
    const ledger: LedgerPostingService

    ghost function State(): Shop
      reads this, ledger
    {
      Shop(suppliers, payments, notes, returned, owners, ledger.Contents())
    }

    constructor (ledger: LedgerPostingService)
      ensures this.ledger == ledger && State() == Shop([], [], [], map[], map[], ledger.Contents())
    {
      this.ledger := ledger;
      suppliers, payments, notes, returned, owners := [], [], [], map[], map[];
    }

    method PostWithPayable(supplier: Option<string>, source: Source, entries: seq<Entry>, delta: int) returns (r: Result<bool, Error>)
      modifies this, ledger
      ensures var spec := PostedWithPayable(old(State()), supplier, source, entries, delta);
        && (spec.Err? ==> r == Err(spec.error) && State() == old(State()))
        && (spec.Ok? ==> r == Ok(spec.value.1) && State() == spec.value.0)
    {
      hide Find, Posted;
      var i := if supplier.Some? then Find(suppliers, SupplierId, supplier.value) else None;
      if supplier.Some? && i.None? {
        return Err(SupplierNotFound);
      }
      var posted := ledger.Post(Posting(source, AsInputs(entries)));
      if posted.Err? {
        return Err(LedgerRefused);
      }
      if posted.value && supplier.Some? {
        owners := owners[source := supplier.value];
        if delta != 0 {
          suppliers := suppliers[i.value := suppliers[i.value].(pending := suppliers[i.value].pending + delta)];
        }
      }
      return Ok(posted.value);
    }

    method Pay(p: PaymentInput, id: string) returns (r: Result<Payment, Error>)
      modifies this, ledger
      ensures var spec := Paid(old(State()), p, id);
        && (spec.Err? ==> r == Err(spec.error) && State() == old(State()))
        && (spec.Ok? ==> r == Ok(spec.value.1) && State() == spec.value.0)
    {
      hide Find, Posted;
      if p.amount <= 0 {
        return Err(PaymentInvalid);
      }
      var i := Find(suppliers, SupplierId, p.supplier);
      if i.None? || suppliers[i.value].isDeleted {
        return Err(SupplierNotFound);
      }
      var replay := Replay(payments, p);
      if replay.Some? {
        return replay.value;
      }
      if suppliers[i.value].pending < p.amount {
        return Err(PayablesInsufficient);
      }
      var source := Source(SupplierPaymentSource, Document(id));
      if source in ledger.postings {
        return Err(DuplicateId);
      }
      var posted := ledger.Post(Posting(source, AsInputs(PaymentEntries(p))));
      if posted.Err? {
        return Err(LedgerRefused);
      }
      suppliers := suppliers[i.value := suppliers[i.value].(pending := suppliers[i.value].pending - p.amount)];
      var payment := Payment(id, p.supplier, p.amount, p.tender, p.key, p.bill);
      payments := payments + [payment];
      owners := owners[source := p.supplier];
      return Ok(payment);
    }
  }

  // ---------------------------------------------------------------------------
  // What every run keeps
  // ---------------------------------------------------------------------------

  /** What a row of one of the supplier's documents adds to what the supplier is owed. */
  function OwnedMove(owners: map<Source, string>, id: string): Txn -> int {
    (t: Txn) => if t.source in owners && owners[t.source] == id then Signed(AccountsPayable)(t) else 0
  }

  /** The balance the ledger implies for one supplier. */
  function PayablesFromLedger(s: Shop, supplier: Supplier): int {
    supplier.opening + Sum(s.books.transactions, OwnedMove(s.owners, supplier.id))
  }

  /** What a row without a supplier, supplier openings aside, adds to payables. */
  function UnownedMove(owners: map<Source, string>): Txn -> int {
    (t: Txn) => if t.source in owners || t.source.kind.SupplierOpeningBalanceSource? then 0 else Signed(AccountsPayable)(t)
  }

  function Pending(s: Supplier): int { s.pending }

  ghost predicate IdsAreUnique(suppliers: seq<Supplier>) {
    forall i, j | 0 <= i < j < |suppliers| :: suppliers[i].id != suppliers[j].id
  }

  ghost predicate KeysAreUnique(payments: seq<Payment>) {
    forall i, j | 0 <= i < j < |payments| && payments[i].key.Some? :: payments[i].key != payments[j].key
  }

  /** Owned sources are posted, and each belongs to a supplier that exists. */
  ghost predicate OwnersAreKnown(s: Shop) {
    forall source | source in s.owners ::
      source in s.books.postings && !source.kind.SupplierOpeningBalanceSource? && Find(s.suppliers, SupplierId, s.owners[source]).Some?
  }

  ghost predicate BalancesFollowLedger(s: Shop) {
    forall i | 0 <= i < |s.suppliers| :: s.suppliers[i].pending == PayablesFromLedger(s, s.suppliers[i])
  }

  /** The control account: what every supplier is owed, and what documents without a supplier left on it. */
  ghost predicate Controlled(s: Shop) {
    BalanceOf(s.books, AccountsPayable)
      == Sum(s.suppliers, Pending) + Sum(s.books.transactions, UnownedMove(s.owners))
  }

  /** A return and its notes together take off what is larger, its goods or its notes. */
  ghost predicate NotesAreCapped(s: Shop) {
    && (forall i | 0 <= i < |s.notes| :: 0 <= s.notes[i].total && (s.notes[i].returnId.Some? ==> s.notes[i].returnId.value in s.returned))
    && (forall id | id in s.returned ::
          s.returned[id] + Sum(s.notes, DebitForReturn(id)) == Max(s.returned[id], Sum(s.notes, ForReturn(id))))
  }

  ghost predicate Good(s: Shop) {
    && Consistent(s.books)
    && IdsAreUnique(s.suppliers)
    && KeysAreUnique(s.payments)
    && OwnersAreKnown(s)
    && BalancesFollowLedger(s)
    && Controlled(s)
    && NotesAreCapped(s)
  }

  /** A new source's posting, seen by each supplier's sum: its own supplier's moves by the net payable, no other does. */
  lemma {:induction false} OwnedAfter(
      b: Books, source: Source, entries: seq<Entry>, owners: map<Source, string>, supplier: Option<string>, id: string)
    requires SourcesAreUnique(b) && source !in b.postings && source !in owners && NonNegative(entries)
    requires Posted(b, Posting(source, AsInputs(entries))).Ok?
    ensures var after := if supplier.Some? then owners[source := supplier.value] else owners;
      Sum(Posted(b, Posting(source, AsInputs(entries))).value.0.transactions, OwnedMove(after, id))
        == Sum(b.transactions, OwnedMove(owners, id)) + (if supplier == Some(id) then Moved(entries, AccountsPayable) else 0)
  {
    hide Posted;
    var after := if supplier.Some? then owners[source := supplier.value] else owners;
    SumEqual(b.transactions, OwnedMove(after, id), b.transactions, OwnedMove(owners, id));
    if supplier == Some(id) {
      assert forall e: Entry, balance: int :: Signed(AccountsPayable)(Txn(e, balance, source)) == SignedEntry(AccountsPayable)(e);
      PostedWholeSum(b, source, entries, OwnedMove(after, id), SignedEntry(AccountsPayable));
    } else {
      PostedWholeSum(b, source, entries, OwnedMove(after, id), Nothing);
      SumOfNothing(entries);
    }
  }

  lemma {:induction false} UnownedAfter(
      b: Books, source: Source, entries: seq<Entry>, owners: map<Source, string>, supplier: Option<string>)
    requires SourcesAreUnique(b) && source !in b.postings && source !in owners && NonNegative(entries)
    requires Posted(b, Posting(source, AsInputs(entries))).Ok?
    ensures var after := if supplier.Some? then owners[source := supplier.value] else owners;
      Sum(Posted(b, Posting(source, AsInputs(entries))).value.0.transactions, UnownedMove(after))
        == Sum(b.transactions, UnownedMove(owners))
         + (if supplier.None? && !source.kind.SupplierOpeningBalanceSource? then Moved(entries, AccountsPayable) else 0)
  {
    hide Posted;
    var after := if supplier.Some? then owners[source := supplier.value] else owners;
    SumEqual(b.transactions, UnownedMove(after), b.transactions, UnownedMove(owners));
    if supplier.None? && !source.kind.SupplierOpeningBalanceSource? {
      assert forall e: Entry, balance: int :: Signed(AccountsPayable)(Txn(e, balance, source)) == SignedEntry(AccountsPayable)(e);
      PostedWholeSum(b, source, entries, UnownedMove(after), SignedEntry(AccountsPayable));
    } else {
      PostedWholeSum(b, source, entries, UnownedMove(after), Nothing);
      SumOfNothing(entries);
    }
  }

  /** Entries a document may post: balanced, non-negative, moving payables by exactly `delta`. */
  ghost predicate Posts(entries: seq<Entry>, delta: int) {
    && NonNegative(entries)
    && Sum(entries, DebitAmount) == Sum(entries, CreditAmount)
    && Moved(entries, AccountsPayable) == delta
  }

  lemma {:induction false} PostingFacts(b: Books, source: Source, entries: seq<Entry>, delta: int)
    requires Consistent(b) && Posts(entries, delta)
    ensures Posted(b, Posting(source, AsInputs(entries))).Ok?
    ensures var (c, posted) := Posted(b, Posting(source, AsInputs(entries))).value;
      && Consistent(c)
      && (!posted ==> c == b)
      && (source in b.postings ==> !posted)
      && (posted ==> c.postings == b.postings + [source] && BalanceOf(c, AccountsPayable) == BalanceOf(b, AccountsPayable) + delta)
      && (!posted && source !in b.postings ==> delta == 0)
  {
    hide Posted, Consistent, BalanceOf, Moved, DebitSide, CreditSide;
    var p := Posting(source, AsInputs(entries));
    BalancedPostingIsAccepted(b, source, entries);
    PostingKeepsBooks(b, p);
    PostedSources(b, p);
    PostedWholeWrites(b, source, entries);
    if source !in b.postings {
      PostedMoves(b, source, entries, AccountsPayable);
    }
    if !Posted(b, p).value.1 {
      Unwritten(b, p);
    }
  }

  /** The books and the balances after a written document posting: the part of the invariant payments and documents share. */
  ghost predicate InStep(s: Shop) {
    Consistent(s.books) && IdsAreUnique(s.suppliers) && OwnersAreKnown(s) && BalancesFollowLedger(s) && Controlled(s)
  }

  /** What a written posting under `source` leaves on the sums the invariant reads. */
  ghost predicate Moves(
      s: Shop, supplier: Option<string>, source: Source, delta: int, books: Books, owners: map<Source, string>) {
    && owners == (if supplier.Some? then s.owners[source := supplier.value] else s.owners)
    && books.postings == s.books.postings + [source]
    && BalanceOf(books, AccountsPayable) == BalanceOf(s.books, AccountsPayable) + delta
    && Sum(books.transactions, UnownedMove(owners))
       == Sum(s.books.transactions, UnownedMove(s.owners)) + (if supplier.None? then delta else 0)
    && forall i | 0 <= i < |s.suppliers| ::
         Sum(books.transactions, OwnedMove(owners, s.suppliers[i].id))
         == Sum(s.books.transactions, OwnedMove(s.owners, s.suppliers[i].id)) + (if supplier == Some(s.suppliers[i].id) then delta else 0)
  }

  lemma {:induction false} PostingMoves(s: Shop, supplier: Option<string>, source: Source, entries: seq<Entry>, delta: int)
    requires Consistent(s.books) && OwnersAreKnown(s) && Posts(entries, delta)
    requires source !in s.books.postings && !source.kind.SupplierOpeningBalanceSource?
    requires Posted(s.books, Posting(source, AsInputs(entries))).Ok? && Posted(s.books, Posting(source, AsInputs(entries))).value.1
    ensures var books := Posted(s.books, Posting(source, AsInputs(entries))).value.0;
      Consistent(books)
      && Moves(s, supplier, source, delta, books, if supplier.Some? then s.owners[source := supplier.value] else s.owners)
  {
    hide Posted, BalanceOf, Moved, Find, DebitSide, CreditSide, BalancesAreSums, RunningBalances;
    PostingFacts(s.books, source, entries, delta);
    UnownedAfter(s.books, source, entries, s.owners, supplier);
    var books := Posted(s.books, Posting(source, AsInputs(entries))).value.0;
    var owners := if supplier.Some? then s.owners[source := supplier.value] else s.owners;
    forall i | 0 <= i < |s.suppliers|
      ensures Sum(books.transactions, OwnedMove(owners, s.suppliers[i].id))
           == Sum(s.books.transactions, OwnedMove(s.owners, s.suppliers[i].id)) + (if supplier == Some(s.suppliers[i].id) then delta else 0)
    {
      OwnedAfter(s.books, source, entries, s.owners, supplier, s.suppliers[i].id);
    }
  }

  /** With its supplier's balance moved by the same amount, a written posting keeps every balance on the ledger. */
  lemma {:induction false} MovementKeeps(
      s: Shop, supplier: Option<string>, source: Source, delta: int, books: Books, owners: map<Source, string>)
    requires InStep(s) && Consistent(books) && Moves(s, supplier, source, delta, books, owners)
    requires !source.kind.SupplierOpeningBalanceSource?
    requires supplier.Some? ==> Find(s.suppliers, SupplierId, supplier.value).Some?
    ensures var t := s.(books := books, owners := owners);
      InStep(if supplier.Some? then MovePayable(t, Find(s.suppliers, SupplierId, supplier.value).value, delta) else t)
  {
    hide BalanceOf, Find, Consistent, Sum, OwnedMove, UnownedMove;
    if supplier.Some? {
      var i := Find(s.suppliers, SupplierId, supplier.value).value;
      var moved := s.suppliers[i].(pending := s.suppliers[i].pending + delta);
      SumUpdate(s.suppliers, i, moved, Pending);
      forall id: string ensures Find(s.suppliers[i := moved], SupplierId, id).Some? <==> Find(s.suppliers, SupplierId, id).Some? {
        FindUpdate(s.suppliers, i, moved, SupplierId, id);
      }
    }
  }

  /** A document of a known supplier, or of none, is never refused, posts once, and keeps every balance on the ledger. */
  lemma {:induction false} DocumentKeeps(s: Shop, supplier: Option<string>, source: Source, entries: seq<Entry>, delta: int)
    requires InStep(s) && Posts(entries, delta) && !source.kind.SupplierOpeningBalanceSource?
    ensures PostedWithPayable(s, supplier, source, entries, delta).Ok?
      <==> (supplier.Some? ==> Find(s.suppliers, SupplierId, supplier.value).Some?)
    ensures PostedWithPayable(s, supplier, source, entries, delta) != Err(LedgerRefused)
    ensures PostedWithPayable(s, supplier, source, entries, delta).Ok? ==>
      var (t, posted) := PostedWithPayable(s, supplier, source, entries, delta).value;
      && InStep(t) && t.payments == s.payments && t.notes == s.notes && t.returned == s.returned
      && (source in s.books.postings ==> !posted && t == s)
  {
    hide Posted, InStep, Posts, Find, Moves;
    InStepIsConsistent(s);
    PostingFacts(s.books, source, entries, delta);
    var (books, posted) := Posted(s.books, Posting(source, AsInputs(entries))).value;
    if posted && (supplier.Some? ==> Find(s.suppliers, SupplierId, supplier.value).Some?) {
      PostingMoves(s, supplier, source, entries, delta);
      var owners := if supplier.Some? then s.owners[source := supplier.value] else s.owners;
      MovementKeeps(s, supplier, source, delta, books, owners);
      if supplier.Some? && delta == 0 {
        NothingMoved(s.(books := books, owners := owners), Find(s.suppliers, SupplierId, supplier.value).value);
      }
    }
  }

  lemma {:induction false} InStepIsConsistent(s: Shop)
    requires InStep(s)
    ensures Consistent(s.books) && OwnersAreKnown(s)
  {}

  lemma {:induction false} NothingMoved(s: Shop, i: nat)
    requires i < |s.suppliers|
    ensures MovePayable(s, i, 0) == s
  {
    assert s.suppliers[i := s.suppliers[i]] == s.suppliers;
  }

  lemma {:induction false} SumOfNone(f: Entry -> int)
    ensures Sum([], f) == 0
  {}

  lemma {:induction false} PairPosts(a: Entry, b: Entry, delta: int)
    requires a.kind.Debit? && b.kind.Credit? && 0 <= a.amount == b.amount
    requires SignedEntry(AccountsPayable)(a) + SignedEntry(AccountsPayable)(b) == delta
    ensures Posts([a, b], delta)
  {
    TwoEntries(a, b, DebitAmount);
    TwoEntries(a, b, CreditAmount);
    TwoEntries(a, b, SignedEntry(AccountsPayable));
  }

  lemma {:induction false} AgainstSum(account: Account, amount: int, f: Entry -> int)
    ensures Sum(Against(account, amount), f)
         == if amount > 0 then f(Entry(account, Debit, amount)) else if amount < 0 then f(Entry(account, Credit, -amount)) else 0
  {
    if amount > 0 {
      SumOfOne(Entry(account, Debit, amount), f);
    } else if amount < 0 {
      SumOfOne(Entry(account, Credit, -amount), f);
    }
  }

  lemma {:induction false} PlanSum(lines: seq<BillLine>, f: Entry -> int)
    ensures var tax, difference, expenses := Sum(lines, LineTax), Sum(lines, LineDifference), Sum(lines, LineExpense);
      var delta := tax + difference + expenses;
      Sum(PostingPlan(lines).0, f)
        == (if tax > 0 then f(Entry(InputGst, Debit, tax)) else 0) + Sum(Against(Inventory, difference), f)
         + (if expenses > 0 then f(Entry(Expenses, Debit, expenses)) else 0) + Sum(Against(AccountsPayable, -delta), f)
  {
    hide Against;
    var tax, difference, expenses := Sum(lines, LineTax), Sum(lines, LineDifference), Sum(lines, LineExpense);
    var first := if tax > 0 then [Entry(InputGst, Debit, tax)] else [];
    var second := Against(Inventory, difference);
    var third := if expenses > 0 then [Entry(Expenses, Debit, expenses)] else [];
    var fourth := Against(AccountsPayable, -(tax + difference + expenses));
    hide Sum;
    SumConcat(first, second, f);
    SumConcat(first + second, third, f);
    SumConcat(first + second + third, fourth, f);
    SumOfNone(f);
    SumOfOne(Entry(InputGst, Debit, tax), f);
    SumOfOne(Entry(Expenses, Debit, expenses), f);
  }

  lemma {:induction false} PlanEntriesArePositive(lines: seq<BillLine>)
    ensures NonNegative(PostingPlan(lines).0)
  {
    hide Sum;
  }

  /**
   * A vendor bill's plan moves the payable by what the bill is worth above its
   * receipts, and it balances exactly when neither its tax nor its expense
   * lines are negative in sum.
   */
  lemma {:induction false} PlanCoversBill(lines: seq<BillLine>)
    ensures PostingPlan(lines).1 == Sum(lines, LinePayable)
    ensures Moved(PostingPlan(lines).0, AccountsPayable) == PostingPlan(lines).1
    ensures Posts(PostingPlan(lines).0, PostingPlan(lines).1)
      <==> Min(Sum(lines, LineTax), 0) + Min(Sum(lines, LineExpense), 0) == 0
  {
    hide PostingPlan, Against, Sum;
    PlanDelta(lines);
    PlanEntriesArePositive(lines);
    var tax, difference, expenses := Sum(lines, LineTax), Sum(lines, LineDifference), Sum(lines, LineExpense);
    var delta := tax + difference + expenses;
    PlanSum(lines, DebitAmount);
    PlanSum(lines, CreditAmount);
    PlanSum(lines, SignedEntry(AccountsPayable));
    AgainstSum(Inventory, difference, DebitAmount);
    AgainstSum(Inventory, difference, CreditAmount);
    AgainstSum(Inventory, difference, SignedEntry(AccountsPayable));
    AgainstSum(AccountsPayable, -delta, DebitAmount);
    AgainstSum(AccountsPayable, -delta, CreditAmount);
    AgainstSum(AccountsPayable, -delta, SignedEntry(AccountsPayable));
  }

  lemma {:induction false} PlanDelta(lines: seq<BillLine>)
    ensures PostingPlan(lines).1 == Sum(lines, LineTax) + Sum(lines, LineDifference) + Sum(lines, LineExpense) == Sum(lines, LinePayable)
  {
    if lines != [] {
      PlanDelta(lines[..|lines| - 1]);
    }
  }

  /** A note's entries balance and take exactly its debit off the payable. */
  lemma {:induction false} NotePosts(returnId: Option<string>, total: int, tax: int, debit: int)
    requires 0 <= debit && 0 <= tax && (returnId.None? ==> debit == total)
    ensures Posts(NoteEntries(returnId, total, tax, debit), -debit)
  {
    if returnId.None? {
      var gst := Min(tax, total);
      NoteSum(total, gst, DebitAmount);
      NoteSum(total, gst, CreditAmount);
      NoteSum(total, gst, SignedEntry(AccountsPayable));
    } else if debit > 0 {
      PairPosts(Entry(AccountsPayable, Debit, debit), Entry(InputGst, Credit, debit), -debit);
    } else {
      SumOfNone(DebitAmount);
    }
  }

  lemma {:induction false} NoteSum(total: int, gst: int, f: Entry -> int)
    ensures Sum([Entry(AccountsPayable, Debit, total)]
                + (if gst > 0 then [Entry(InputGst, Credit, gst)] else [])
                + (if total - gst > 0 then [Entry(Inventory, Credit, total - gst)] else []), f)
         == f(Entry(AccountsPayable, Debit, total))
          + (if gst > 0 then f(Entry(InputGst, Credit, gst)) else 0)
          + (if total - gst > 0 then f(Entry(Inventory, Credit, total - gst)) else 0)
  {
    hide Sum;
    var first := [Entry(AccountsPayable, Debit, total)];
    var second := if gst > 0 then [Entry(InputGst, Credit, gst)] else [];
    var third := if total - gst > 0 then [Entry(Inventory, Credit, total - gst)] else [];
    SumConcat(first, second, f);
    SumConcat(first + second, third, f);
    SumOfNone(f);
    SumOfOne(Entry(AccountsPayable, Debit, total), f);
    SumOfOne(Entry(InputGst, Credit, gst), f);
    SumOfOne(Entry(Inventory, Credit, total - gst), f);
  }

  lemma {:induction false} PaymentKeeps(s: Shop, p: PaymentInput, id: string)
    requires InStep(s) && KeysAreUnique(s.payments)
    ensures Paid(s, p, id) != Err(LedgerRefused)
    ensures Paid(s, p, id).Ok? ==>
      var (t, payment) := Paid(s, p, id).value;
      InStep(t) && KeysAreUnique(t.payments) && t.notes == s.notes && t.returned == s.returned
  {
    hide Posted, InStep, Posts, Find, Moves, PaymentEntries, Consistent, OwnersAreKnown, BalanceOf, KeysAreUnique;
    InStepIsConsistent(s);
    if 0 < p.amount {
      var entries, source := PaymentEntries(p), Source(SupplierPaymentSource, Document(id));
      PaymentPosts(p);
      PostingFacts(s.books, source, entries, -p.amount);
      if Paid(s, p, id).Ok? && Replay(s.payments, p).None? {
        PostingMoves(s, Some(p.supplier), source, entries, -p.amount);
        var books := Posted(s.books, Posting(source, AsInputs(entries))).value.0;
        MovementKeeps(s, Some(p.supplier), source, -p.amount, books, s.owners[source := p.supplier]);
        NewKeyIsUnique(s.payments, p, Payment(id, p.supplier, p.amount, p.tender, p.key, p.bill));
        var t := Paid(s, p, id).value.0;
        SameRest(t.(payments := s.payments), t);
      }
    }
  }

  lemma {:induction false} PaymentPosts(p: PaymentInput)
    requires 0 < p.amount
    ensures Posts(PaymentEntries(p), -p.amount)
  {
    PairPosts(PaymentEntries(p)[0], PaymentEntries(p)[1], -p.amount);
  }

  lemma {:induction false} NewKeyIsUnique(payments: seq<Payment>, p: PaymentInput, payment: Payment)
    requires KeysAreUnique(payments) && Replay(payments, p).None? && payment.key == p.key
    ensures KeysAreUnique(payments + [payment])
  {
    hide Find;
  }

  /** A payment never takes a balance below zero, and answers a used key with its one stored payment or not at all. */
  lemma {:induction false} PaymentNeverOverpays(s: Shop, p: PaymentInput, id: string)
    requires Paid(s, p, id).Ok?
    ensures var (t, payment) := Paid(s, p, id).value;
      var i := Find(s.suppliers, SupplierId, p.supplier);
      && i.Some? && !s.suppliers[i.value].isDeleted && |t.suppliers| == |s.suppliers|
      && payment in t.payments
      && payment.supplier == p.supplier && payment.amount == p.amount && payment.bill == p.bill
      && (if p.key.Some? && Find(s.payments, PaymentKey, Some(p.key.value)).Some? then t == s
          else 0 <= t.suppliers[i.value].pending == s.suppliers[i.value].pending - p.amount)
  {
    hide Posted, Find;
    if p.key.Some? && Find(s.payments, PaymentKey, Some(p.key.value)).Some? {
      var found := Find(s.payments, PaymentKey, Some(p.key.value)).value;
      assert s.payments[found] in s.payments;
    } else {
      var t := Paid(s, p, id).value.0;
      assert t.payments[|s.payments|] in t.payments;
    }
  }

  /** A new supplier's opening balance reaches its balance and the books together. */
  lemma {:induction false} CreationKeeps(s: Shop, id: string, opening: int)
    requires InStep(s) && 0 <= opening
    ensures Created(s, id, opening) != Err(LedgerRefused)
    ensures Created(s, id, opening).Ok? ==>
      var t := Created(s, id, opening).value;
      InStep(t) && t.payments == s.payments && t.notes == s.notes && t.returned == s.returned
  {
    hide Posted, Posts, Find, InStep, Consistent, OwnersAreKnown, BalanceOf, Sum, OpeningEntries;
    InStepIsConsistent(s);
    var source, entries := Source(SupplierOpeningBalanceSource, Document(id)), OpeningEntries(opening);
    OpeningPosts(opening);
    PostingFacts(s.books, source, entries, opening);
    if Created(s, id, opening).Ok? {
      if 0 < opening {
        OpeningMoves(s, source, entries, opening);
      }
      NewSupplierKeeps(s, id, opening, Created(s, id, opening).value.books);
    }
  }

  lemma {:induction false} OpeningPosts(opening: int)
    requires 0 <= opening
    ensures Posts(OpeningEntries(opening), opening)
  {
    PairPosts(OpeningEntries(opening)[0], OpeningEntries(opening)[1], opening);
  }

  /** An opening's posting belongs to no supplier's documents and to no unowned one. */
  lemma {:induction false} OpeningMoves(s: Shop, source: Source, entries: seq<Entry>, opening: int)
    requires Consistent(s.books) && OwnersAreKnown(s) && Posts(entries, opening)
    requires source.kind.SupplierOpeningBalanceSource? && source !in s.books.postings
    requires Posted(s.books, Posting(source, AsInputs(entries))).Ok?
    ensures var books := Posted(s.books, Posting(source, AsInputs(entries))).value.0;
      && Sum(books.transactions, UnownedMove(s.owners)) == Sum(s.books.transactions, UnownedMove(s.owners))
      && forall x: string :: Sum(books.transactions, OwnedMove(s.owners, x)) == Sum(s.books.transactions, OwnedMove(s.owners, x))
  {
    hide Posted, Find, Sum, BalancesAreSums, RunningBalances, DebitSide, CreditSide;
    UnownedAfter(s.books, source, entries, s.owners, None);
    forall x: string
      ensures Sum(Posted(s.books, Posting(source, AsInputs(entries))).value.0.transactions, OwnedMove(s.owners, x))
           == Sum(s.books.transactions, OwnedMove(s.owners, x))
    {
      OwnedAfter(s.books, source, entries, s.owners, None, x);
    }
  }

  lemma {:induction false} NewSupplierKeeps(s: Shop, id: string, opening: int, books: Books)
    requires InStep(s) && Find(s.suppliers, SupplierId, id).None? && Consistent(books)
    requires BalanceOf(books, AccountsPayable) == BalanceOf(s.books, AccountsPayable) + opening
    requires forall source | source in s.books.postings :: source in books.postings
    requires Sum(books.transactions, UnownedMove(s.owners)) == Sum(s.books.transactions, UnownedMove(s.owners))
    requires forall x: string :: Sum(books.transactions, OwnedMove(s.owners, x)) == Sum(s.books.transactions, OwnedMove(s.owners, x))
    ensures InStep(s.(suppliers := s.suppliers + [Supplier(id, opening, opening, false)], books := books))
  {
    hide Find, Sum, Consistent, BalanceOf, OwnedMove, UnownedMove;
    var supplier := Supplier(id, opening, opening, false);
    NewSupplierOwnsNothing(s, id);
    SumSnoc(s.suppliers, supplier, Pending);
    StillKnown(s.suppliers, supplier);
  }

  lemma {:induction false} NewSupplierOwnsNothing(s: Shop, id: string)
    requires OwnersAreKnown(s) && Find(s.suppliers, SupplierId, id).None?
    ensures Sum(s.books.transactions, OwnedMove(s.owners, id)) == 0
  {
    hide Find;
    SumBounds(s.books.transactions, OwnedMove(s.owners, id), 0, 0);
  }

  lemma {:induction false} StillKnown(suppliers: seq<Supplier>, supplier: Supplier)
    ensures forall id: string | Find(suppliers, SupplierId, id).Some? :: Find(suppliers + [supplier], SupplierId, id).Some?
  {
    forall id: string | Find(suppliers, SupplierId, id).Some? ensures Find(suppliers + [supplier], SupplierId, id).Some? {
      assert (suppliers + [supplier])[Find(suppliers, SupplierId, id).value].id == id;
    }
  }

  /** A note of a return adds only what the return's notes together exceed it by. */
  lemma {:induction false} NoteIsCapped(s: Shop, note: Note)
    requires NotesAreCapped(s) && 0 <= note.total && (note.returnId.Some? ==> note.returnId.value in s.returned)
    requires note.debit == NoteDebit(s, note.returnId, note.total)
    ensures NotesAreCapped(s.(notes := s.notes + [note])) && 0 <= note.debit
  {
    hide Sum;
    forall id | id in s.returned
      ensures Sum(s.notes + [note], DebitForReturn(id)) == Sum(s.notes, DebitForReturn(id)) + DebitForReturn(id)(note)
      ensures Sum(s.notes + [note], ForReturn(id)) == Sum(s.notes, ForReturn(id)) + ForReturn(id)(note)
    {
      SumSnoc(s.notes, note, DebitForReturn(id));
      SumSnoc(s.notes, note, ForReturn(id));
    }
  }

  lemma {:induction false} NewReturnIsCapped(s: Shop, id: string, taken: nat)
    requires NotesAreCapped(s) && id !in s.returned
    ensures NotesAreCapped(s.(returned := s.returned[id := taken]))
  {
    SumBounds(s.notes, DebitForReturn(id), 0, 0);
    SumBounds(s.notes, ForReturn(id), 0, 0);
  }

  datatype Op =
    | AddSupplier(id: string, opening: int)
    | DeleteSupplier(id: string)
    | Receive(id: string, owner: Option<string>, value: int)
    | SendBack(id: string, owner: Option<string>, value: int)
    | Bill(id: string, supplier: string, lines: seq<BillLine>)
    | IssueNote(id: string, supplier: string, returnId: Option<string>, total: int, tax: int)
    | Pay(id: string, payment: PaymentInput)
    | PostOther(posting: Posting)

  /** A posting of another module: it moves no payable. */
  ghost predicate Foreign(p: Posting) { Sum(Normalised(p.entries), SignedEntry(AccountsPayable)) == 0 }

  ghost predicate GoodLines(lines: seq<BillLine>) {
    forall i | 0 <= i < |lines| :: 0 <= lines[i].tax && 0 <= lines[i].base
  }

  /** The shop after a transaction; a refused one, and input that validation stops, change nothing. */
  ghost function Step(s: Shop, op: Op): Shop {
    match op
    case AddSupplier(id, opening) => if 0 <= opening then Or(Created(s, id, opening), s) else s
    case DeleteSupplier(id) =>
      var i := Find(s.suppliers, SupplierId, id);
      if i.None? || s.suppliers[i.value].isDeleted || s.suppliers[i.value].pending != 0 then s
      else s.(suppliers := s.suppliers[i.value := s.suppliers[i.value].(isDeleted := true)])
    case Receive(id, owner, value) => Or(Received(s, id, owner, value), s)
    case SendBack(id, owner, value) => Or(SentBack(s, id, owner, value), s)
    case Bill(id, supplier, lines) => if GoodLines(lines) then Or(Billed(s, id, supplier, lines), s) else s
    case IssueNote(id, supplier, returnId, total, tax) =>
      if 0 <= total && 0 <= tax then Or(NoteIssued(s, id, supplier, returnId, total, tax), s) else s
    case Pay(id, p) => if Paid(s, p, id).Ok? then Paid(s, p, id).value.0 else s
    case PostOther(p) => if Foreign(p) && Posted(s.books, p).Ok? then s.(books := Posted(s.books, p).value.0) else s
  }

  function Or(r: Result<Shop, Error>, s: Shop): Shop { if r.Ok? then r.value else s }

  lemma {:induction false} DeletionKeeps(s: Shop, i: nat)
    requires InStep(s) && i < |s.suppliers|
    ensures InStep(s.(suppliers := s.suppliers[i := s.suppliers[i].(isDeleted := true)]))
  {
    hide Find, Consistent, BalanceOf;
    var gone := s.suppliers[i].(isDeleted := true);
    SumUpdate(s.suppliers, i, gone, Pending);
    forall id: string ensures Find(s.suppliers[i := gone], SupplierId, id).Some? <==> Find(s.suppliers, SupplierId, id).Some? {
      FindUpdate(s.suppliers, i, gone, SupplierId, id);
    }
  }

  lemma {:induction false} ForeignKeeps(s: Shop, p: Posting)
    requires InStep(s) && Foreign(p) && Posted(s.books, p).Ok?
    ensures InStep(s.(books := Posted(s.books, p).value.0))
  {
    hide Posted, BalanceOf, Normalised, Find, DebitSide, CreditSide, BalancesAreSums, RunningBalances;
    var c := Posted(s.books, p).value.0;
    PostingKeepsBooks(s.books, p);
    PostedSources(s.books, p);
    if Posted(s.books, p).value.1 {
      NewWhenWritten(s.books, p);
      PostedBalance(s.books, p, AccountsPayable);
      assert forall e: Entry, balance: int :: Signed(AccountsPayable)(Txn(e, balance, p.source)) == SignedEntry(AccountsPayable)(e);
      SumOfNothing(Normalised(p.entries));
      PostedSum(s.books, p, UnownedMove(s.owners), if p.source.kind.SupplierOpeningBalanceSource? then Nothing else SignedEntry(AccountsPayable));
      forall i | 0 <= i < |s.suppliers|
        ensures Sum(c.transactions, OwnedMove(s.owners, s.suppliers[i].id)) == Sum(s.books.transactions, OwnedMove(s.owners, s.suppliers[i].id))
      {
        PostedSum(s.books, p, OwnedMove(s.owners, s.suppliers[i].id), Nothing);
      }
    } else {
      Unwritten(s.books, p);
    }
  }

  lemma {:induction false} NewWhenWritten(b: Books, p: Posting)
    requires Posted(b, p).Ok? && Posted(b, p).value.1
    ensures p.source !in b.postings
  {}

  lemma {:induction false} BillPosts(lines: seq<BillLine>)
    requires GoodLines(lines)
    ensures Posts(PostingPlan(lines).0, PostingPlan(lines).1)
  {
    hide PostingPlan, Posts;
    PlanCoversBill(lines);
    SumNonNegative(lines, LineTax);
    SumNonNegative(lines, LineExpense);
  }

  /** A transaction that keeps the balances on the ledger and leaves the notes alone keeps the invariant. */
  lemma {:induction false} KeptFrom(s: Shop, t: Shop)
    requires Good(s) && InStep(t) && KeysAreUnique(t.payments) && t.notes == s.notes && t.returned == s.returned
    ensures Good(t)
  {
    hide InStep, KeysAreUnique, NotesAreCapped;
    GoodIsInStep(s);
    GoodIsInStep(t);
    SameNotes(s, t);
  }

  lemma {:induction false} DocumentStepKeeps(s: Shop, supplier: Option<string>, source: Source, entries: seq<Entry>, delta: int)
    requires Good(s) && Posts(entries, delta) && !source.kind.SupplierOpeningBalanceSource?
    ensures PostedWithPayable(s, supplier, source, entries, delta).Ok? ==>
      Good(PostedWithPayable(s, supplier, source, entries, delta).value.0)
  {
    hide PostedWithPayable, Good, InStep, Posts, KeysAreUnique, Find;
    GoodFacts(s);
    DocumentKeeps(s, supplier, source, entries, delta);
    if PostedWithPayable(s, supplier, source, entries, delta).Ok? {
      KeptFrom(s, PostedWithPayable(s, supplier, source, entries, delta).value.0);
    }
  }

  lemma {:induction false} GoodFacts(s: Shop)
    requires Good(s)
    ensures InStep(s) && KeysAreUnique(s.payments)
  {
    hide InStep, KeysAreUnique, NotesAreCapped;
    GoodIsInStep(s);
  }

  /** Every transaction keeps every supplier's balance on the ledger and each return's notes capped. */
  lemma {:induction false} StepKeepsGood(s: Shop, op: Op)
    requires Good(s)
    ensures Good(Step(s, op))
  {
    hide Good, InStep, KeysAreUnique, PostedWithPayable, PostingPlan, Posts, Find, Posted, Paid, Created, Foreign;
    hide GoodLines, SentBack, NoteIssued;
    GoodFacts(s);
    match op
    case AddSupplier(id, opening) =>
      if 0 <= opening {
        CreationKeeps(s, id, opening);
        if Created(s, id, opening).Ok? {
          KeptFrom(s, Step(s, op));
        }
      }
    case DeleteSupplier(id) =>
      var i := Find(s.suppliers, SupplierId, id);
      if i.Some? && !s.suppliers[i.value].isDeleted && s.suppliers[i.value].pending == 0 {
        DeletionKeeps(s, i.value);
        KeptFrom(s, Step(s, op));
      }
    case Receive(id, owner, value) =>
      if 0 < value {
        ReceiptPosts(value);
        DocumentStepKeeps(s, owner, Source(GrnSource, Document(id)), ReceiptEntries(value), value);
      }
    case SendBack(id, owner, value) =>
      SendBackKeeps(s, id, owner, value);
    case Bill(id, supplier, lines) =>
      if GoodLines(lines) {
        BillPosts(lines);
        DocumentStepKeeps(s, Some(supplier), Source(VendorBillSource, Document(id)), PostingPlan(lines).0, PostingPlan(lines).1);
      }
    case IssueNote(id, supplier, returnId, total, tax) =>
      if 0 <= total && 0 <= tax {
        NoteKeeps(s, id, supplier, returnId, total, tax);
      }
    case Pay(id, p) =>
      PaymentKeeps(s, p, id);
      if Paid(s, p, id).Ok? {
        KeptFrom(s, Step(s, op));
      }
    case PostOther(p) =>
      if Foreign(p) && Posted(s.books, p).Ok? {
        ForeignKeeps(s, p);
        KeptFrom(s, Step(s, op));
      }
  }

  lemma {:induction false} GoodIsInStep(s: Shop)
    ensures Good(s) <==> InStep(s) && KeysAreUnique(s.payments) && NotesAreCapped(s)
  {
    hide Consistent, IdsAreUnique, OwnersAreKnown, BalancesFollowLedger, Controlled, KeysAreUnique, NotesAreCapped;
  }

  lemma {:induction false} SameNotes(s: Shop, t: Shop)
    requires t.notes == s.notes && t.returned == s.returned
    ensures NotesAreCapped(s) <==> NotesAreCapped(t)
  {}

  lemma {:induction false} ReceiptPosts(value: int)
    requires 0 <= value
    ensures Posts(ReceiptEntries(value), value) && Posts(ReturnEntries(value), -value)
  {
    PairPosts(Entry(Inventory, Debit, value), Entry(AccountsPayable, Credit, value), value);
    PairPosts(Entry(AccountsPayable, Debit, value), Entry(Inventory, Credit, value), -value);
  }

  lemma {:induction false} SendBackKeeps(s: Shop, id: string, owner: Option<string>, value: int)
    requires Good(s)
    ensures SentBack(s, id, owner, value).Ok? ==> Good(SentBack(s, id, owner, value).value)
  {
    hide InStep, KeysAreUnique, PostedWithPayable, Posts, Find, NotesAreCapped;
    GoodIsInStep(s);
    if 0 < value {
      ReceiptPosts(value);
      DocumentKeeps(s, owner, Source(PurchaseReturnSource, Document(id)), ReturnEntries(value), -value);
    }
    if SentBack(s, id, owner, value).Ok? {
      var t := SentBack(s, id, owner, value).value;
      NewReturnIsCapped(s, id, t.returned[id]);
      SameNotes(s.(returned := s.returned[id := t.returned[id]]), t);
      SameRest(if value <= 0 then s
               else PostedWithPayable(s, owner, Source(PurchaseReturnSource, Document(id)), ReturnEntries(value), -value).value.0, t);
      GoodIsInStep(t);
    }
  }

  lemma {:induction false} SameRest(s: Shop, t: Shop)
    requires t.suppliers == s.suppliers && t.owners == s.owners && t.books == s.books
    ensures InStep(s) <==> InStep(t)
  {
    hide Consistent, Find, BalanceOf;
  }

  lemma {:induction false} NoteKeeps(s: Shop, id: string, supplier: string, returnId: Option<string>, total: int, tax: int)
    requires Good(s) && 0 <= total && 0 <= tax
    ensures NoteIssued(s, id, supplier, returnId, total, tax).Ok? ==> Good(NoteIssued(s, id, supplier, returnId, total, tax).value)
  {
    hide InStep, KeysAreUnique, PostedWithPayable, NoteEntries, NoteDebit, Posts, Find, NotesAreCapped;
    GoodIsInStep(s);
    if returnId.Some? ==> returnId.value in s.returned {
      var debit := NoteDebit(s, returnId, total);
      var note := Note(id, returnId, total, debit);
      var t := s.(notes := s.notes + [note]);
      NoteIsCapped(s, note);
      SameRest(s, t);
      UnbackedDebit(s, returnId, total);
      NotePosts(returnId, total, tax, debit);
      DocumentKeeps(t, Some(supplier), Source(SupplierCreditNoteSource, Document(id)), NoteEntries(returnId, total, tax, debit), -debit);
      if NoteIssued(s, id, supplier, returnId, total, tax).Ok? {
        var u := NoteIssued(s, id, supplier, returnId, total, tax).value;
        SameNotes(t, u);
        GoodIsInStep(u);
      }
    }
  }

  lemma {:induction false} UnbackedDebit(s: Shop, returnId: Option<string>, total: int)
    requires returnId.Some? ==> returnId.value in s.returned
    ensures returnId.None? ==> NoteDebit(s, returnId, total) == total
  {}

  ghost function Run(s: Shop, ops: seq<Op>): Shop {
    if ops == [] then s else Step(Run(s, ops[..|ops| - 1]), ops[|ops| - 1])
  }

  lemma {:induction false} NoShopIsGood()
    ensures Good(Shop([], [], [], map[], map[], EmptyBooks))
  {}

  /**
   * After any run of receipts, bills, returns, credit notes, payments and
   * other postings: each supplier's balance is its opening plus the net
   * payable credit of its own documents, the control account is the sum of
   * the balances and of documents without a supplier, and no return is
   * credited twice.
   */
  lemma {:induction false} EveryRunFollowsLedger(ops: seq<Op>)
    ensures Good(Run(Shop([], [], [], map[], map[], EmptyBooks), ops))
  {
    hide Good, Step;
    if ops == [] {
      NoShopIsGood();
    } else {
      EveryRunFollowsLedger(ops[..|ops| - 1]);
      StepKeepsGood(Run(Shop([], [], [], map[], map[], EmptyBooks), ops[..|ops| - 1]), ops[|ops| - 1]);
    }
  }

  /** Where a supplier payment comes from: the drawer for cash, the bank otherwise, against payables and nothing else. */
  lemma {:induction false} SupplierPaymentReaches(b: Books, p: PaymentInput, id: string, a: Account)
    requires Consistent(b) && 0 < p.amount && Source(SupplierPaymentSource, Document(id)) !in b.postings
    ensures var r := Posted(b, Posting(Source(SupplierPaymentSource, Document(id)), AsInputs(PaymentEntries(p))));
      && r.Ok?
      && BalanceOf(r.value.0, a) - BalanceOf(b, a)
         == if a == AccountsPayable then -p.amount
            else if a == Cash && p.tender.InCash? then -p.amount
            else if a == Bank && !p.tender.InCash? then -p.amount
            else 0
  {
    hide Posted, Consistent, BalanceOf;
    var entries, source := PaymentEntries(p), Source(SupplierPaymentSource, Document(id));
    PaymentPosts(p);
    BalancedPostingIsAccepted(b, source, entries);
    PostedMoves(b, source, entries, a);
    TwoEntries(entries[0], entries[1], SignedEntry(a));
  }
}
