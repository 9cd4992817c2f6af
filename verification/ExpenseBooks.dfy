/** How an expense reaches the double-entry books and the cash drawer, and how edits keep both in step. */
module ExpenseBooks {
  import opened Common
  import opened Ledger

  datatype Mode = InCash | ByUpi | ByBankTransfer | ByCard

  /** An expense row, in paise. `shiftId` names the drawer its cash left, by the order in which shifts opened. */
  datatype Expense = Expense(id: string, amount: int, isPaid: bool, mode: Option<Mode>, isDeleted: bool, shiftId: Option<nat>)

  /** A drawer session; `cashIn` is the net cash that sales, refunds and repayments brought. */
  datatype Shift = Shift(openedBy: string, isOpen: bool, openingCash: int, cashIn: int, expectedCash: int, cashPayouts: int)

  /** Cash paid to a supplier, and the drawer it left. */
  datatype SupplierPayout = SupplierPayout(shiftId: Option<nat>, amount: int)

  datatype Shop = Shop(expenses: seq<Expense>, shifts: seq<Shift>, supplierPayouts: seq<SupplierPayout>, books: Books)

  datatype Error = InvalidAmount | DuplicateId | ExpenseNotFound | LedgerRefused

  const MAX_EXPENSE_AMOUNT := 9_999_999_999

  // ---------------------------------------------------------------------------
  // What an expense implies
  // ---------------------------------------------------------------------------

  function CreditAccount(mode: Option<Mode>): Account {
    if mode.None? || mode.value.InCash? then Cash else Bank
  }

  /** The signed movement the ledger must hold for an expense, account by account (debit less credit). */
  function LedgerState(e: Expense): map<Account, int> {
    if e.isDeleted || !e.isPaid || e.amount <= 0 then map[]
    else map[Expenses := e.amount, CreditAccount(e.mode) := -e.amount]
  }

  function At(m: map<Account, int>, a: Account): int { if a in m then m[a] else 0 }

  /** What an expense takes out of a drawer. */
  function CashOut(e: Expense): int {
    if e.isDeleted || !e.isPaid || !CreditAccount(e.mode).Cash? then 0 else e.amount
  }

  // ---------------------------------------------------------------------------
  // The ledger: an expense's family of postings
  // ---------------------------------------------------------------------------

  predicate InFamily(source: Source, id: string) {
    || source == Source(ExpenseSource, Document(id))
    || (source.kind.ExpenseAdjustmentSource? && source.id.Adjustment? && source.id.id == id)
  }

  /** What one row of an expense's family moves on an account. */
  function FamilyMove(id: string, a: Account): Txn -> int {
    (t: Txn) => if InFamily(t.source, id) && t.entry.account == a then NetDebit(t.entry) else 0
  }

  /** What an expense's postings so far moved on an account, debit less credit. */
  function FamilyNet(b: Books, id: string, a: Account): int { Sum(b.transactions, FamilyMove(id, a)) }

  function AdjustmentOf(id: string): Source -> int {
    (s: Source) => if s.kind.ExpenseAdjustmentSource? && s.id.Adjustment? && s.id.id == id then 1 else 0
  }

  function Adjustments(postings: seq<Source>, id: string): nat {
    SumNonNegative(postings, AdjustmentOf(id));
    Sum(postings, AdjustmentOf(id))
  }

  /** The key of an expense's next posting: the expense itself first, then its numbered adjustments. */
  function NextSource(postings: seq<Source>, id: string): Source {
    if Source(ExpenseSource, Document(id)) !in postings then Source(ExpenseSource, Document(id))
    else Source(ExpenseAdjustmentSource, Adjustment(id, 1 + Adjustments(postings, id)))
  }

  const Accounts: seq<Account> := [
    AccountsPayable, AccountsReceivable, Bank, Cash, CostOfGoods, Expenses, GstPayable, InputGst, Inventory,
    InventoryAdjustment, OpeningBalanceEquity, SalesRevenue, UdharReceivable]

  /** What the family still lacks on each account. */
  function Lacking(b: Books, e: Expense): Account -> int {
    (a: Account) => At(LedgerState(e), a) - FamilyNet(b, e.id, a)
  }

  function EntryFor(a: Account, amount: int): Entry {
    Entry(a, if amount > 0 then Debit else Credit, Abs(amount))
  }

  function DeltaEntries(accounts: seq<Account>, delta: Account -> int): seq<Entry> {
    if accounts == [] then [] else
    var a := accounts[|accounts| - 1];
    DeltaEntries(accounts[..|accounts| - 1], delta) + (if delta(a) != 0 then [EntryFor(a, delta(a))] else [])
  }

  function SyncPosting(b: Books, e: Expense): Posting {
    Posting(NextSource(b.postings, e.id), AsInputs(DeltaEntries(Accounts, Lacking(b, e))))
  }

  /** The books once an expense's postings agree with it; nothing is posted when they already do. */
  function SyncedBooks(b: Books, e: Expense): Result<Books, Error> {
    if DeltaEntries(Accounts, Lacking(b, e)) == [] then Ok(b) else
    match Posted(b, SyncPosting(b, e))
    case Err(_) => Err(LedgerRefused)
    case Ok((c, _)) => Ok(c)
  }

  // ---------------------------------------------------------------------------
  // The drawer
  // ---------------------------------------------------------------------------

  /** The shift a user opened last among those still open. */
  function OpenShiftOf(shifts: seq<Shift>, user: string): (r: Option<nat>)
    ensures r.Some? ==> r.value < |shifts| && shifts[r.value].isOpen && shifts[r.value].openedBy == user
    ensures forall k | 0 <= k < |shifts| && shifts[k].isOpen && shifts[k].openedBy == user :: r.Some? && k <= r.value
  {
    if shifts == [] then None else
    var n := |shifts| - 1;
    if shifts[n].isOpen && shifts[n].openedBy == user then Some(n) else OpenShiftOf(shifts[..n], user)
  }

  /** Money out of a drawer; without a drawer, or without money, nothing moves. */
  function AppliedPayout(shifts: seq<Shift>, shiftId: Option<nat>, amount: int): (r: seq<Shift>)
    ensures |r| == |shifts|
  {
    if shiftId.None? || shiftId.value >= |shifts| || amount <= 0 then shifts else
    var s := shifts[shiftId.value];
    shifts[shiftId.value := s.(expectedCash := s.expectedCash - amount, cashPayouts := s.cashPayouts + amount)]
  }

  function ReversedPayout(shifts: seq<Shift>, shiftId: nat, amount: int): (r: seq<Shift>)
    ensures |r| == |shifts|
  {
    if shiftId >= |shifts| || amount <= 0 then shifts else
    var s := shifts[shiftId];
    shifts[shiftId := s.(expectedCash := s.expectedCash + amount, cashPayouts := s.cashPayouts - amount)]
  }

  /** The drawers after an edit or a delete, and the shift the expense names from then on. */
  function MovedDrawer(shifts: seq<Shift>, user: string, before: Expense, next: Expense): (seq<Shift>, Option<nat>) {
    var oldCash, newCash := CashOut(before), CashOut(next);
    if before.shiftId.Some? then
      var k := before.shiftId.value;
      if k >= |shifts| || !shifts[k].isOpen then (shifts, before.shiftId)
      else if newCash <= 0 then (ReversedPayout(shifts, k, oldCash), None)
      else (AppliedPayout(ReversedPayout(shifts, k, oldCash), before.shiftId, newCash), before.shiftId)
    else if newCash > 0 && oldCash <= 0 then
      var k := OpenShiftOf(shifts, user);
      (AppliedPayout(shifts, k, newCash), k)
    else (shifts, None)
  }

  // ---------------------------------------------------------------------------
  // The three writes, each one transaction
  // ---------------------------------------------------------------------------

  function IdOf(e: Expense): string { e.id }

  predicate IsAmount(amount: int) { 1 <= amount <= MAX_EXPENSE_AMOUNT }

  function Created(
      s: Shop, id: string, amount: int, isPaid: Option<bool>, mode: Option<Mode>, user: string): Result<Shop, Error> {
    if !IsAmount(amount) then Err(InvalidAmount)
    else if Find(s.expenses, IdOf, id).Some? then Err(DuplicateId)
    else
      var e := NewExpense(s.shifts, id, amount, isPaid, mode, user);
      match SyncedBooks(s.books, e)
      case Err(error) => Err(error)
      case Ok(books) => Ok(s.(expenses := s.expenses + [e], shifts := AppliedPayout(s.shifts, e.shiftId, CashOut(e)), books := books))
  }

  function NewExpense(
      shifts: seq<Shift>, id: string, amount: int, isPaid: Option<bool>, mode: Option<Mode>, user: string): Expense {
    var paid := isPaid.None? || isPaid.value;
    var chosen := if mode.Some? then mode else if paid then Some(InCash) else None;
    Expense(id, amount, paid, chosen, false, if paid && chosen == Some(InCash) then OpenShiftOf(shifts, user) else None)
  }

  function Edited(e: Expense, amount: Option<int>, isPaid: Option<bool>, mode: Option<Mode>): Expense {
    var paid := if isPaid.Some? then isPaid.value else e.isPaid;
    e.(amount := if amount.Some? then amount.value else e.amount, isPaid := paid,
       mode := if mode.Some? then mode else if e.mode.Some? then e.mode else if paid then Some(InCash) else None)
  }

  /** A live expense rewritten to `next`, with its drawer and its postings moved along. */
  function Rewritten(s: Shop, i: nat, next: Expense, user: string): Result<Shop, Error>
    requires i < |s.expenses|
  {
    var (shifts, shiftId) := MovedDrawer(s.shifts, user, s.expenses[i], next);
    var e := next.(shiftId := shiftId);
    match SyncedBooks(s.books, e)
    case Err(error) => Err(error)
    case Ok(books) => Ok(s.(expenses := s.expenses[i := e], shifts := shifts, books := books))
  }

  function Updated(
      s: Shop, id: string, amount: Option<int>, isPaid: Option<bool>, mode: Option<Mode>, user: string): Result<Shop, Error> {
    if amount.Some? && !IsAmount(amount.value) then Err(InvalidAmount) else
    var found := Find(s.expenses, IdOf, id);
    if found.None? || s.expenses[found.value].isDeleted then Err(ExpenseNotFound)
    else Rewritten(s, found.value, Edited(s.expenses[found.value], amount, isPaid, mode), user)
  }

  function SoftDeleted(s: Shop, id: string, user: string): Result<Shop, Error> {
    var found := Find(s.expenses, IdOf, id);
    if found.None? || s.expenses[found.value].isDeleted then Err(ExpenseNotFound)
    else Rewritten(s, found.value, s.expenses[found.value].(isDeleted := true), user)
  }

  class ExpensesService {
    var expenses: seq<Expense>
    var shifts: seq<Shift>
    var supplierPayouts: seq<SupplierPayout>
    const ledger: LedgerPostingService

    ghost function State(): Shop
      reads this, ledger
    {
      Shop(expenses, shifts, supplierPayouts, ledger.Contents())
    }

    constructor (ledger: LedgerPostingService)
      ensures this.ledger == ledger
      ensures State() == Shop([], [], [], ledger.Contents())
    {
      this.ledger := ledger;
      expenses, shifts, supplierPayouts := [], [], [];
    }

    /** Posts what the expense's postings still lack. */
    method SyncLedger(e: Expense) returns (r: Result<(), Error>)
      modifies ledger
      ensures SyncedBooks(old(ledger.Contents()), e).Err? ==>
        r == Err(SyncedBooks(old(ledger.Contents()), e).error) && ledger.Contents() == old(ledger.Contents())
      ensures SyncedBooks(old(ledger.Contents()), e).Ok? ==>
        r == Ok(()) && ledger.Contents() == SyncedBooks(old(ledger.Contents()), e).value
    {
      hide LedgerState, Posted;
      ghost var books := ledger.Contents();
      var transactions := ledger.transactions;
      var delta := LedgerState(e);
      for i := 0 to |transactions|
        invariant forall a: Account :: At(delta, a) == At(LedgerState(e), a) - Sum(transactions[..i], FamilyMove(e.id, a))
      {
        var t := transactions[i];
        forall a: Account
          ensures Sum(transactions[..i + 1], FamilyMove(e.id, a)) == Sum(transactions[..i], FamilyMove(e.id, a)) + FamilyMove(e.id, a)(t)
        {
          SumTake(transactions, i, FamilyMove(e.id, a));
        }
        if InFamily(t.source, e.id) {
          delta := delta[t.entry.account := At(delta, t.entry.account) - NetDebit(t.entry)];
        }
      }
      assert transactions[..|transactions|] == transactions;
      var entries: seq<Entry> := [];
      for i := 0 to |Accounts|
        invariant entries == DeltaEntries(Accounts[..i], Lacking(books, e))
      {
        var upTo := Accounts[..i + 1];
        assert upTo[..i] == Accounts[..i] && upTo[i] == Accounts[i];
        var lacking := At(delta, Accounts[i]);
        if lacking != 0 {
          entries := entries + [EntryFor(Accounts[i], lacking)];
        }
      }
      assert Accounts[..|Accounts|] == Accounts;
      if entries == [] {
        return Ok(());
      }
      var posted := ledger.Post(Posting(NextSource(ledger.postings, e.id), AsInputs(entries)));
      return if posted.Err? then Err(LedgerRefused) else Ok(());
    }

    /** Moves the payout of an edited expense and returns the drawer it names from then on. */
    method MoveDrawer(user: string, before: Expense, next: Expense) returns (shiftId: Option<nat>)
      modifies this`shifts
      ensures (shifts, shiftId) == MovedDrawer(old(shifts), user, before, next)
    {
      var oldCash, newCash := CashOut(before), CashOut(next);
      if before.shiftId.Some? {
        if before.shiftId.value >= |shifts| || !shifts[before.shiftId.value].isOpen {
          return before.shiftId;
        }
        shifts := ReversedPayout(shifts, before.shiftId.value, oldCash);
        if newCash <= 0 {
          return None;
        }
        shifts := AppliedPayout(shifts, before.shiftId, newCash);
        return before.shiftId;
      }
      if newCash > 0 && oldCash <= 0 {
        shiftId := OpenShiftOf(shifts, user);
        shifts := AppliedPayout(shifts, shiftId, newCash);
        return;
      }
      return None;
    }

    method Create(id: string, amount: int, isPaid: Option<bool>, mode: Option<Mode>, user: string) returns (r: Result<Expense, Error>)
      modifies this, ledger
      ensures var spec := Created(old(State()), id, amount, isPaid, mode, user);
        && (spec.Err? ==> r == Err(spec.error) && State() == old(State()))
        && (spec.Ok? ==> State() == spec.value && expenses != [] && r == Ok(expenses[|expenses| - 1]))
    {
      hide SyncedBooks, OpenShiftOf, Find;
      if !IsAmount(amount) {
        return Err(InvalidAmount);
      }
      if Find(expenses, IdOf, id).Some? {
        return Err(DuplicateId);
      }
      var e := NewExpense(shifts, id, amount, isPaid, mode, user);
      var synced := SyncLedger(e);
      if synced.Err? {
        return Err(synced.error);
      }
      shifts := AppliedPayout(shifts, e.shiftId, CashOut(e));
      expenses := expenses + [e];
      return Ok(e);
    }

    /** The common end of an edit and a delete; a refused posting rolls the drawer back. */
    method Rewrite(i: nat, next: Expense, user: string) returns (r: Result<Expense, Error>)
      requires i < |expenses|
      modifies this, ledger
      ensures var spec := Rewritten(old(State()), i, next, user);
        && (spec.Err? ==> r == Err(spec.error) && State() == old(State()))
        && (spec.Ok? ==> State() == spec.value && i < |expenses| && r == Ok(expenses[i]))
    {
      hide SyncedBooks, MovedDrawer;
      var saved := shifts;
      var shiftId := MoveDrawer(user, expenses[i], next);
      var e := next.(shiftId := shiftId);
      var synced := SyncLedger(e);
      if synced.Err? {
        shifts := saved;
        return Err(synced.error);
      }
      expenses := expenses[i := e];
      return Ok(e);
    }

    method Update(id: string, amount: Option<int>, isPaid: Option<bool>, mode: Option<Mode>, user: string) returns (r: Result<Expense, Error>)
      modifies this, ledger
      ensures var spec := Updated(old(State()), id, amount, isPaid, mode, user);
        && (spec.Err? ==> r == Err(spec.error) && State() == old(State()))
        && (spec.Ok? ==> State() == spec.value)
    {
      hide Rewritten, Edited, Find;
      if amount.Some? && !IsAmount(amount.value) {
        return Err(InvalidAmount);
      }
      var found := Find(expenses, IdOf, id);
      if found.None? || expenses[found.value].isDeleted {
        return Err(ExpenseNotFound);
      }
      r := Rewrite(found.value, Edited(expenses[found.value], amount, isPaid, mode), user);
    }

    method SoftDelete(id: string, user: string) returns (r: Result<Expense, Error>)
      modifies this, ledger
      ensures var spec := SoftDeleted(old(State()), id, user);
        && (spec.Err? ==> r == Err(spec.error) && State() == old(State()))
        && (spec.Ok? ==> State() == spec.value)
    {
      hide Rewritten, Find;
      var found := Find(expenses, IdOf, id);
      if found.None? || expenses[found.value].isDeleted {
        return Err(ExpenseNotFound);
      }
      r := Rewrite(found.value, expenses[found.value].(isDeleted := true), user);
    }
  }

  // ---------------------------------------------------------------------------
  // The postings of an expense always add up to what it implies
  // ---------------------------------------------------------------------------

  ghost predicate Synced(b: Books, e: Expense) {
    forall a: Account :: FamilyNet(b, e.id, a) == At(LedgerState(e), a)
  }

  ghost predicate Untouched(postings: seq<Source>, id: string) {
    forall i | 0 <= i < |postings| :: !InFamily(postings[i], id)
  }

  /** In step with its postings, or recorded before expenses were posted and not written since. */
  ghost predicate InBooks(b: Books, e: Expense) {
    Synced(b, e) || Untouched(b.postings, e.id)
  }

  /** The adjustments of an expense are numbered from 1 without gaps, after its first posting. */
  ghost predicate KeysAreDense(postings: seq<Source>, id: string) {
    && (forall n: nat :: Source(ExpenseAdjustmentSource, Adjustment(id, n)) in postings <==> 1 <= n <= Adjustments(postings, id))
    && (0 < Adjustments(postings, id) ==> Source(ExpenseSource, Document(id)) in postings)
  }

  /** A posting outside an expense's family changes nothing of it. */
  lemma {:induction false} OtherPosting(b: Books, p: Posting, id: string, a: Account)
    requires Posted(b, p).Ok? && !InFamily(p.source, id)
    ensures FamilyNet(Posted(b, p).value.0, id, a) == FamilyNet(b, id, a)
  {
    hide Normalised, Sorted, AllEntered;
    if Posted(b, p).value.1 {
      PostedSum(b, p, FamilyMove(id, a), Nothing);
      SumOfNothing(Normalised(p.entries));
    }
  }

  lemma {:induction false} OtherSource(postings: seq<Source>, source: Source, id: string)
    requires !InFamily(source, id)
    ensures Adjustments(postings + [source], id) == Adjustments(postings, id)
    ensures KeysAreDense(postings, id) ==> KeysAreDense(postings + [source], id)
    ensures Untouched(postings, id) ==> Untouched(postings + [source], id)
    ensures Untouched(postings + [source], id) ==> Untouched(postings, id)
  {
    SumSnoc(postings, source, AdjustmentOf(id));
    if Untouched(postings + [source], id) {
      forall i | 0 <= i < |postings| ensures !InFamily(postings[i], id) {
        assert postings[i] == (postings + [source])[i];
      }
    }
  }

  /** The next key of an expense is new, and taking it keeps the keys dense. */
  lemma {:induction false} NextSourceIsNew(postings: seq<Source>, id: string)
    requires KeysAreDense(postings, id)
    ensures NextSource(postings, id) !in postings
    ensures InFamily(NextSource(postings, id), id)
    ensures KeysAreDense(postings + [NextSource(postings, id)], id)
  {
    var source := NextSource(postings, id);
    SumSnoc(postings, source, AdjustmentOf(id));
  }

  lemma {:induction false} FamilyIsExclusive(source: Source, id: string, other: string)
    requires InFamily(source, id) && InFamily(source, other)
    ensures id == other
  {}

  ghost predicate NoRepeats(accounts: seq<Account>) {
    forall i, j | 0 <= i < j < |accounts| :: accounts[i] != accounts[j]
  }

  lemma {:induction false} EveryAccountOnce()
    ensures NoRepeats(Accounts) && forall a: Account :: a in Accounts
  {
    forall i | 0 <= i < |Accounts| ensures Rank(Accounts[i]) == i {}
    forall a: Account ensures a in Accounts {
      assert Accounts[Rank(a)] == a;
    }
  }

  /** One amount, on one account. */
  function On(x: Account, amount: int): Account -> int {
    (a: Account) => if a == x then amount else 0
  }

  lemma {:induction false} SumOn(accounts: seq<Account>, x: Account, amount: int)
    requires NoRepeats(accounts)
    ensures Sum(accounts, On(x, amount)) == if x in accounts then amount else 0
  {
    if accounts != [] {
      var n := |accounts| - 1;
      SumOn(accounts[..n], x, amount);
      assert accounts == accounts[..n] + [accounts[n]];
    }
  }

  /** A sum over the entries of a delta is the sum over the accounts it covers. */
  lemma {:induction false} DeltaEntriesSum(accounts: seq<Account>, delta: Account -> int, f: Entry -> int, g: Account -> int)
    requires forall a: Account :: g(a) == if delta(a) == 0 then 0 else f(EntryFor(a, delta(a)))
    ensures Sum(DeltaEntries(accounts, delta), f) == Sum(accounts, g)
  {
    if accounts != [] {
      var n := |accounts| - 1;
      DeltaEntriesSum(accounts[..n], delta, f, g);
      var entries := DeltaEntries(accounts[..n], delta);
      SumSnoc(entries, EntryFor(accounts[n], delta(accounts[n])), f);
      assert entries + [] == entries;
    }
  }

  lemma {:induction false} DeltaEntriesArePositive(accounts: seq<Account>, delta: Account -> int)
    ensures forall i | 0 <= i < |DeltaEntries(accounts, delta)| :: 0 < DeltaEntries(accounts, delta)[i].amount
    ensures DeltaEntries(accounts, delta) == [] <==> forall i | 0 <= i < |accounts| :: delta(accounts[i]) == 0
  {
    if accounts != [] {
      DeltaEntriesArePositive(accounts[..|accounts| - 1], delta);
    }
  }

  function Implied(e: Expense): Account -> int {
    (a: Account) => At(LedgerState(e), a)
  }

  lemma {:induction false} LedgerStateBalances(e: Expense, accounts: seq<Account>)
    requires NoRepeats(accounts) && forall a: Account :: a in accounts
    ensures Sum(accounts, Implied(e)) == 0
  {
    if LedgerState(e) == map[] {
      SumBounds(accounts, Implied(e), 0, 0);
    } else {
      var c := CreditAccount(e.mode);
      SumOn(accounts, Expenses, e.amount);
      SumOn(accounts, c, -e.amount);
      SumPlus(accounts, On(Expenses, e.amount), On(c, -e.amount), Implied(e));
    }
  }

  lemma {:induction false} UntouchedHasNoRows(b: Books, id: string, a: Account)
    requires SourcesAreUnique(b) && Untouched(b.postings, id)
    ensures FamilyNet(b, id, a) == 0
  {
    SumBounds(b.transactions, FamilyMove(id, a), 0, 0);
  }

  /** What an expense lacks is balanced, whatever it was before. */
  lemma {:induction false} LackingBalances(b: Books, before: Expense, e: Expense, accounts: seq<Account>)
    requires before.id == e.id && InBooks(b, before) && SourcesAreUnique(b)
    requires NoRepeats(accounts) && forall a: Account :: a in accounts
    ensures Sum(accounts, Lacking(b, e)) == 0
  {
    hide LedgerState;
    LedgerStateBalances(e, accounts);
    if Synced(b, before) {
      LedgerStateBalances(before, accounts);
      SumPlus(accounts, Lacking(b, e), Implied(before), Implied(e));
    } else {
      forall a: Account ensures FamilyNet(b, e.id, a) == 0 {
        UntouchedHasNoRows(b, e.id, a);
      }
      SumEqual(accounts, Lacking(b, e), accounts, Implied(e));
    }
  }

  /** The entries of a delta that adds up to nothing: balanced, and exactly the delta on each account. */
  lemma {:induction false} DeltaIsPosted(accounts: seq<Account>, delta: Account -> int)
    requires NoRepeats(accounts) && (forall a: Account :: a in accounts) && Sum(accounts, delta) == 0
    ensures var entries := DeltaEntries(accounts, delta);
      && NonNegative(entries)
      && Sum(entries, DebitAmount) == Sum(entries, CreditAmount)
      && (entries != [] ==> exists i :: 0 <= i < |entries| && entries[i].amount > 0)
  {
    hide DeltaEntries, Sum, NoRepeats;
    var entries := DeltaEntries(accounts, delta);
    DeltaEntriesArePositive(accounts, delta);
    NetOfDelta(accounts, delta);
    NetDebitIsDifference(entries);
    assert entries != [] ==> entries[0].amount > 0;
  }

  lemma {:induction false} NetOfDelta(accounts: seq<Account>, delta: Account -> int)
    ensures Sum(DeltaEntries(accounts, delta), NetDebit) == Sum(accounts, delta)
  {
    hide DeltaEntries, Sum;
    DeltaEntriesSum(accounts, delta, NetDebit, delta);
  }

  lemma {:induction false} DeltaOnAccount(accounts: seq<Account>, delta: Account -> int, a: Account)
    requires NoRepeats(accounts) && a in accounts
    ensures Sum(DeltaEntries(accounts, delta), Move(a)) == delta(a)
  {
    hide DeltaEntries, Sum, NoRepeats;
    DeltaEntriesSum(accounts, delta, Move(a), On(a, delta(a)));
    SumOn(accounts, a, delta(a));
  }

  lemma {:induction false} NothingLacking(accounts: seq<Account>, delta: Account -> int)
    requires forall a: Account :: a in accounts
    ensures DeltaEntries(accounts, delta) == [] <==> forall a: Account :: delta(a) == 0
  {
    DeltaEntriesArePositive(accounts, delta);
    if DeltaEntries(accounts, delta) == [] {
      forall a: Account ensures delta(a) == 0 {
        assert a in accounts;
      }
    }
  }

  lemma {:induction false} SyncedMeans(b: Books, e: Expense)
    ensures Synced(b, e) <==> forall a: Account :: Lacking(b, e)(a) == 0
  {
    if forall a: Account :: Lacking(b, e)(a) == 0 {
      forall a: Account ensures FamilyNet(b, e.id, a) == At(LedgerState(e), a) {
        assert Lacking(b, e)(a) == 0;
      }
    }
  }

  /**
   * Bringing an expense into step never fails and never posts under a used key:
   * its postings then add up to what it implies, and no other expense's change.
   */
  lemma {:induction false} SyncSettles(b: Books, before: Expense, e: Expense)
    requires Consistent(b) && SourcesAreUnique(b) && KeysAreDense(b.postings, e.id)
    requires before.id == e.id && InBooks(b, before)
    ensures SyncedBooks(b, e).Ok?
    ensures var c := SyncedBooks(b, e).value;
      && Consistent(c) && Synced(c, e) && KeysAreDense(c.postings, e.id)
      && (Synced(b, e) ==> c == b)
      && (!Synced(b, e) ==> NextSource(b.postings, e.id) !in b.postings && c.postings == b.postings + [NextSource(b.postings, e.id)])
  {
    hide LedgerState, Posted, KeysAreDense, Consistent, NextSource, Untouched, DeltaEntries, Sum;
    EveryAccountOnce();
    LackingBalances(b, before, e, Accounts);
    DeltaIsPosted(Accounts, Lacking(b, e));
    NothingLacking(Accounts, Lacking(b, e));
    var entries := DeltaEntries(Accounts, Lacking(b, e));
    var source := NextSource(b.postings, e.id);
    NextSourceIsNew(b.postings, e.id);
    SyncedMeans(b, e);
    if entries != [] {
      BalancedPostingIsAccepted(b, source, entries);
      PostedWholeWrites(b, source, entries);
      PostedSources(b, SyncPosting(b, e));
      PostingKeepsBooks(b, SyncPosting(b, e));
      var c := SyncedBooks(b, e).value;
      forall a: Account ensures FamilyNet(c, e.id, a) == At(LedgerState(e), a) {
        PostedWholeSum(b, source, entries, FamilyMove(e.id, a), Move(a));
        DeltaOnAccount(Accounts, Lacking(b, e), a);
      }
    }
  }

  /** Every expense in step with its postings or never posted, under dense keys, in consistent books. */
  ghost predicate GoodBooks(b: Books, expenses: seq<Expense>) {
    && Consistent(b)
    && (forall id: string :: KeysAreDense(b.postings, id))
    && (forall i | 0 <= i < |expenses| :: InBooks(b, expenses[i]))
    && (forall id: string :: Find(expenses, IdOf, id).None? ==> Untouched(b.postings, id))
  }

  ghost predicate IdsAreUnique(expenses: seq<Expense>) {
    forall i, j | 0 <= i < j < |expenses| :: expenses[i].id != expenses[j].id
  }

  /** What a posting outside an expense's family leaves of it. */
  ghost predicate SameFamily(b: Books, c: Books, id: string) {
    && (forall a: Account :: FamilyNet(c, id, a) == FamilyNet(b, id, a))
    && (KeysAreDense(b.postings, id) ==> KeysAreDense(c.postings, id))
    && (Untouched(b.postings, id) ==> Untouched(c.postings, id))
  }

  lemma {:induction false} OthersAreLeft(b: Books, p: Posting, id: string)
    requires Posted(b, p).Ok? && !InFamily(p.source, id)
    ensures SameFamily(b, Posted(b, p).value.0, id)
  {
    hide Posted, FamilyNet, KeysAreDense, Untouched;
    forall a: Account ensures FamilyNet(Posted(b, p).value.0, id, a) == FamilyNet(b, id, a) {
      OtherPosting(b, p, id, a);
    }
    PostedSources(b, p);
    assert b.postings + [] == b.postings;
    OtherSource(b.postings, p.source, id);
  }

  lemma {:induction false} SyncLeavesOthers(b: Books, e: Expense, id: string)
    requires KeysAreDense(b.postings, e.id) && SyncedBooks(b, e).Ok? && id != e.id
    ensures SameFamily(b, SyncedBooks(b, e).value, id)
  {
    hide Posted, KeysAreDense, NextSource, FamilyNet, Untouched, DeltaEntries, Lacking;
    if DeltaEntries(Accounts, Lacking(b, e)) != [] {
      NextSourceIsNew(b.postings, e.id);
      if InFamily(NextSource(b.postings, e.id), id) {
        FamilyIsExclusive(NextSource(b.postings, e.id), e.id, id);
      }
      OthersAreLeft(b, SyncPosting(b, e), id);
    }
  }

  lemma {:induction false} SameFamilyInBooks(b: Books, c: Books, e: Expense)
    requires InBooks(b, e) && SameFamily(b, c, e.id)
    ensures InBooks(c, e)
  {
    hide FamilyNet, LedgerState, KeysAreDense;
  }

  /** Writing one expense, new or known, keeps every expense in step. */
  lemma {:induction false} WriteKeepsBooks(b: Books, expenses: seq<Expense>, before: Expense, e: Expense, after: seq<Expense>)
    requires GoodBooks(b, expenses) && before.id == e.id && InBooks(b, before)
    requires forall i | 0 <= i < |after| :: after[i] == e || (after[i].id != e.id && after[i] in expenses)
    requires forall id: string :: Find(after, IdOf, id).None? ==> id != e.id && Find(expenses, IdOf, id).None?
    ensures SyncedBooks(b, e).Ok? && Synced(SyncedBooks(b, e).value, e) && GoodBooks(SyncedBooks(b, e).value, after)
  {
    hide KeysAreDense, InBooks, Untouched, SyncedBooks, Find, BalancesAreSums, RunningBalances, DebitSide, CreditSide;
    hide Synced, SameFamily, SourcesAreUnique;
    SyncSettles(b, before, e);
    var c := SyncedBooks(b, e).value;
    forall id: string ensures KeysAreDense(c.postings, id) {
      if id != e.id {
        SyncLeavesOthers(b, e, id);
        SameFamilyKeys(b, c, id);
      }
    }
    forall i | 0 <= i < |after| ensures InBooks(c, after[i]) {
      if after[i] == e {
        SyncedIsInBooks(c, e);
      } else {
        SyncLeavesOthers(b, e, after[i].id);
        SameFamilyInBooks(b, c, after[i]);
      }
    }
    forall id: string | Find(after, IdOf, id).None? ensures Untouched(c.postings, id) {
      SyncLeavesOthers(b, e, id);
      SameFamilyKeys(b, c, id);
    }
  }

  lemma {:induction false} SyncedIsInBooks(b: Books, e: Expense)
    requires Synced(b, e)
    ensures InBooks(b, e)
  {
    hide Synced;
  }

  lemma {:induction false} SameFamilyKeys(b: Books, c: Books, id: string)
    requires SameFamily(b, c, id)
    ensures KeysAreDense(b.postings, id) ==> KeysAreDense(c.postings, id)
    ensures Untouched(b.postings, id) ==> Untouched(c.postings, id)
  {
    hide KeysAreDense, Untouched, FamilyNet;
  }

  // ---------------------------------------------------------------------------
  // The drawer agrees with the expenses that name it
  // ---------------------------------------------------------------------------

  function PayoutFrom(k: nat): Expense -> int {
    (e: Expense) => if e.shiftId == Some(k) then CashOut(e) else 0
  }

  function SupplierPayoutFrom(k: nat): SupplierPayout -> int {
    (p: SupplierPayout) => if p.shiftId == Some(k) then p.amount else 0
  }

  /** An open drawer's payouts are those of the expenses and supplier payments that name it; its cash is always accounted for. */
  ghost predicate DrawersAgree(expenses: seq<Expense>, shifts: seq<Shift>, payouts: seq<SupplierPayout>) {
    && (forall i | 0 <= i < |expenses| :: 1 <= expenses[i].amount)
    && (forall i | 0 <= i < |expenses| && expenses[i].shiftId.Some? :: expenses[i].shiftId.value < |shifts|)
    && (forall i | 0 <= i < |payouts| && payouts[i].shiftId.Some? :: payouts[i].shiftId.value < |shifts|)
    && (forall k: nat | k < |shifts| :: shifts[k].expectedCash == shifts[k].openingCash + shifts[k].cashIn - shifts[k].cashPayouts)
    && (forall k: nat | k < |shifts| && shifts[k].isOpen ::
          shifts[k].cashPayouts == Sum(expenses, PayoutFrom(k)) + Sum(payouts, SupplierPayoutFrom(k)))
  }

  /** Drawers stay whose they were, and one that closed never changes again. */
  ghost predicate ClosedStay(shifts: seq<Shift>, later: seq<Shift>) {
    && |shifts| <= |later|
    && forall k | 0 <= k < |shifts| :: later[k].openedBy == shifts[k].openedBy && (!shifts[k].isOpen ==> later[k] == shifts[k])
  }

  lemma {:induction false} MovedDrawerKeeps(
      expenses: seq<Expense>, shifts: seq<Shift>, payouts: seq<SupplierPayout>, i: nat, next: Expense, user: string)
    requires DrawersAgree(expenses, shifts, payouts) && i < |expenses| && 1 <= next.amount
    ensures var (moved, shiftId) := MovedDrawer(shifts, user, expenses[i], next);
      && DrawersAgree(expenses[i := next.(shiftId := shiftId)], moved, payouts)
      && ClosedStay(shifts, moved) && |moved| == |shifts|
  {
    hide OpenShiftOf, Sum;
    var (moved, shiftId) := MovedDrawer(shifts, user, expenses[i], next);
    forall k: nat | k < |moved| && moved[k].isOpen
      ensures moved[k].cashPayouts
           == Sum(expenses[i := next.(shiftId := shiftId)], PayoutFrom(k)) + Sum(payouts, SupplierPayoutFrom(k))
    {
      SumUpdate(expenses, i, next.(shiftId := shiftId), PayoutFrom(k));
    }
  }

  lemma {:induction false} NewExpenseKeeps(
      expenses: seq<Expense>, shifts: seq<Shift>, payouts: seq<SupplierPayout>,
      id: string, amount: int, isPaid: Option<bool>, mode: Option<Mode>, user: string)
    requires DrawersAgree(expenses, shifts, payouts) && 1 <= amount
    ensures var e := NewExpense(shifts, id, amount, isPaid, mode, user);
      var moved := AppliedPayout(shifts, e.shiftId, CashOut(e));
      && DrawersAgree(expenses + [e], moved, payouts) && ClosedStay(shifts, moved)
  {
    hide OpenShiftOf, Sum;
    var e := NewExpense(shifts, id, amount, isPaid, mode, user);
    forall k: nat | k < |shifts|
      ensures Sum(expenses + [e], PayoutFrom(k)) == Sum(expenses, PayoutFrom(k)) + PayoutFrom(k)(e)
    {
      SumSnoc(expenses, e, PayoutFrom(k));
    }
  }

  // ---------------------------------------------------------------------------
  // Every run
  // ---------------------------------------------------------------------------

  /** One transaction on the shop; `PostOther` is any posting of another module. */
  datatype Op =
    | Create(id: string, price: int, paid: Option<bool>, paidBy: Option<Mode>, user: string)
    | Update(id: string, amount: Option<int>, isPaid: Option<bool>, mode: Option<Mode>, user: string)
    | Delete(id: string, user: string)
    | OpenShift(user: string, openingCash: int)
    | CloseShift(k: nat)
    | TakeCash(k: nat, cash: int)
    | PaySupplier(user: string, payment: int)
    | PostOther(posting: Posting)

  /** The shop after a transaction; a refused one changes nothing. */
  function Step(s: Shop, op: Op): Shop {
    match op
    case Create(id, amount, isPaid, mode, user) => Or(Created(s, id, amount, isPaid, mode, user), s)
    case Update(id, amount, isPaid, mode, user) => Or(Updated(s, id, amount, isPaid, mode, user), s)
    case Delete(id, user) => Or(SoftDeleted(s, id, user), s)
    case OpenShift(user, cash) =>
      if OpenShiftOf(s.shifts, user).Some? then s else s.(shifts := s.shifts + [Shift(user, true, cash, 0, cash, 0)])
    case CloseShift(k) =>
      if k < |s.shifts| && s.shifts[k].isOpen then s.(shifts := s.shifts[k := s.shifts[k].(isOpen := false)]) else s
    case TakeCash(k, cash) =>
      if k < |s.shifts| && s.shifts[k].isOpen
      then s.(shifts := s.shifts[k := s.shifts[k].(cashIn := s.shifts[k].cashIn + cash, expectedCash := s.shifts[k].expectedCash + cash)])
      else s
    case PaySupplier(user, amount) =>
      if amount <= 0 then s else
      var k := OpenShiftOf(s.shifts, user);
      s.(shifts := AppliedPayout(s.shifts, k, amount), supplierPayouts := s.supplierPayouts + [SupplierPayout(k, amount)])
    case PostOther(p) =>
      if p.source.kind in {ExpenseSource, ExpenseAdjustmentSource} || Posted(s.books, p).Err? then s
      else s.(books := Posted(s.books, p).value.0)
  }

  function Or(r: Result<Shop, Error>, s: Shop): Shop { if r.Ok? then r.value else s }

  ghost predicate Good(s: Shop) {
    && IdsAreUnique(s.expenses)
    && GoodBooks(s.books, s.expenses)
    && DrawersAgree(s.expenses, s.shifts, s.supplierPayouts)
  }

  /** A live expense's edit or delete is never refused by the books, and leaves it in step. */
  lemma {:induction false} RewriteKeeps(s: Shop, i: nat, next: Expense, user: string)
    requires Good(s) && i < |s.expenses| && next.id == s.expenses[i].id && 1 <= next.amount
    ensures Rewritten(s, i, next, user).Ok?
    ensures var t := Rewritten(s, i, next, user).value;
      Good(t) && ClosedStay(s.shifts, t.shifts) && |t.expenses| == |s.expenses| && Synced(t.books, t.expenses[i])
  {
    hide GoodBooks, DrawersAgree, MovedDrawer, SyncedBooks, Find, Synced, ClosedStay;
    var (shifts, shiftId) := MovedDrawer(s.shifts, user, s.expenses[i], next);
    var e := next.(shiftId := shiftId);
    var after := s.expenses[i := e];
    MovedDrawerKeeps(s.expenses, s.shifts, s.supplierPayouts, i, next, user);
    forall id: string | Find(after, IdOf, id).None? ensures id != e.id && Find(s.expenses, IdOf, id).None? {
      FindUpdate(s.expenses, i, e, IdOf, id);
    }
    forall k | 0 <= k < |after| ensures after[k] == e || (after[k].id != e.id && after[k] in s.expenses) {
      assert k != i ==> after[k] == s.expenses[k];
    }
    InBooksOf(s.books, s.expenses, i);
    WriteKeepsBooks(s.books, s.expenses, s.expenses[i], e, after);
  }

  lemma {:induction false} InBooksOf(b: Books, expenses: seq<Expense>, i: nat)
    requires GoodBooks(b, expenses) && i < |expenses|
    ensures InBooks(b, expenses[i])
  {
    hide InBooks, Consistent, KeysAreDense, Untouched;
  }

  lemma {:induction false} CreateKeeps(s: Shop, id: string, amount: int, isPaid: Option<bool>, mode: Option<Mode>, user: string)
    requires Good(s) && IsAmount(amount) && Find(s.expenses, IdOf, id).None?
    ensures Created(s, id, amount, isPaid, mode, user).Ok?
    ensures var t := Created(s, id, amount, isPaid, mode, user).value;
      Good(t) && ClosedStay(s.shifts, t.shifts) && |t.expenses| == |s.expenses| + 1 && Synced(t.books, t.expenses[|s.expenses|])
  {
    hide GoodBooks, DrawersAgree, SyncedBooks, Find, Synced, ClosedStay, AppliedPayout, OpenShiftOf;
    var e := NewExpense(s.shifts, id, amount, isPaid, mode, user);
    var after := s.expenses + [e];
    NewExpenseKeeps(s.expenses, s.shifts, s.supplierPayouts, id, amount, isPaid, mode, user);
    forall other: string | Find(after, IdOf, other).None? ensures other != e.id && Find(s.expenses, IdOf, other).None? {
      assert after[|s.expenses|] == e;
      assert forall k | 0 <= k < |s.expenses| :: after[k] == s.expenses[k];
    }
    UnknownIsInBooks(s.books, s.expenses, e);
    WriteKeepsBooks(s.books, s.expenses, e, e, after);
  }

  lemma {:induction false} UnknownIsInBooks(b: Books, expenses: seq<Expense>, e: Expense)
    requires GoodBooks(b, expenses) && Find(expenses, IdOf, e.id).None?
    ensures InBooks(b, e)
  {
    hide Consistent, KeysAreDense, Untouched, Find, Synced;
  }

  lemma {:induction false} OtherPostingKeeps(b: Books, expenses: seq<Expense>, p: Posting)
    requires GoodBooks(b, expenses) && Posted(b, p).Ok? && p.source.kind !in {ExpenseSource, ExpenseAdjustmentSource}
    ensures GoodBooks(Posted(b, p).value.0, expenses)
  {
    hide Posted, InBooks, KeysAreDense, Untouched, SameFamily, Find, BalancesAreSums, RunningBalances, DebitSide;
    hide CreditSide, SourcesAreUnique;
    PostingKeepsBooks(b, p);
    var c := Posted(b, p).value.0;
    forall id: string
      ensures KeysAreDense(c.postings, id) && (Untouched(b.postings, id) ==> Untouched(c.postings, id)) && SameFamily(b, c, id)
    {
      OthersAreLeft(b, p, id);
      SameFamilyKeys(b, c, id);
    }
    forall i | 0 <= i < |expenses| ensures InBooks(c, expenses[i]) {
      SameFamilyInBooks(b, c, expenses[i]);
    }
  }

  lemma {:induction false} ShiftStepKeeps(s: Shop, op: Op)
    requires DrawersAgree(s.expenses, s.shifts, s.supplierPayouts)
    requires op.OpenShift? || op.CloseShift? || op.TakeCash? || op.PaySupplier?
    ensures var t := Step(s, op);
      && t.expenses == s.expenses && t.books == s.books
      && DrawersAgree(t.expenses, t.shifts, t.supplierPayouts) && ClosedStay(s.shifts, t.shifts)
  {
    hide OpenShiftOf, Sum;
    var t := Step(s, op);
    match op
    case OpenShift(user, cash) =>
      NothingNames(s.expenses, s.supplierPayouts, |s.shifts|);
    case PaySupplier(user, amount) =>
      var p := SupplierPayout(OpenShiftOf(s.shifts, user), amount);
      forall k: nat | k < |s.shifts|
        ensures Sum(s.supplierPayouts + [p], SupplierPayoutFrom(k)) == Sum(s.supplierPayouts, SupplierPayoutFrom(k)) + SupplierPayoutFrom(k)(p)
      {
        SumSnoc(s.supplierPayouts, p, SupplierPayoutFrom(k));
      }
    case _ =>
  }

  lemma {:induction false} NothingNames(expenses: seq<Expense>, payouts: seq<SupplierPayout>, k: nat)
    requires forall i | 0 <= i < |expenses| :: expenses[i].shiftId != Some(k)
    requires forall i | 0 <= i < |payouts| :: payouts[i].shiftId != Some(k)
    ensures Sum(expenses, PayoutFrom(k)) == 0 && Sum(payouts, SupplierPayoutFrom(k)) == 0
  {
    SumBounds(expenses, PayoutFrom(k), 0, 0);
    SumBounds(payouts, SupplierPayoutFrom(k), 0, 0);
  }

  lemma {:induction false} ClosedStayRefl(shifts: seq<Shift>)
    ensures ClosedStay(shifts, shifts)
  {}

  /** Every transaction keeps the books, the drawers in agreement with the expenses, and closed drawers as they were. */
  lemma {:induction false} StepKeepsGood(s: Shop, op: Op)
    requires Good(s)
    ensures Good(Step(s, op)) && ClosedStay(s.shifts, Step(s, op).shifts)
  {
    hide GoodBooks, DrawersAgree, ClosedStay, Find, Rewritten, SyncedBooks, Posted, Created;
    ClosedStayRefl(s.shifts);
    match op
    case Create(id, amount, isPaid, mode, user) =>
      if IsAmount(amount) && Find(s.expenses, IdOf, id).None? {
        CreateKeeps(s, id, amount, isPaid, mode, user);
      } else {
        assert Created(s, id, amount, isPaid, mode, user).Err? by { CreateIsRefused(s, id, amount, isPaid, mode, user); }
      }
    case Update(id, amount, isPaid, mode, user) =>
      var found := Find(s.expenses, IdOf, id);
      if found.Some? && (amount.Some? ==> IsAmount(amount.value)) {
        AmountsArePositive(s, found.value);
        RewriteKeeps(s, found.value, Edited(s.expenses[found.value], amount, isPaid, mode), user);
      }
    case Delete(id, user) =>
      var found := Find(s.expenses, IdOf, id);
      if found.Some? {
        AmountsArePositive(s, found.value);
        RewriteKeeps(s, found.value, s.expenses[found.value].(isDeleted := true), user);
      }
    case PostOther(p) =>
      if p.source.kind !in {ExpenseSource, ExpenseAdjustmentSource} && Posted(s.books, p).Ok? {
        OtherPostingKeeps(s.books, s.expenses, p);
      }
    case _ =>
      ShiftStepKeeps(s, op);
  }

  lemma {:induction false} CreateIsRefused(
      s: Shop, id: string, amount: int, isPaid: Option<bool>, mode: Option<Mode>, user: string)
    requires !(IsAmount(amount) && Find(s.expenses, IdOf, id).None?)
    ensures Created(s, id, amount, isPaid, mode, user).Err?
  {}

  lemma {:induction false} AmountsArePositive(s: Shop, i: nat)
    requires DrawersAgree(s.expenses, s.shifts, s.supplierPayouts) && i < |s.expenses|
    ensures 1 <= s.expenses[i].amount
  {
    hide Sum;
  }

  function Run(s: Shop, ops: seq<Op>): Shop {
    if ops == [] then s else Step(Run(s, ops[..|ops| - 1]), ops[|ops| - 1])
  }

  lemma {:induction false} ClosedStayTrans(a: seq<Shift>, b: seq<Shift>, c: seq<Shift>)
    requires ClosedStay(a, b) && ClosedStay(b, c)
    ensures ClosedStay(a, c)
  {}

  /** The transaction goes through and writes the expense: creates, edits or deletes it. */
  predicate Writes(s: Shop, op: Op, id: string) {
    match op
    case Create(key, amount, isPaid, mode, user) => key == id && Created(s, key, amount, isPaid, mode, user).Ok?
    case Update(key, amount, isPaid, mode, user) => key == id && Updated(s, key, amount, isPaid, mode, user).Ok?
    case Delete(key, user) => key == id && SoftDeleted(s, key, user).Ok?
    case _ => false
  }

  /** After a transaction an expense is one it wrote, in step, or one it left with all its postings. */
  ghost predicate IsWrittenOrLeft(s: Shop, op: Op, t: Shop, i: nat)
    requires i < |t.expenses|
  {
    var e := t.expenses[i];
    if Writes(s, op, e.id) then Synced(t.books, e)
    else i < |s.expenses| && e == s.expenses[i] && SameFamily(s.books, t.books, e.id)
  }

  lemma {:induction false} RewriteWritesOne(s: Shop, op: Op, k: nat, next: Expense, user: string, i: nat)
    requires Good(s) && k < |s.expenses| && next.id == s.expenses[k].id && 1 <= next.amount
    requires i < |s.expenses| && Rewritten(s, k, next, user).Ok? && Step(s, op) == Rewritten(s, k, next, user).value
    requires forall id: string :: Writes(s, op, id) <==> id == next.id
    ensures IsWrittenOrLeft(s, op, Step(s, op), i)
  {
    hide GoodBooks, DrawersAgree, MovedDrawer, SyncedBooks, Synced, SameFamily, Writes, Step;
    RewriteKeeps(s, k, next, user);
    if i != k {
      var e := next.(shiftId := MovedDrawer(s.shifts, user, s.expenses[k], next).1);
      assert s.expenses[i].id != e.id;
      DenseKeysOf(s.books, s.expenses, e.id);
      SyncLeavesOthers(s.books, e, s.expenses[i].id);
    }
  }

  lemma {:induction false} DenseKeysOf(b: Books, expenses: seq<Expense>, id: string)
    requires GoodBooks(b, expenses)
    ensures KeysAreDense(b.postings, id)
  {
    hide InBooks, Consistent, KeysAreDense, Untouched, Find;
  }

  lemma {:induction false} CreateWritesOne(
      s: Shop, id: string, amount: int, isPaid: Option<bool>, mode: Option<Mode>, user: string, i: nat)
    requires Good(s) && IsAmount(amount) && Find(s.expenses, IdOf, id).None? && i <= |s.expenses|
    requires var t := Created(s, id, amount, isPaid, mode, user); t.Ok? && |t.value.expenses| == |s.expenses| + 1
    ensures var op := Create(id, amount, isPaid, mode, user); IsWrittenOrLeft(s, op, Created(s, id, amount, isPaid, mode, user).value, i)
  {
    hide GoodBooks, DrawersAgree, SyncedBooks, Synced, SameFamily, AppliedPayout, OpenShiftOf;
    CreateKeeps(s, id, amount, isPaid, mode, user);
    if i < |s.expenses| {
      var e := NewExpense(s.shifts, id, amount, isPaid, mode, user);
      assert IdOf(s.expenses[i]) != id;
      DenseKeysOf(s.books, s.expenses, id);
      SyncLeavesOthers(s.books, e, s.expenses[i].id);
    }
  }

  lemma {:induction false} SameFamilyRefl(b: Books, id: string)
    ensures SameFamily(b, b, id)
  {}

  /** A transaction writes one expense at most and leaves that one in step; every other keeps its row and its postings. */
  lemma {:induction false} StepWritesOne(s: Shop, op: Op, i: nat)
    requires Good(s) && i < |Step(s, op).expenses|
    ensures IsWrittenOrLeft(s, op, Step(s, op), i)
  {
    hide GoodBooks, DrawersAgree, Find, Rewritten, SyncedBooks, Posted, Created, SameFamily, IsWrittenOrLeft;
    match op
    case Create(id, amount, isPaid, mode, user) =>
      if IsAmount(amount) && Find(s.expenses, IdOf, id).None? {
        CreateKeeps(s, id, amount, isPaid, mode, user);
        CreateWritesOne(s, id, amount, isPaid, mode, user, i);
      } else {
        assert Created(s, id, amount, isPaid, mode, user).Err? by { CreateIsRefused(s, id, amount, isPaid, mode, user); }
        RefusalWritesNothing(s, op, i);
      }
    case Update(id, amount, isPaid, mode, user) =>
      var found := Find(s.expenses, IdOf, id);
      if found.Some? && !s.expenses[found.value].isDeleted && (amount.Some? ==> IsAmount(amount.value)) {
        AmountsArePositive(s, found.value);
        var next := Edited(s.expenses[found.value], amount, isPaid, mode);
        RewriteKeeps(s, found.value, next, user);
        RewriteWritesOne(s, op, found.value, next, user, i);
      } else {
        RefusalWritesNothing(s, op, i);
      }
    case Delete(id, user) =>
      var found := Find(s.expenses, IdOf, id);
      if found.Some? && !s.expenses[found.value].isDeleted {
        AmountsArePositive(s, found.value);
        var next := s.expenses[found.value].(isDeleted := true);
        RewriteKeeps(s, found.value, next, user);
        RewriteWritesOne(s, op, found.value, next, user, i);
      } else {
        RefusalWritesNothing(s, op, i);
      }
    case PostOther(p) =>
      if p.source.kind !in {ExpenseSource, ExpenseAdjustmentSource} && Posted(s.books, p).Ok? {
        OthersAreLeft(s.books, p, s.expenses[i].id);
        LeavesAll(s, op, i);
      } else {
        RefusalWritesNothing(s, op, i);
      }
    case _ =>
      ShiftStepKeeps(s, op);
      SameFamilyRefl(s.books, s.expenses[i].id);
      LeavesAll(s, op, i);
  }

  lemma {:induction false} LeavesAll(s: Shop, op: Op, i: nat)
    requires Step(s, op).expenses == s.expenses && i < |s.expenses|
    requires SameFamily(s.books, Step(s, op).books, s.expenses[i].id)
    requires forall id: string :: !Writes(s, op, id)
    ensures IsWrittenOrLeft(s, op, Step(s, op), i)
  {
    hide SameFamily, Step, Writes;
  }

  lemma {:induction false} RefusalWritesNothing(s: Shop, op: Op, i: nat)
    requires Step(s, op) == s && i < |s.expenses|
    requires forall id: string :: !Writes(s, op, id)
    ensures IsWrittenOrLeft(s, op, Step(s, op), i)
  {
    hide SameFamily, Step, Writes;
    SameFamilyRefl(s.books, s.expenses[i].id);
    LeavesAll(s, op, i);
  }

  /** The k-th transaction of a run writes the expense. */
  predicate WritesAt(s: Shop, ops: seq<Op>, id: string, k: nat)
    requires k < |ops|
  {
    Writes(Run(s, ops[..k]), ops[k], id)
  }

  ghost predicate WrittenDuring(s: Shop, ops: seq<Op>, id: string) {
    exists k: nat :: k < |ops| && WritesAt(s, ops, id, k)
  }

  /** An expense after a run: in step if the run wrote it, and otherwise as it was, in step if it was. */
  ghost predicate StaysInStep(s: Shop, ops: seq<Op>, t: Shop, i: nat)
    requires i < |t.expenses|
  {
    var e := t.expenses[i];
    if WrittenDuring(s, ops, e.id) then Synced(t.books, e)
    else i < |s.expenses| && e == s.expenses[i] && (Synced(s.books, e) ==> Synced(t.books, e))
  }

  /**
   * After any run of expense writes, shift operations, supplier payments and
   * other postings: the postings of every expense that the run created, edited
   * or deleted add up to what it implies, and every other expense is as it was,
   * in step if it was; each open drawer's payouts are those that name it, and
   * drawers that had closed are exactly as they were.
   */
  lemma {:induction false} EveryRunStaysInStep(s: Shop, ops: seq<Op>)
    requires Good(s)
    ensures Good(Run(s, ops)) && ClosedStay(s.shifts, Run(s, ops).shifts)
    ensures forall i: nat | i < |Run(s, ops).expenses| :: StaysInStep(s, ops, Run(s, ops), i)
  {
    hide Good, Step, ClosedStay, Writes, Synced;
    if ops == [] {
      ClosedStayRefl(s.shifts);
    } else {
      var n := |ops| - 1;
      var before := Run(s, ops[..n]);
      EveryRunStaysInStep(s, ops[..n]);
      StepKeepsGood(before, ops[n]);
      ClosedStayTrans(s.shifts, before.shifts, Run(s, ops).shifts);
      forall i: nat | i < |Run(s, ops).expenses| ensures StaysInStep(s, ops, Run(s, ops), i) {
        StepWritesOne(before, ops[n], i);
        OneStepMore(s, ops, i);
      }
    }
  }

  lemma {:induction false} OneStepMore(s: Shop, ops: seq<Op>, i: nat)
    requires ops != [] && i < |Run(s, ops).expenses|
    requires IsWrittenOrLeft(Run(s, ops[..|ops| - 1]), ops[|ops| - 1], Run(s, ops), i)
    requires i < |Run(s, ops[..|ops| - 1]).expenses| ==>
      StaysInStep(s, ops[..|ops| - 1], Run(s, ops[..|ops| - 1]), i)
    ensures StaysInStep(s, ops, Run(s, ops), i)
  {
    hide Step, Writes, LedgerState, FamilyNet, KeysAreDense, Untouched;
    var n := |ops| - 1;
    var id := Run(s, ops).expenses[i].id;
    WrittenMore(s, ops, id);
    if !WritesAt(s, ops, id, n) {
      SameFamilySynced(Run(s, ops[..n]).books, Run(s, ops).books, Run(s, ops).expenses[i]);
    }
  }

  lemma {:induction false} WrittenMore(s: Shop, ops: seq<Op>, id: string)
    requires ops != []
    ensures WrittenDuring(s, ops, id) <==> WrittenDuring(s, ops[..|ops| - 1], id) || WritesAt(s, ops, id, |ops| - 1)
  {
    hide Run, Writes;
    var n := |ops| - 1;
    forall k: nat | k < n ensures WritesAt(s, ops, id, k) == WritesAt(s, ops[..n], id, k) {
      assert ops[..n][..k] == ops[..k];
    }
  }

  lemma {:induction false} SameFamilySynced(b: Books, c: Books, e: Expense)
    requires SameFamily(b, c, e.id)
    ensures Synced(b, e) <==> Synced(c, e)
  {
    hide FamilyNet, LedgerState, KeysAreDense;
  }

  /** A shop whose expenses are all in step, an empty one for instance, keeps them all in step for ever. */
  lemma {:induction false} InStepForEver(s: Shop, ops: seq<Op>)
    requires Good(s) && forall i | 0 <= i < |s.expenses| :: Synced(s.books, s.expenses[i])
    ensures forall i | 0 <= i < |Run(s, ops).expenses| :: Synced(Run(s, ops).books, Run(s, ops).expenses[i])
  {
    hide Good, Run, Synced, WrittenDuring;
    EveryRunStaysInStep(s, ops);
    forall i: nat | i < |Run(s, ops).expenses| ensures Synced(Run(s, ops).books, Run(s, ops).expenses[i]) {
      assert StaysInStep(s, ops, Run(s, ops), i);
    }
  }

  /** An expense created, edited or deleted at any moment is in step in every later state, whatever its books were before. */
  lemma {:induction false} InStepOnceWritten(s: Shop, ops: seq<Op>, k: nat, m: nat, i: nat)
    requires Good(s) && k < m <= |ops| && i < |Run(s, ops[..m]).expenses|
    requires WritesAt(s, ops, Run(s, ops[..m]).expenses[i].id, k)
    ensures Synced(Run(s, ops[..m]).books, Run(s, ops[..m]).expenses[i])
  {
    hide Good, Run, Synced, Writes;
    EveryRunStaysInStep(s, ops[..m]);
    var id := Run(s, ops[..m]).expenses[i].id;
    assert ops[..m][..k] == ops[..k];
    assert WritesAt(s, ops[..m], id, k);
    assert StaysInStep(s, ops[..m], Run(s, ops[..m]), i);
  }

  /** Where a shop starts: expenses recorded before any was posted, no drawers yet, and any consistent books of other documents. */
  lemma {:induction false} LegacyShopIsGood(expenses: seq<Expense>, b: Books)
    requires IdsAreUnique(expenses) && Consistent(b)
    requires forall i | 0 <= i < |expenses| :: 1 <= expenses[i].amount && expenses[i].shiftId.None?
    requires forall i | 0 <= i < |b.postings| :: b.postings[i].kind !in {ExpenseSource, ExpenseAdjustmentSource}
    ensures Good(Shop(expenses, [], [], b))
  {
    hide Consistent, Find;
    forall id: string ensures KeysAreDense(b.postings, id) && Untouched(b.postings, id) {
      SumBounds(b.postings, AdjustmentOf(id), 0, 0);
    }
  }

  /** What an expense takes from a drawer is what its postings credit to cash; the rest of what it costs is credited to the bank. */
  lemma {:induction false} DrawerMatchesBooks(b: Books, e: Expense)
    requires Synced(b, e) && 1 <= e.amount
    ensures FamilyNet(b, e.id, Cash) == -CashOut(e)
    ensures FamilyNet(b, e.id, Expenses) == -(FamilyNet(b, e.id, Cash) + FamilyNet(b, e.id, Bank))
    ensures FamilyNet(b, e.id, Expenses) == if e.isPaid && !e.isDeleted then e.amount else 0
  {
    hide FamilyNet;
  }

  /** A paid expense always has a mode, and one that was chosen survives a switch to pending and back. */
  lemma {:induction false} EditKeepsMode(e: Expense, isPaid: Option<bool>, amount: Option<int>)
    ensures Edited(e, amount, isPaid, None).isPaid ==> Edited(e, amount, isPaid, None).mode.Some?
    ensures e.mode.Some? ==> Edited(Edited(e, None, Some(false), None), amount, isPaid, None).mode == e.mode
    ensures forall shifts: seq<Shift>, user: string ::
      var created := NewExpense(shifts, e.id, e.amount, isPaid, e.mode, user); created.isPaid ==> created.mode.Some?
  {}
}
