/** One shop's double-entry books: balanced postings under unique source keys, with running balances. */
module Ledger {
  import opened Common
  import opened Rounding

  datatype Account =
    | Cash | Bank | AccountsReceivable | SalesRevenue | GstPayable | CostOfGoods | Inventory | UdharReceivable
    | AccountsPayable | InventoryAdjustment | OpeningBalanceEquity | InputGst | Expenses

  predicate DebitNormal(a: Account) {
    a in {Cash, Bank, AccountsReceivable, UdharReceivable, CostOfGoods, Inventory, InventoryAdjustment, InputGst, Expenses}
  }

  /** The place of an account's name in alphabetical order. */
  function Rank(a: Account): int {
    match a
    case AccountsPayable => 0 case AccountsReceivable => 1 case Bank => 2 case Cash => 3 case CostOfGoods => 4
    case Expenses => 5 case GstPayable => 6 case InputGst => 7 case Inventory => 8 case InventoryAdjustment => 9
    case OpeningBalanceEquity => 10 case SalesRevenue => 11 case UdharReceivable => 12
  }

  datatype EntryType = Debit | Credit

  /** An entry as a caller sends it, in paise not yet rounded. */
  datatype EntryInput = EntryInput(account: Account, kind: EntryType, amount: real)

  datatype Entry = Entry(account: Account, kind: EntryType, amount: int)

  datatype SourceType =
    | SaleSource | ReturnSource | CancellationSource | CustomerPaymentSource | GrnSource | PurchaseReturnSource
    | AdjustmentRequestSource | StockAdjustmentSource | SupplierPaymentSource | OpeningBalanceSource | VendorBillSource
    | SupplierCreditNoteSource | SupplierOpeningBalanceSource | ExpenseSource | ExpenseAdjustmentSource

  /** A document's id, or the n-th adjustment of one (`<id>:<n>`; ids carry no colon). */
  datatype SourceId = Document(id: string) | Adjustment(id: string, n: nat)

  datatype Source = Source(kind: SourceType, id: SourceId)

  datatype Posting = Posting(source: Source, entries: seq<EntryInput>)

  datatype Txn = Txn(entry: Entry, balanceAfter: int, source: Source)

  datatype Books = Books(balances: map<Account, int>, transactions: seq<Txn>, postings: seq<Source>)

  datatype Error = Unbalanced

  const EmptyBooks := Books(map[], [], [])

  function BalanceOf(b: Books, a: Account): int {
    if a in b.balances then b.balances[a] else 0
  }

  // ---------------------------------------------------------------------------
  // One posting
  // ---------------------------------------------------------------------------

  /** Rounded to the paisa; entries that are not positive are dropped. */
  function Normalised(inputs: seq<EntryInput>): seq<Entry> {
    if inputs == [] then [] else
    var last := inputs[|inputs| - 1];
    Normalised(inputs[..|inputs| - 1])
    + (if HalfUp(last.amount) > 0 then [Entry(last.account, last.kind, HalfUp(last.amount))] else [])
  }

  function DebitAmount(e: Entry): int { if e.kind.Debit? then e.amount else 0 }
  function CreditAmount(e: Entry): int { if e.kind.Credit? then e.amount else 0 }
  function NetDebit(e: Entry): int { DebitAmount(e) - CreditAmount(e) }

  /** Debits less credits that entries bring to one account. */
  function Move(a: Account): Entry -> int {
    (e: Entry) => if e.account == a then NetDebit(e) else 0
  }

  /** Where an entry goes among sorted ones: after every entry of its account or an earlier one. */
  function Inserted(sorted: seq<Entry>, e: Entry): seq<Entry> {
    if sorted == [] || Rank(sorted[|sorted| - 1].account) <= Rank(e.account) then sorted + [e]
    else Inserted(sorted[..|sorted| - 1], e) + [sorted[|sorted| - 1]]
  }

  /** The stable sort by account name. */
  function Sorted(entries: seq<Entry>): seq<Entry> {
    if entries == [] then [] else Inserted(Sorted(entries[..|entries| - 1]), entries[|entries| - 1])
  }

  /** An account's balance after one entry, on the account's own normal side. */
  function Grown(balance: int, e: Entry): int {
    if DebitNormal(e.account) == e.kind.Debit? then balance + e.amount else balance - e.amount
  }

  function Entered(b: Books, e: Entry, source: Source): Books {
    var next := Grown(BalanceOf(b, e.account), e);
    b.(balances := b.balances[e.account := next], transactions := b.transactions + [Txn(e, next, source)])
  }

  function AllEntered(b: Books, entries: seq<Entry>, source: Source): Books {
    if entries == [] then b
    else Entered(AllEntered(b, entries[..|entries| - 1], source), entries[|entries| - 1], source)
  }

  /** The books after a posting and whether it was posted; a balanced new source posts, a replay or an empty one does not. */
  function Posted(b: Books, p: Posting): Result<(Books, bool), Error> {
    var entries := Normalised(p.entries);
    if entries == [] || p.source in b.postings then Ok((b, false))
    else if Sum(entries, DebitAmount) != Sum(entries, CreditAmount) then Err(Unbalanced)
    else Ok((AllEntered(b.(postings := b.postings + [p.source]), Sorted(entries), p.source), true))
  }

  class LedgerPostingService {
    var balances: map<Account, int>
    var transactions: seq<Txn>
    var postings: seq<Source>

    ghost function Contents(): Books
      reads this
    {
      Books(balances, transactions, postings)
    }

    constructor ()
      ensures Contents() == EmptyBooks
    {
      balances, transactions, postings := map[], [], [];
    }

    /** Posts under the source's unique key; an unbalanced posting is refused and nothing is written. */
    method Post(p: Posting) returns (r: Result<bool, Error>)
      modifies this
      ensures Posted(old(Contents()), p).Err? ==> r == Err(Unbalanced) && Contents() == old(Contents())
      ensures Posted(old(Contents()), p).Ok? ==>
        r == Ok(Posted(old(Contents()), p).value.1) && Contents() == Posted(old(Contents()), p).value.0
    {
      hide Normalised, Sorted, Grown;
      var entries := Normalised(p.entries);
      if entries == [] || p.source in postings {
        return Ok(false);
      }
      var debits, credits := 0, 0;
      for i := 0 to |entries|
        invariant Contents() == old(Contents())
        invariant debits == Sum(entries[..i], DebitAmount) && credits == Sum(entries[..i], CreditAmount)
      {
        SumTake(entries, i, DebitAmount);
        SumTake(entries, i, CreditAmount);
        debits, credits := debits + DebitAmount(entries[i]), credits + CreditAmount(entries[i]);
      }
      assert entries[..|entries|] == entries;
      if debits != credits {
        return Err(Unbalanced);
      }
      postings := postings + [p.source];
      ghost var headed := Contents();
      var sorted := Sorted(entries);
      for i := 0 to |sorted|
        invariant Contents() == AllEntered(headed, sorted[..i], p.source)
      {
        var upTo := sorted[..i + 1];
        assert upTo[..i] == sorted[..i] && upTo[i] == sorted[i];
        var entry := sorted[i];
        var current := if entry.account in balances then balances[entry.account] else 0;
        var next := Grown(current, entry);
        balances := balances[entry.account := next];
        transactions := transactions + [Txn(entry, next, p.source)];
      }
      assert sorted[..|sorted|] == sorted;
      return Ok(true);
    }
  }

  // ---------------------------------------------------------------------------
  // The sort keeps every sum, and every account's own order
  // ---------------------------------------------------------------------------

  lemma {:induction false} InsertedSum(sorted: seq<Entry>, e: Entry, f: Entry -> int)
    ensures Sum(Inserted(sorted, e), f) == Sum(sorted, f) + f(e)
  {
    if sorted == [] || Rank(sorted[|sorted| - 1].account) <= Rank(e.account) {
      SumSnoc(sorted, e, f);
    } else {
      InsertedSum(sorted[..|sorted| - 1], e, f);
      SumSnoc(Inserted(sorted[..|sorted| - 1], e), sorted[|sorted| - 1], f);
    }
  }

  lemma {:induction false} SortedSum(entries: seq<Entry>, f: Entry -> int)
    ensures Sum(Sorted(entries), f) == Sum(entries, f)
  {
    if entries != [] {
      SortedSum(entries[..|entries| - 1], f);
      InsertedSum(Sorted(entries[..|entries| - 1]), entries[|entries| - 1], f);
    }
  }

  ghost predicate InNameOrder(entries: seq<Entry>) {
    forall i, j | 0 <= i < j < |entries| :: Rank(entries[i].account) <= Rank(entries[j].account)
  }

  function OfAccount(entries: seq<Entry>, a: Account): seq<Entry> {
    if entries == [] then [] else
    var last := entries[|entries| - 1];
    OfAccount(entries[..|entries| - 1], a) + (if last.account == a then [last] else [])
  }

  lemma {:induction false} OfAccountSnoc(entries: seq<Entry>, e: Entry, a: Account)
    ensures OfAccount(entries + [e], a) == OfAccount(entries, a) + (if e.account == a then [e] else [])
  {
    assert (entries + [e])[..|entries|] == entries;
  }

  lemma {:induction false} InsertedInOrder(sorted: seq<Entry>, e: Entry)
    requires InNameOrder(sorted)
    ensures InNameOrder(Inserted(sorted, e)) && |Inserted(sorted, e)| == |sorted| + 1
    ensures forall x | x in Inserted(sorted, e) :: x in sorted || x == e
  {
    hide Rank;
    if sorted == [] || Rank(sorted[|sorted| - 1].account) <= Rank(e.account) {
    } else {
      InsertedInOrder(sorted[..|sorted| - 1], e);
      var inner := Inserted(sorted[..|sorted| - 1], e);
      forall i | 0 <= i < |inner| ensures Rank(inner[i].account) <= Rank(sorted[|sorted| - 1].account) {
        assert inner[i] in inner;
      }
    }
  }

  lemma {:induction false} InsertedIsStable(sorted: seq<Entry>, e: Entry, a: Account)
    ensures OfAccount(Inserted(sorted, e), a) == OfAccount(sorted, a) + (if e.account == a then [e] else [])
  {
    if sorted == [] || Rank(sorted[|sorted| - 1].account) <= Rank(e.account) {
      OfAccountSnoc(sorted, e, a);
    } else {
      var init, last := sorted[..|sorted| - 1], sorted[|sorted| - 1];
      InsertedIsStable(init, e, a);
      OfAccountSnoc(Inserted(init, e), last, a);
      assert last.account != e.account;
    }
  }

  /** The entries are written in account-name order, and each account's entries in the caller's order. */
  lemma {:induction false} SortIsStable(entries: seq<Entry>, a: Account)
    ensures InNameOrder(Sorted(entries)) && |Sorted(entries)| == |entries|
    ensures OfAccount(Sorted(entries), a) == OfAccount(entries, a)
  {
    if entries != [] {
      SortIsStable(entries[..|entries| - 1], a);
      InsertedInOrder(Sorted(entries[..|entries| - 1]), entries[|entries| - 1]);
      InsertedIsStable(Sorted(entries[..|entries| - 1]), entries[|entries| - 1], a);
    }
  }

  // ---------------------------------------------------------------------------
  // What every run of postings keeps
  // ---------------------------------------------------------------------------

  /** What one transaction brings to an account, on the account's normal side. */
  function Signed(a: Account): Txn -> int {
    (t: Txn) => if t.entry.account != a then 0 else Grown(0, t.entry)
  }

  function TxnNetDebit(t: Txn): int { NetDebit(t.entry) }

  ghost function DebitSide(b: Books): int {
    BalanceOf(b, Cash) + BalanceOf(b, Bank) + BalanceOf(b, AccountsReceivable) + BalanceOf(b, UdharReceivable)
    + BalanceOf(b, CostOfGoods) + BalanceOf(b, Inventory) + BalanceOf(b, InventoryAdjustment) + BalanceOf(b, InputGst)
    + BalanceOf(b, Expenses)
  }

  ghost function CreditSide(b: Books): int {
    BalanceOf(b, SalesRevenue) + BalanceOf(b, GstPayable) + BalanceOf(b, AccountsPayable) + BalanceOf(b, OpeningBalanceEquity)
  }

  ghost predicate BalancesAreSums(b: Books) {
    forall a: Account :: BalanceOf(b, a) == Sum(b.transactions, Signed(a))
  }

  ghost predicate RunningBalances(b: Books) {
    forall i | 0 <= i < |b.transactions| ::
      b.transactions[i].balanceAfter == Sum(b.transactions[..i + 1], Signed(b.transactions[i].entry.account))
  }

  ghost predicate SourcesAreUnique(b: Books) {
    && (forall i, j | 0 <= i < j < |b.postings| :: b.postings[i] != b.postings[j])
    && (forall i | 0 <= i < |b.transactions| :: b.transactions[i].source in b.postings)
  }

  /** The books' invariant. */
  ghost predicate Consistent(b: Books) {
    && BalancesAreSums(b)
    && RunningBalances(b)
    && SourcesAreUnique(b)
    && DebitSide(b) == CreditSide(b)
  }

  /** What holds after every row of a posting; the two sides agree only between postings. */
  ghost predicate EnteredConsistently(b: Books) {
    BalancesAreSums(b) && RunningBalances(b)
  }

  lemma {:induction false} EnteredKeeps(b: Books, e: Entry, source: Source)
    requires EnteredConsistently(b)
    ensures EnteredConsistently(Entered(b, e, source))
  {
    var c := Entered(b, e, source);
    var t := c.transactions[|b.transactions|];
    assert c.transactions == b.transactions + [t];
    forall a: Account ensures BalanceOf(c, a) == Sum(c.transactions, Signed(a)) {
      SumSnoc(b.transactions, t, Signed(a));
    }
    forall i | 0 <= i < |c.transactions|
      ensures c.transactions[i].balanceAfter == Sum(c.transactions[..i + 1], Signed(c.transactions[i].entry.account))
    {
      if i < |b.transactions| {
        assert c.transactions[..i + 1] == b.transactions[..i + 1];
      } else {
        assert c.transactions[..i + 1] == c.transactions;
      }
    }
  }

  lemma {:induction false} AllEnteredKeeps(b: Books, entries: seq<Entry>, source: Source)
    requires EnteredConsistently(b)
    ensures EnteredConsistently(AllEntered(b, entries, source))
  {
    hide EnteredConsistently, Entered;
    if entries != [] {
      AllEnteredKeeps(b, entries[..|entries| - 1], source);
      EnteredKeeps(AllEntered(b, entries[..|entries| - 1], source), entries[|entries| - 1], source);
    }
  }

  /** The rows a posting appends: one a sorted entry, all under its source. */
  lemma {:induction false} AllEnteredRows(b: Books, entries: seq<Entry>, source: Source)
    ensures var c := AllEntered(b, entries, source);
      && c.postings == b.postings
      && |c.transactions| == |b.transactions| + |entries|
      && c.transactions[..|b.transactions|] == b.transactions
      && forall i | |b.transactions| <= i < |c.transactions| ::
           c.transactions[i].entry == entries[i - |b.transactions|] && c.transactions[i].source == source
  {
    if entries != [] {
      AllEnteredRows(b, entries[..|entries| - 1], source);
    }
  }

  /** A sum over rows moves by the same sum over a posting's entries. */
  lemma {:induction false} AllEnteredSum(b: Books, entries: seq<Entry>, source: Source, g: Txn -> int, f: Entry -> int)
    requires forall e: Entry, balance: int :: g(Txn(e, balance, source)) == f(e)
    ensures Sum(AllEntered(b, entries, source).transactions, g) == Sum(b.transactions, g) + Sum(entries, f)
  {
    if entries != [] {
      var n := |entries| - 1;
      AllEnteredSum(b, entries[..n], source, g, f);
      var before := AllEntered(b, entries[..n], source);
      var next := Grown(BalanceOf(before, entries[n].account), entries[n]);
      SumSnoc(before.transactions, Txn(entries[n], next, source), g);
    }
  }

  lemma {:induction false} NetDebitIsDifference(entries: seq<Entry>)
    ensures Sum(entries, NetDebit) == Sum(entries, DebitAmount) - Sum(entries, CreditAmount)
  {
    SumPlus(entries, NetDebit, CreditAmount, DebitAmount);
  }

  /** Every accepted posting keeps the books consistent. */
  lemma {:induction false} PostingKeepsBooks(b: Books, p: Posting)
    requires Consistent(b) && Posted(b, p).Ok?
    ensures Consistent(Posted(b, p).value.0)
  {
    hide Normalised, Sorted, DebitSide, CreditSide, BalancesAreSums, RunningBalances, AllEntered, BalanceOf;
    var entries := Normalised(p.entries);
    if Posted(b, p).value.1 {
      var headed := b.(postings := b.postings + [p.source]);
      HeaderKeepsRows(b, p.source);
      AllEnteredKeeps(headed, Sorted(entries), p.source);
      AllEnteredRows(headed, Sorted(entries), p.source);
      var c := AllEntered(headed, Sorted(entries), p.source);
      UniqueAfter(b, p.source, c);
      SortedSum(entries, NetDebit);
      NetDebitIsDifference(entries);
      AllEnteredSum(headed, Sorted(entries), p.source, TxnNetDebit, NetDebit);
      NetDebitOfBooks(b);
      NetDebitOfBooks(c);
    }
  }

  lemma {:induction false} HeaderKeepsRows(b: Books, source: Source)
    requires EnteredConsistently(b)
    ensures EnteredConsistently(b.(postings := b.postings + [source]))
  {
    var headed := b.(postings := b.postings + [source]);
    assert forall a: Account :: BalanceOf(headed, a) == BalanceOf(b, a);
  }

  /** Each account's balance is its signed rows, so the two sides differ by the rows' net debit. */
  lemma {:induction false} NetDebitOfBooks(b: Books)
    requires BalancesAreSums(b)
    ensures DebitSide(b) - CreditSide(b) == Sum(b.transactions, TxnNetDebit)
  {
    SidesOfRows(b.transactions);
  }

  lemma {:induction false} SidesOfRows(ts: seq<Txn>)
    ensures Sum(ts, Signed(Cash)) + Sum(ts, Signed(Bank)) + Sum(ts, Signed(AccountsReceivable)) + Sum(ts, Signed(UdharReceivable))
      + Sum(ts, Signed(CostOfGoods)) + Sum(ts, Signed(Inventory)) + Sum(ts, Signed(InventoryAdjustment)) + Sum(ts, Signed(InputGst))
      + Sum(ts, Signed(Expenses)) - Sum(ts, Signed(SalesRevenue)) - Sum(ts, Signed(GstPayable)) - Sum(ts, Signed(AccountsPayable))
      - Sum(ts, Signed(OpeningBalanceEquity)) == Sum(ts, TxnNetDebit)
  {
    if ts != [] {
      SidesOfRows(ts[..|ts| - 1]);
    }
  }

  lemma {:induction false} UniqueAfter(b: Books, source: Source, c: Books)
    requires SourcesAreUnique(b) && source !in b.postings
    requires c.postings == b.postings + [source]
    requires |b.transactions| <= |c.transactions| && c.transactions[..|b.transactions|] == b.transactions
    requires forall i | |b.transactions| <= i < |c.transactions| :: c.transactions[i].source == source
    ensures SourcesAreUnique(c)
  {
    forall i | 0 <= i < |c.transactions| ensures c.transactions[i].source in c.postings {
      if i < |b.transactions| {
        assert c.transactions[i] == b.transactions[i];
      } else {
        assert c.postings[|b.postings|] == source;
      }
    }
  }

  /** The books after a run of postings; a refused one changes nothing. */
  function Run(b: Books, postings: seq<Posting>): Books {
    if postings == [] then b else
    var before := Run(b, postings[..|postings| - 1]);
    match Posted(before, postings[|postings| - 1])
    case Err(_) => before
    case Ok(r) => r.0
  }

  lemma {:induction false} EmptyBooksAreConsistent()
    ensures Consistent(EmptyBooks)
  {}

  /** Over any run of postings: balances are signed sums, stamps are prefix sums, sources are unique and the two sides agree. */
  lemma {:induction false} EveryRunIsConsistent(postings: seq<Posting>)
    ensures Consistent(Run(EmptyBooks, postings))
  {
    hide Consistent, Posted;
    if postings == [] {
      EmptyBooksAreConsistent();
    } else {
      EveryRunIsConsistent(postings[..|postings| - 1]);
      var before := Run(EmptyBooks, postings[..|postings| - 1]);
      if Posted(before, postings[|postings| - 1]).Ok? {
        PostingKeepsBooks(before, postings[|postings| - 1]);
      }
    }
  }

  /** The rows written under one source. */
  function RowsOf(ts: seq<Txn>, source: Source): seq<Txn> {
    if ts == [] then [] else
    var last := ts[|ts| - 1];
    RowsOf(ts[..|ts| - 1], source) + (if last.source == source then [last] else [])
  }

  lemma {:induction false} RowsOfUnrelated(ts: seq<Txn>, more: seq<Txn>, source: Source)
    requires forall i | 0 <= i < |more| :: more[i].source != source
    ensures RowsOf(ts + more, source) == RowsOf(ts, source)
  {
    if more == [] {
      assert ts + more == ts;
    } else {
      var n := |more| - 1;
      assert (ts + more)[..|ts + more| - 1] == ts + more[..n];
      RowsOfUnrelated(ts, more[..n], source);
    }
  }

  lemma {:induction false} PostingLeavesOthers(b: Books, p: Posting, source: Source)
    requires Posted(b, p).Ok? && source in b.postings
    ensures var c := Posted(b, p).value.0;
      source in c.postings && RowsOf(c.transactions, source) == RowsOf(b.transactions, source)
    ensures p.source == source ==> Posted(b, p).value == (b, false)
  {
    hide Normalised, Sorted, Entered;
    var c := Posted(b, p).value.0;
    if Posted(b, p).value.1 {
      var headed := b.(postings := b.postings + [p.source]);
      AllEnteredRows(headed, Sorted(Normalised(p.entries)), p.source);
      var more := c.transactions[|b.transactions|..];
      assert c.transactions == b.transactions + more;
      assert forall i | 0 <= i < |more| :: more[i].source == p.source;
      RowsOfUnrelated(b.transactions, more, source);
    }
  }

  /** Once posted, a source's rows never change again, whatever is posted later, its own replays included. */
  lemma {:induction false} SourcePostsOnce(b: Books, source: Source, later: seq<Posting>)
    requires source in b.postings
    ensures source in Run(b, later).postings
    ensures RowsOf(Run(b, later).transactions, source) == RowsOf(b.transactions, source)
  {
    hide Posted, RowsOf;
    if later != [] {
      SourcePostsOnce(b, source, later[..|later| - 1]);
      var before := Run(b, later[..|later| - 1]);
      if Posted(before, later[|later| - 1]).Ok? {
        PostingLeavesOthers(before, later[|later| - 1], source);
      }
    }
  }

  // ---------------------------------------------------------------------------
  // What one posting does to a sum over the rows, for the modules that post
  // ---------------------------------------------------------------------------

  function SignedEntry(a: Account): Entry -> int {
    (e: Entry) => if e.account != a then 0 else Grown(0, e)
  }

  /** A written posting moves any sum over the rows by the same sum over its entries. */
  lemma {:induction false} PostedSum(b: Books, p: Posting, g: Txn -> int, f: Entry -> int)
    requires Posted(b, p).Ok? && Posted(b, p).value.1
    requires forall e: Entry, balance: int :: g(Txn(e, balance, p.source)) == f(e)
    ensures Sum(Posted(b, p).value.0.transactions, g) == Sum(b.transactions, g) + Sum(Normalised(p.entries), f)
  {
    hide Normalised, Sorted, AllEntered;
    var entries := Normalised(p.entries);
    SortedSum(entries, f);
    AllEnteredSum(b.(postings := b.postings + [p.source]), Sorted(entries), p.source, g, f);
  }

  /** A written posting moves each account's balance by the posting's net amount on the account's normal side. */
  lemma {:induction false} PostedBalance(b: Books, p: Posting, a: Account)
    requires Consistent(b) && Posted(b, p).Ok? && Posted(b, p).value.1
    ensures BalanceOf(Posted(b, p).value.0, a) == BalanceOf(b, a) + Sum(Normalised(p.entries), SignedEntry(a))
  {
    hide Posted, Normalised, Grown;
    PostingKeepsBooks(b, p);
    PostedSum(b, p, Signed(a), SignedEntry(a));
  }

  // ---------------------------------------------------------------------------
  // Postings of whole paise
  // ---------------------------------------------------------------------------

  /** Whole-paise entries as the ledger receives them. */
  function AsInputs(entries: seq<Entry>): (inputs: seq<EntryInput>)
    ensures |inputs| == |entries|
  {
    seq(|entries|, i requires 0 <= i < |entries| => EntryInput(entries[i].account, entries[i].kind, entries[i].amount as real))
  }

  ghost predicate NonNegative(entries: seq<Entry>) {
    forall i | 0 <= i < |entries| :: 0 <= entries[i].amount
  }

  /** Rounding and dropping zero entries loses nothing of a non-negative posting. */
  lemma {:induction false} NormalisedSum(entries: seq<Entry>, f: Entry -> int)
    requires NonNegative(entries)
    requires forall e: Entry :: e.amount == 0 ==> f(e) == 0
    ensures Sum(Normalised(AsInputs(entries)), f) == Sum(entries, f)
  {
    hide HalfUp;
    if entries != [] {
      var n := |entries| - 1;
      NormalisedSum(entries[..n], f);
      var inputs := AsInputs(entries);
      assert inputs[..n] == AsInputs(entries[..n]);
      HalfUpOfInt(entries[n].amount);
      var kept := Normalised(inputs[..n]);
      SumSnoc(kept, entries[n], f);
      assert inputs[n] == EntryInput(entries[n].account, entries[n].kind, entries[n].amount as real);
      assert Normalised(inputs) == kept + (if entries[n].amount > 0 then [entries[n]] else []);
      assert kept + [] == kept;
    }
  }

  /** A posting of non-negative entries whose debits equal its credits is never refused. */
  lemma {:induction false} BalancedPostingIsAccepted(b: Books, source: Source, entries: seq<Entry>)
    requires NonNegative(entries) && Sum(entries, DebitAmount) == Sum(entries, CreditAmount)
    ensures Posted(b, Posting(source, AsInputs(entries))).Ok?
  {
    hide Normalised, AllEntered;
    NormalisedSum(entries, DebitAmount);
    NormalisedSum(entries, CreditAmount);
  }

  lemma {:induction false} SumOfOne(a: Entry, f: Entry -> int)
    ensures Sum([a], f) == f(a)
  {
    assert [a][..0] == [];
  }

  lemma {:induction false} TwoEntries(a: Entry, b: Entry, f: Entry -> int)
    ensures Sum([a, b], f) == f(a) + f(b)
  {
    SumOfOne(a, f);
    SumSnoc([a], b, f);
    assert [a] + [b] == [a, b];
  }

  /** The signed movement entries bring to an account, on the account's normal side. */
  function Moved(entries: seq<Entry>, a: Account): int { Sum(entries, SignedEntry(a)) }

  /** What a new source's accepted posting of non-negative entries brings to an account's balance. */
  lemma {:induction false} PostedMoves(b: Books, source: Source, entries: seq<Entry>, a: Account)
    requires Consistent(b) && source !in b.postings && NonNegative(entries)
    requires Posted(b, Posting(source, AsInputs(entries))).Ok?
    ensures BalanceOf(Posted(b, Posting(source, AsInputs(entries))).value.0, a) == BalanceOf(b, a) + Moved(entries, a)
  {
    hide Normalised, AllEntered, BalanceOf, Consistent;
    var p := Posting(source, AsInputs(entries));
    NormalisedSum(entries, SignedEntry(a));
    if Normalised(p.entries) != [] {
      PostedBalance(b, p, a);
    }
  }

  /** What a new source's accepted posting of non-negative entries brings to any sum over the rows, and to the list of sources. */
  lemma {:induction false} PostedWholeSum(b: Books, source: Source, entries: seq<Entry>, g: Txn -> int, f: Entry -> int)
    requires source !in b.postings && NonNegative(entries)
    requires Posted(b, Posting(source, AsInputs(entries))).Ok?
    requires forall e: Entry, balance: int :: g(Txn(e, balance, source)) == f(e)
    requires forall e: Entry :: e.amount == 0 ==> f(e) == 0
    ensures Sum(Posted(b, Posting(source, AsInputs(entries))).value.0.transactions, g) == Sum(b.transactions, g) + Sum(entries, f)
  {
    hide Normalised, AllEntered;
    var p := Posting(source, AsInputs(entries));
    NormalisedSum(entries, f);
    if Normalised(p.entries) != [] {
      PostedSum(b, p, g, f);
    }
  }

  /** The sources a posting leaves: the old ones, and its own when it wrote a row. */
  lemma {:induction false} PostedSources(b: Books, p: Posting)
    requires Posted(b, p).Ok?
    ensures Posted(b, p).value.0.postings == b.postings + (if Posted(b, p).value.1 then [p.source] else [])
  {
    hide Normalised, Sorted;
    if Posted(b, p).value.1 {
      AllEnteredRows(b.(postings := b.postings + [p.source]), Sorted(Normalised(p.entries)), p.source);
    } else {
      assert b.postings + [] == b.postings;
    }
  }

  /** A posting of whole paise writes rows exactly when its source is new and some amount is positive. */
  lemma {:induction false} PostedWholeWrites(b: Books, source: Source, entries: seq<Entry>)
    requires NonNegative(entries) && Posted(b, Posting(source, AsInputs(entries))).Ok?
    ensures Posted(b, Posting(source, AsInputs(entries))).value.1 <==>
      source !in b.postings && exists i :: 0 <= i < |entries| && entries[i].amount > 0
  {
    hide AllEntered, Normalised;
    NormalisedIsEmpty(entries);
  }

  lemma {:induction false} NormalisedIsEmpty(entries: seq<Entry>)
    requires NonNegative(entries)
    ensures Normalised(AsInputs(entries)) == [] <==> forall i | 0 <= i < |entries| :: entries[i].amount == 0
  {
    hide HalfUp;
    if entries != [] {
      var n := |entries| - 1;
      NormalisedIsEmpty(entries[..n]);
      assert AsInputs(entries)[..n] == AsInputs(entries[..n]);
      HalfUpOfInt(entries[n].amount);
    }
  }

  function Nothing(e: Entry): int { 0 }

  lemma {:induction false} SumOfNothing(entries: seq<Entry>)
    ensures Sum(entries, Nothing) == 0
  {
    SumBounds(entries, Nothing, 0, 0);
  }

  lemma {:induction false} Unwritten(b: Books, p: Posting)
    requires Posted(b, p).Ok? && !Posted(b, p).value.1
    ensures Posted(b, p).value.0 == b
  {}
}
