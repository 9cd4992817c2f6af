/**
 * Repairing a product's cached stock from its inventory rows while sales go
 * on. Quantities are in thousandths; every transaction on the product is one
 * atomic step, and the repair reads the product, then the rows, then writes.
 */
module StockRecon {
  import opened Common

  /** The stock of one place; product-level rows have no variant. */
  datatype Item = Item(location: string, variant: Option<string>, onHand: int, reserved: int, isDeleted: bool)

  datatype Product = Product(currentStock: int, stockVersion: nat, items: seq<Item>)

  function LiveOnHand(i: Item): int { if i.isDeleted then 0 else i.onHand }

  /** The authority: what the product's live rows hold. */
  function OnHand(p: Product): int { Sum(p.items, LiveOnHand) }

  /** How far the cached stock is from the rows. */
  function Drift(p: Product): int { p.currentStock - OnHand(p) }

  // ---------------------------------------------------------------------------
  // Transactions on a product
  // ---------------------------------------------------------------------------

  function PlaceOf(i: Item): (string, Option<string>) { (i.location, i.variant) }

  /** A revived row; a live one is as it was. */
  function Revived(p: Product, i: nat): Product
    requires i < |p.items|
  {
    p.(items := p.items[i := p.items[i].(isDeleted := false)])
  }

  /** The row of a place, opened if it is missing: a product's first row at the sale location takes the stock no row holds yet. */
  function Ensured(p: Product, sale: string, location: string, variant: Option<string>): (r: (Product, nat))
    ensures r.1 < |r.0.items|
  {
    var found := Find(p.items, PlaceOf, (location, variant));
    if found.Some? then (Revived(p, found.value), found.value) else
    var gap := Drift(p);
    var legacy := variant.None? && gap > 0;
    var q := if legacy && sale != location then OpenedAtSale(p, sale, gap) else p;
    var opening := if legacy && sale == location then gap else 0;
    (q.(items := q.items + [Item(location, variant, opening, 0, false)]), |q.items|)
  }

  function OpenedAtSale(p: Product, sale: string, gap: int): Product {
    var found := Find(p.items, PlaceOf, (sale, None));
    if found.Some? then Revived(p, found.value) else p.(items := p.items + [Item(sale, None, gap, 0, false)])
  }

  datatype Step =
    | Mutate(location: string, variant: Option<string>, delta: int, allowNegative: bool)
    | Reserve(location: string, variant: Option<string>, quantity: int, allowNegative: bool)
    | Release(location: string, variant: Option<string>, quantity: int)
    | Open(location: string, variant: Option<string>)

  /** A sale, receipt or return moves the row and the cache together and bumps the version; a refused one does nothing at all. */
  function Next(p: Product, sale: string, step: Step): Product {
    var (q, i) := Ensured(p, sale, step.location, step.variant);
    var item := q.items[i];
    match step
    case Mutate(_, _, delta, allowNegative) =>
      if delta == 0 || (delta < 0 && !allowNegative && item.onHand - item.reserved < -delta) then p
      else Product(q.currentStock + delta, q.stockVersion + 1, q.items[i := item.(onHand := item.onHand + delta)])
    case Reserve(_, _, quantity, allowNegative) =>
      if quantity <= 0 || (!allowNegative && item.onHand - item.reserved < quantity) then p
      else q.(items := q.items[i := item.(reserved := item.reserved + quantity)])
    case Release(_, _, quantity) =>
      if quantity <= 0 then p else q.(items := q.items[i := item.(reserved := Max(item.reserved - quantity, 0))])
    case Open(_, _) => q
  }

  function Run(p: Product, sale: string, steps: seq<Step>): Product {
    if steps == [] then p else Next(Run(p, sale, steps[..|steps| - 1]), sale, steps[|steps| - 1])
  }

  // ---------------------------------------------------------------------------
  // The repair
  // ---------------------------------------------------------------------------

  /** What the repair read of a product, and later of its rows; no live row, no sum. */
  datatype Snapshot = Snapshot(currentStock: int, stockVersion: nat)

  function Read(p: Product): Snapshot { Snapshot(p.currentStock, p.stockVersion) }

  predicate HasLiveItem(items: seq<Item>) { exists i | 0 <= i < |items| :: !items[i].isDeleted }

  function ReadSum(p: Product): Option<int> {
    if HasLiveItem(p.items) then Some(OnHand(p)) else None
  }

  predicate FoundDrift(s: Snapshot, sum: Option<int>) { sum.Some? && s.currentStock != sum.value }

  /** The compare-and-swap on the version that was read. */
  function Repaired(s: Snapshot, sum: Option<int>, now: Product): Product {
    if FoundDrift(s, sum) && now.stockVersion == s.stockVersion
    then now.(currentStock := sum.value, stockVersion := now.stockVersion + 1)
    else now
  }

  predicate Repairs(s: Snapshot, sum: Option<int>, now: Product) {
    FoundDrift(s, sum) && now.stockVersion == s.stockVersion
  }

  datatype Check = Check(snapshot: Snapshot, sum: Option<int>, now: Product)

  function Found(c: Check): int { if FoundDrift(c.snapshot, c.sum) then 1 else 0 }
  function Fixed(c: Check): int { if Repairs(c.snapshot, c.sum, c.now) then 1 else 0 }

  /** What a page's repair works on: what it read, and each row as its own write will find it. */
  function Checks(read: seq<Snapshot>, sums: seq<Option<int>>, rows: seq<Product>): (cs: seq<Check>)
    requires |read| == |sums| == |rows|
    ensures |cs| == |rows|
  {
    seq(|rows|, i requires 0 <= i < |rows| => Check(read[i], sums[i], rows[i]))
  }

  /** One page: rows are repaired one by one, drifts and repairs counted. */
  method ReconcileLedgerInvariant(read: seq<Snapshot>, sums: seq<Option<int>>, rows: array<Product>) returns (found: int, fixed: int)
    requires |read| == |sums| == rows.Length
    modifies rows
    ensures forall i | 0 <= i < rows.Length :: rows[i] == Repaired(read[i], sums[i], old(rows[i]))
    ensures found == Sum(Checks(read, sums, old(rows[..])), Found)
    ensures fixed == Sum(Checks(read, sums, old(rows[..])), Fixed)
  {
    found, fixed := 0, 0;
    ghost var checks := Checks(read, sums, rows[..]);
    for i := 0 to rows.Length
      invariant forall k | 0 <= k < i :: rows[k] == Repaired(read[k], sums[k], old(rows[k]))
      invariant forall k | i <= k < rows.Length :: rows[k] == old(rows[k])
      invariant found == Sum(checks[..i], Found) && fixed == Sum(checks[..i], Fixed)
    {
      SumTake(checks, i, Found);
      SumTake(checks, i, Fixed);
      var sum := sums[i];
      if sum.Some? && read[i].currentStock != sum.value {
        found := found + 1;
        if rows[i].stockVersion == read[i].stockVersion {
          rows[i] := rows[i].(currentStock := sum.value, stockVersion := rows[i].stockVersion + 1);
          fixed := fixed + 1;
        }
      }
    }
    assert checks[..rows.Length] == checks;
  }

  // ---------------------------------------------------------------------------
  // When a repair is right
  // ---------------------------------------------------------------------------

  lemma {:induction false} ReviveSum(p: Product, i: nat)
    requires i < |p.items|
    ensures OnHand(Revived(p, i)) == OnHand(p) + (if p.items[i].isDeleted then p.items[i].onHand else 0)
  {
    SumUpdate(p.items, i, p.items[i].(isDeleted := false), LiveOnHand);
  }

  lemma {:induction false} AppendSum(p: Product, item: Item)
    requires !item.isDeleted
    ensures OnHand(p.(items := p.items + [item])) == OnHand(p) + item.onHand
  {
    SumSnoc(p.items, item, LiveOnHand);
  }

  ghost predicate NoneDeleted(p: Product) { forall i | 0 <= i < |p.items| :: !p.items[i].isDeleted }

  /** Whether ensuring a row opens one that takes up legacy stock: the product-level place has no row, nor has the sale location. */
  predicate OpensLegacy(p: Product, sale: string, location: string, variant: Option<string>) {
    && variant.None? && Drift(p) > 0
    && Find(p.items, PlaceOf, (location, None)).None?
    && Find(p.items, PlaceOf, (sale, None)).None?
  }

  /** Ensuring a row never touches the cache or its version, and moves the rows' sum only by opening legacy stock: then by all of it. */
  lemma {:induction false} EnsuredFacts(p: Product, sale: string, location: string, variant: Option<string>)
    requires NoneDeleted(p)
    ensures var (q, i) := Ensured(p, sale, location, variant);
      && q.currentStock == p.currentStock && q.stockVersion == p.stockVersion && NoneDeleted(q)
      && Drift(q) == if OpensLegacy(p, sale, location, variant) then 0 else Drift(p)
  {
    hide Sum;
    var found := Find(p.items, PlaceOf, (location, variant));
    if found.Some? {
      ReviveSum(p, found.value);
    } else {
      var gap := Drift(p);
      var legacy := variant.None? && gap > 0;
      var q := if legacy && sale != location then OpenedAtSale(p, sale, gap) else p;
      var opening := if legacy && sale == location then gap else 0;
      if legacy && sale != location {
        var at := Find(p.items, PlaceOf, (sale, None));
        if at.Some? {
          ReviveSum(p, at.value);
        } else {
          AppendSum(p, Item(sale, None, gap, 0, false));
        }
      }
      AppendSum(q, Item(location, variant, opening, 0, false));
    }
  }

  /** Whether a step is carried out rather than refused. */
  predicate Takes(p: Product, sale: string, step: Step) {
    var (q, i) := Ensured(p, sale, step.location, step.variant);
    var item := q.items[i];
    match step
    case Mutate(_, _, delta, allowNegative) => delta != 0 && (delta >= 0 || allowNegative || item.onHand - item.reserved >= -delta)
    case Reserve(_, _, quantity, allowNegative) => quantity > 0 && (allowNegative || item.onHand - item.reserved >= quantity)
    case Release(_, _, quantity) => quantity > 0
    case Open(_, _) => true
  }

  predicate OpensLegacyStock(p: Product, sale: string, step: Step) {
    Takes(p, sale, step) && OpensLegacy(p, sale, step.location, step.variant)
  }

  /** Every step moves cache and rows alike, save one that opens legacy stock; exactly the stock movements bump the version. */
  lemma {:induction false} StepFacts(p: Product, sale: string, step: Step)
    requires NoneDeleted(p)
    ensures var q := Next(p, sale, step);
      && NoneDeleted(q)
      && Drift(q) == (if OpensLegacyStock(p, sale, step) then 0 else Drift(p))
      && q.stockVersion == p.stockVersion + (if step.Mutate? && Takes(p, sale, step) then 1 else 0)
      && (!(step.Mutate? && Takes(p, sale, step)) ==> q.currentStock == p.currentStock)
  {
    hide Sum, Ensured;
    EnsuredFacts(p, sale, step.location, step.variant);
    var (q, i) := Ensured(p, sale, step.location, step.variant);
    var item := q.items[i];
    match step
    case Mutate(_, _, delta, _) => SumUpdate(q.items, i, item.(onHand := item.onHand + delta), LiveOnHand);
    case Reserve(_, _, quantity, _) => SumUpdate(q.items, i, item.(reserved := item.reserved + quantity), LiveOnHand);
    case Release(_, _, quantity) => SumUpdate(q.items, i, item.(reserved := Max(item.reserved - quantity, 0)), LiveOnHand);
    case Open(_, _) =>
  }

  /** Some step of a run opened legacy stock. */
  predicate LegacyOpened(p: Product, sale: string, steps: seq<Step>) {
    exists k | 0 <= k < |steps| :: OpensLegacyStock(Run(p, sale, steps[..k]), sale, steps[k])
  }

  /** Some step of a run moved stock. */
  predicate StockMoved(p: Product, sale: string, steps: seq<Step>) {
    exists k | 0 <= k < |steps| :: steps[k].Mutate? && Takes(Run(p, sale, steps[..k]), sale, steps[k])
  }

  lemma {:induction false} RunFacts(p: Product, sale: string, steps: seq<Step>)
    requires NoneDeleted(p)
    ensures var q := Run(p, sale, steps);
      && NoneDeleted(q) && p.stockVersion <= q.stockVersion
      && (q.stockVersion == p.stockVersion <==> !StockMoved(p, sale, steps))
      && (!StockMoved(p, sale, steps) ==> q.currentStock == p.currentStock)
      && Drift(q) == (if LegacyOpened(p, sale, steps) then 0 else Drift(p))
  {
    hide Next, Takes, OpensLegacyStock, Drift;
    if steps != [] {
      var n := |steps| - 1;
      RunFacts(p, sale, steps[..n]);
      StepFacts(Run(p, sale, steps[..n]), sale, steps[n]);
      LegacySnoc(p, sale, steps, n);
      MovedSnoc(p, sale, steps, n);
      OpeningNeedsDrift(Run(p, sale, steps[..n]), sale, steps[n]);
    }
  }

  lemma {:induction false} OpeningNeedsDrift(p: Product, sale: string, step: Step)
    ensures OpensLegacyStock(p, sale, step) ==> Drift(p) > 0
  {
    hide Takes, Drift;
  }

  lemma {:induction false} LegacySnoc(p: Product, sale: string, steps: seq<Step>, n: nat)
    requires n + 1 == |steps|
    ensures LegacyOpened(p, sale, steps)
      <==> LegacyOpened(p, sale, steps[..n]) || OpensLegacyStock(Run(p, sale, steps[..n]), sale, steps[n])
  {
    hide OpensLegacyStock, Run;
    assert forall k | 0 <= k < n :: steps[..n][..k] == steps[..k] && steps[..n][k] == steps[k];
    if OpensLegacyStock(Run(p, sale, steps[..n]), sale, steps[n]) {
      assert LegacyOpened(p, sale, steps);
    }
    if LegacyOpened(p, sale, steps[..n]) {
      var k :| 0 <= k < n && OpensLegacyStock(Run(p, sale, steps[..n][..k]), sale, steps[..n][k]);
      assert OpensLegacyStock(Run(p, sale, steps[..k]), sale, steps[k]);
    }
  }

  lemma {:induction false} MovedSnoc(p: Product, sale: string, steps: seq<Step>, n: nat)
    requires n + 1 == |steps|
    ensures StockMoved(p, sale, steps)
      <==> StockMoved(p, sale, steps[..n]) || (steps[n].Mutate? && Takes(Run(p, sale, steps[..n]), sale, steps[n]))
  {
    hide Takes, Run;
    assert forall k | 0 <= k < n :: steps[..n][..k] == steps[..k] && steps[..n][k] == steps[k];
    if steps[n].Mutate? && Takes(Run(p, sale, steps[..n]), sale, steps[n]) {
      assert StockMoved(p, sale, steps);
    }
    if StockMoved(p, sale, steps[..n]) {
      var k :| 0 <= k < n && steps[..n][k].Mutate? && Takes(Run(p, sale, steps[..n][..k]), sale, steps[..n][k]);
      assert steps[k].Mutate? && Takes(Run(p, sale, steps[..k]), sale, steps[k]);
    }
  }

  lemma {:induction false} LegacyNeedsDrift(p: Product, sale: string, steps: seq<Step>)
    requires NoneDeleted(p) && LegacyOpened(p, sale, steps)
    ensures Drift(p) > 0
  {
    hide OpensLegacyStock, Run, Drift, LegacyOpened;
    var k := OpeningStep(p, sale, steps);
    RunFacts(p, sale, steps[..k]);
    OpeningNeedsDrift(Run(p, sale, steps[..k]), sale, steps[k]);
  }

  lemma {:induction false} OpeningStep(p: Product, sale: string, steps: seq<Step>) returns (k: nat)
    requires LegacyOpened(p, sale, steps)
    ensures k < |steps| && OpensLegacyStock(Run(p, sale, steps[..k]), sale, steps[k])
  {
    hide OpensLegacyStock, Run;
    k :| 0 <= k < |steps| && OpensLegacyStock(Run(p, sale, steps[..k]), sale, steps[k]);
  }

  /**
   * The repair reads the product, `before` happens, it reads the rows, `after`
   * happens, it writes. The write goes through exactly when no stock moved
   * meanwhile, changes nothing otherwise, and leaves the cache equal to the
   * rows exactly when no step between reading them and writing opened legacy
   * stock, which moves the rows without moving the version.
   */
  lemma {:induction false} RepairIsExact(p: Product, sale: string, before: seq<Step>, after: seq<Step>)
    requires NoneDeleted(p)
    ensures var read := Run(p, sale, before);
      var now := Run(read, sale, after);
      var s, sum := Read(p), ReadSum(read);
      && (!Repairs(s, sum, now) ==> Repaired(s, sum, now) == now)
      && (FoundDrift(s, sum) ==> (Repairs(s, sum, now) <==> !StockMoved(p, sale, before) && !StockMoved(read, sale, after)))
      && (Repairs(s, sum, now) ==> (Drift(Repaired(s, sum, now)) == 0 <==> !LegacyOpened(read, sale, after)))
  {
    hide Run, StockMoved, LegacyOpened, HasLiveItem, Sum;
    var read := Run(p, sale, before);
    var now := Run(read, sale, after);
    RunFacts(p, sale, before);
    RunFacts(read, sale, after);
    if LegacyOpened(read, sale, after) {
      LegacyNeedsDrift(read, sale, after);
    }
  }

  /** Once cache and rows agree, nothing that happens to the product separates them again. */
  lemma {:induction false} AgreementLasts(p: Product, sale: string, steps: seq<Step>)
    requires NoneDeleted(p) && Drift(p) == 0
    ensures Drift(Run(p, sale, steps)) == 0
  {
    hide Run, StockMoved, LegacyOpened, Drift;
    RunFacts(p, sale, steps);
    if LegacyOpened(p, sale, steps) {
      LegacyNeedsDrift(p, sale, steps);
    }
  }

  /** A reservation that opens the sale location's row between the sum and the write spoils a repair that goes through. */
  lemma {:induction false} LegacyOpeningSpoilsRepair()
    ensures exists p: Product, sale: string, after: seq<Step> ::
      && NoneDeleted(p)
      && var now := Run(p, sale, after);
      && Repairs(Read(p), ReadSum(p), now)
      && Drift(Repaired(Read(p), ReadSum(p), now)) != 0
  {
    var back := Item("back", None, 4000, 0, false);
    var p := Product(10000, 0, [back]);
    var step := Reserve("front", None, 1000, false);
    SumSnoc([], back, LiveOnHand);
    assert p.items == [] + [back];
    assert Find(p.items, PlaceOf, ("front", None)).None?;
    RunOfOne(p, "front", step);
    RepairIsExact(p, "front", [], [step]);
    assert [step][..0] == [];
    assert Takes(p, "front", step) && OpensLegacyStock(p, "front", step);
    assert OpensLegacyStock(Run(p, "front", [step][..0]), "front", [step][0]);
    StepFacts(p, "front", step);
    assert HasLiveItem(p.items);
    assert Repairs(Read(p), ReadSum(p), Run(p, "front", [step]));
  }

  lemma {:induction false} RunOfOne(p: Product, sale: string, step: Step)
    ensures Run(p, sale, [step]) == Next(p, sale, step) && Run(p, sale, []) == p
  {
    hide Next;
    assert [step][..0] == [];
  }
}
