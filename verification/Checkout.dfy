/**
 * Checkout under an idempotency key. The stock, balances and books a bill
 * moves are one value of type W and one all-or-nothing effect on it; what the
 * lines, the customer and the discount say is one value of type T.
 */
module Checkout {
  import opened Common

  datatype Tender = Tender(kind: string, amount: int, tendered: Option<int>)

  datatype Bill<T> = Bill(terms: T, tenders: seq<Tender>, udhar: int, placeOfSupply: Option<string>)

  /** How an invoice's request hash was stored: not at all, as today, or as before the cash tendered left it. */
  datatype Form = Unhashed | Current | Legacy

  datatype Invoice<T> = Invoice(key: string, bill: Bill<T>, form: Form)

  datatype HashedTender = Applied(kind: string, amount: int) | WithCash(kind: string, amount: int, tendered: Option<int>)

  /** What is hashed; the hash itself is taken to be injective. */
  datatype Canonical<T> = Canonical(terms: T, tenders: seq<HashedTender>, udhar: int, placeOfSupply: Option<string>)

  /** An empty place of supply is none. */
  function Place<T>(b: Bill<T>): Option<string> {
    if b.placeOfSupply == Some("") then None else b.placeOfSupply
  }

  function HashedTenders(tenders: seq<Tender>, legacy: bool): (r: seq<HashedTender>)
    ensures |r| == |tenders|
  {
    seq(|tenders|, i requires 0 <= i < |tenders| =>
      if legacy then WithCash(tenders[i].kind, tenders[i].amount, tenders[i].tendered) else Applied(tenders[i].kind, tenders[i].amount))
  }

  function HashRequest<T>(b: Bill<T>, legacy: bool): Canonical<T> {
    Canonical(b.terms, HashedTenders(b.tenders, legacy), b.udhar, if legacy then None else Place(b))
  }

  predicate Accepts<T(==)>(existing: Invoice<T>, b: Bill<T>) {
    var stored := HashRequest(existing.bill, existing.form.Legacy?);
    existing.form.Unhashed? || stored == HashRequest(b, false) || stored == HashRequest(b, true)
  }

  // ---------------------------------------------------------------------------
  // Same bill, or not
  // ---------------------------------------------------------------------------

  ghost predicate SameTenders(a: seq<Tender>, b: seq<Tender>) {
    |a| == |b| && forall i | 0 <= i < |a| :: a[i].kind == b[i].kind && a[i].amount == b[i].amount
  }

  /** The same bill: the cash handed over is not part of it. */
  ghost predicate SameBill<T>(a: Bill<T>, b: Bill<T>) {
    a.terms == b.terms && SameTenders(a.tenders, b.tenders) && a.udhar == b.udhar && Place(a) == Place(b)
  }

  lemma {:induction false} CurrentHashesAgree(a: seq<Tender>, b: seq<Tender>)
    ensures HashedTenders(a, false) == HashedTenders(b, false) <==> SameTenders(a, b)
  {
    if HashedTenders(a, false) == HashedTenders(b, false) {
      forall i | 0 <= i < |a| ensures a[i].kind == b[i].kind && a[i].amount == b[i].amount {
        assert HashedTenders(a, false)[i] == HashedTenders(b, false)[i];
      }
    }
  }

  lemma {:induction false} LegacyHashesAgree(a: seq<Tender>, b: seq<Tender>)
    ensures HashedTenders(a, true) == HashedTenders(b, true) <==> a == b
  {
    if HashedTenders(a, true) == HashedTenders(b, true) {
      forall i | 0 <= i < |a| ensures a[i] == b[i] {
        assert HashedTenders(a, true)[i] == HashedTenders(b, true)[i];
      }
    }
  }

  lemma {:induction false} FormsAgree(a: seq<Tender>, b: seq<Tender>)
    ensures HashedTenders(a, false) == HashedTenders(b, true) <==> a == [] && b == []
  {
    if a != [] && b != [] {
      assert HashedTenders(a, false)[0] != HashedTenders(b, true)[0];
    }
  }

  /** A retry of the same bill is always taken for one, whatever cash was typed. */
  lemma {:induction false} SameBillReplays<T>(existing: Invoice<T>, b: Bill<T>)
    requires existing.form.Current? && SameBill(existing.bill, b)
    ensures Accepts(existing, b)
  {
    CurrentHashesAgree(existing.bill.tenders, b.tenders);
  }

  /**
   * A different bill is taken for a retry exactly when it differs only by
   * naming a place of supply where the stored one named none, and no tender
   * tells the two hash formats apart.
   */
  lemma {:induction false} FalseReplayExactly<T>(existing: Invoice<T>, b: Bill<T>)
    requires existing.form.Current?
    ensures Accepts(existing, b) && !SameBill(existing.bill, b)
      <==> existing.bill.terms == b.terms && existing.bill.udhar == b.udhar && existing.bill.tenders == b.tenders == []
           && Place(existing.bill).None? && Place(b).Some?
  {
    CurrentHashesAgree(existing.bill.tenders, b.tenders);
    FormsAgree(existing.bill.tenders, b.tenders);
  }

  /** An invoice stored in the old format, without a place of supply: a retry must repeat the cash, and its place is not looked at. */
  lemma {:induction false} LegacyReplayExactly<T>(existing: Invoice<T>, b: Bill<T>)
    requires existing.form.Legacy?
    ensures Accepts(existing, b)
      <==> existing.bill.terms == b.terms && existing.bill.udhar == b.udhar && existing.bill.tenders == b.tenders
  {
    LegacyHashesAgree(existing.bill.tenders, b.tenders);
    FormsAgree(b.tenders, existing.bill.tenders);
  }

  /** A credit bill for another state is answered with the stored bill of this one. */
  lemma {:induction false} CreditBillReplaysAcrossStates<T>(terms: T, udhar: int, key: string, place: string)
    requires place != ""
    ensures var stored, retry := Bill(terms, [], udhar, None), Bill(terms, [], udhar, Some(place));
      Accepts(Invoice(key, stored, Current), retry) && !SameBill(stored, retry)
  {
    FalseReplayExactly(Invoice(key, Bill(terms, [], udhar, None), Current), Bill(terms, [], udhar, Some(place)));
  }

  // ---------------------------------------------------------------------------
  // One request
  // ---------------------------------------------------------------------------

  datatype Shop<W, T> = Shop(world: W, invoices: seq<Invoice<T>>)

  /** `allowed` holds before the invoice row is written; `effect` is everything the transaction does, or nothing. */
  datatype Rules<!W, !T> = Rules(allowed: (W, Bill<T>) -> bool, effect: (W, Bill<T>) -> Option<W>)

  datatype Answer = Created(invoice: nat) | Replayed(invoice: nat) | KeyReused | Refused

  function KeyOf<T>(i: Invoice<T>): string { i.key }

  function ReplayOrReject<T(==)>(invoices: seq<Invoice<T>>, i: nat, b: Bill<T>): Answer
    requires i < |invoices|
  {
    if Accepts(invoices[i], b) then Replayed(i) else KeyReused
  }

  /**
   * A request whose replay check read `seen`: a used key is answered at once;
   * otherwise the transaction runs on `s`, and a key that was committed in
   * between breaks the unique index and is answered as the replay it is.
   */
  function CheckedOut<W, T(==)>(rules: Rules<W, T>, seen: seq<Invoice<T>>, s: Shop<W, T>, key: string, b: Bill<T>): (Shop<W, T>, Answer) {
    if Find(seen, KeyOf, key).Some? then (s, ReplayOrReject(seen, Find(seen, KeyOf, key).value, b))
    else if !rules.allowed(s.world, b) then (s, Refused)
    else if Find(s.invoices, KeyOf, key).Some? then (s, ReplayOrReject(s.invoices, Find(s.invoices, KeyOf, key).value, b))
    else
      match rules.effect(s.world, b)
      case None => (s, Refused)
      case Some(world) => (Shop(world, s.invoices + [Invoice(key, b, Current)]), Created(|s.invoices|))
  }

  class BillingService<W(0), T(==)> {
    var world: W
    var invoices: seq<Invoice<T>>
    const rules: Rules<W, T>

    ghost function State(): Shop<W, T>
      reads this
    {
      Shop(world, invoices)
    }

    constructor (world: W, rules: Rules<W, T>)
      ensures State() == Shop(world, []) && this.rules == rules
    {
      this.world, this.invoices, this.rules := world, [], rules;
    }

    method Checkout(seen: seq<Invoice<T>>, key: string, b: Bill<T>) returns (a: Answer)
      modifies this
      ensures (State(), a) == CheckedOut(rules, seen, old(State()), key, b)
    {
      var existing := Find(seen, KeyOf, key);
      if existing.Some? {
        return ReplayOrReject(seen, existing.value, b);
      }
      if !rules.allowed(world, b) {
        return Refused;
      }
      var duplicate := Find(invoices, KeyOf, key);
      if duplicate.Some? {
        return ReplayOrReject(invoices, duplicate.value, b);
      }
      var after := rules.effect(world, b);
      if after.None? {
        return Refused;
      }
      world := after.value;
      a := Created(|invoices|);
      invoices := invoices + [Invoice(key, b, Current)];
    }
  }

  // ---------------------------------------------------------------------------
  // Every interleaving
  // ---------------------------------------------------------------------------

  ghost predicate KeysAreUnique<T>(invoices: seq<Invoice<T>>) {
    forall i, j | 0 <= i < j < |invoices| :: invoices[i].key != invoices[j].key
  }

  /** The request's replay check saw the first `seen` invoices; `Other` is anything else that moves the shop. */
  datatype Op<W, T> = Request(seen: nat, key: string, bill: Bill<T>) | Other(world: W)

  datatype Log<T> = Log(key: string, bill: Bill<T>, answer: Answer)

  /** What moved the world: the effect of a new invoice's bill, or anything else. */
  datatype Move<W, T> = Billed(invoice: Invoice<T>) | Moved(world: W)

  datatype History<W, T> = History(shop: Shop<W, T>, log: seq<Log<T>>, moves: seq<Move<W, T>>)

  /** The world that the moves lead to; none when a bill could not take effect. */
  function Folded<W, T>(rules: Rules<W, T>, world: W, moves: seq<Move<W, T>>): Option<W> {
    if moves == [] then Some(world) else
    var before := Folded(rules, world, moves[..|moves| - 1]);
    match moves[|moves| - 1]
    case Billed(invoice) => if before.Some? then rules.effect(before.value, invoice.bill) else None
    case Moved(next) => Some(next)
  }

  /** The invoices whose bills moved the world, in order. */
  function BilledIn<W, T>(moves: seq<Move<W, T>>): seq<Invoice<T>> {
    if moves == [] then [] else
    var last := moves[|moves| - 1];
    BilledIn(moves[..|moves| - 1]) + (if last.Billed? then [last.invoice] else [])
  }

  function Step<W, T(==)>(rules: Rules<W, T>, h: History<W, T>, op: Op<W, T>): History<W, T> {
    match op
    case Other(world) => h.(shop := h.shop.(world := world), moves := h.moves + [Moved(world)])
    case Request(k, key, b) =>
      var (shop, answer) := CheckedOut(rules, h.shop.invoices[..Min(k, |h.shop.invoices|)], h.shop, key, b);
      var move := if answer.Created? then [Billed(Invoice(key, b, Current))] else [];
      History(shop, h.log + [Log(key, b, answer)], h.moves + move)
  }

  function Run<W, T(==)>(rules: Rules<W, T>, s: Shop<W, T>, ops: seq<Op<W, T>>): History<W, T> {
    if ops == [] then History(s, [], []) else Step(rules, Run(rules, s, ops[..|ops| - 1]), ops[|ops| - 1])
  }

  /** A successful answer names the one invoice of its key, and one that the request matches. */
  ghost predicate AnswerIsRight<T>(invoices: seq<Invoice<T>>, l: Log<T>) {
    match l.answer
    case Created(i) => i < |invoices| && invoices[i] == Invoice(l.key, l.bill, Current)
    case Replayed(i) => i < |invoices| && invoices[i].key == l.key && Accepts(invoices[i], l.bill)
    case _ => true
  }

  function CreatedFor<T>(key: string): Log<T> -> int {
    (l: Log<T>) => if l.key == key && l.answer.Created? then 1 else 0
  }

  function WithKey<T>(key: string): Invoice<T> -> int {
    (i: Invoice<T>) => if i.key == key then 1 else 0
  }

  /** The world is what the moves make of the first one, and the bills among them are those of the new invoices, each once. */
  ghost predicate WorldFollowsBills<W, T>(rules: Rules<W, T>, start: Shop<W, T>, h: History<W, T>) {
    && Folded(rules, start.world, h.moves) == Some(h.shop.world)
    && start.invoices + BilledIn(h.moves) == h.shop.invoices
  }

  ghost predicate Good<W, T>(rules: Rules<W, T>, start: Shop<W, T>, h: History<W, T>) {
    && KeysAreUnique(h.shop.invoices)
    && WorldFollowsBills(rules, start, h)
    && (forall i | 0 <= i < |h.log| :: AnswerIsRight(h.shop.invoices, h.log[i]))
    && forall key: string :: Sum(h.log, CreatedFor(key)) == Sum(h.shop.invoices, WithKey(key)) - Sum(start.invoices, WithKey(key))
  }

  /** What one request does: it bills a new key and moves the world by the bill's effect, or it changes nothing. */
  lemma {:induction false} RequestFacts<W, T>(rules: Rules<W, T>, seen: nat, s: Shop<W, T>, key: string, b: Bill<T>)
    requires KeysAreUnique(s.invoices) && seen <= |s.invoices|
    ensures var (t, answer) := CheckedOut(rules, s.invoices[..seen], s, key, b);
      && KeysAreUnique(t.invoices)
      && AnswerIsRight(t.invoices, Log(key, b, answer))
      && (!answer.Created? ==> t == s)
      && (answer.Created? ==>
            && Find(s.invoices, KeyOf, key).None?
            && t.invoices == s.invoices + [Invoice(key, b, Current)]
            && rules.effect(s.world, b) == Some(t.world))
  {
    hide Find, Accepts;
    var before := s.invoices[..seen];
    assert forall i | 0 <= i < |before| :: before[i] == s.invoices[i];
  }

  /** A used key never moves the world: it is answered with its own invoice, or refused. */
  lemma {:induction false} UsedKeyChangesNothing<W, T>(rules: Rules<W, T>, seen: nat, s: Shop<W, T>, key: string, b: Bill<T>)
    requires KeysAreUnique(s.invoices) && seen <= |s.invoices| && Find(s.invoices, KeyOf, key).Some?
    ensures var (t, answer) := CheckedOut(rules, s.invoices[..seen], s, key, b);
      && t == s && !answer.Created?
      && (answer.Replayed? ==> answer.invoice == Find(s.invoices, KeyOf, key).value)
  {
    RequestFacts(rules, seen, s, key, b);
    var (t, answer) := CheckedOut(rules, s.invoices[..seen], s, key, b);
    if answer.Replayed? {
      assert s.invoices[answer.invoice].key == key;
    }
  }

  lemma {:induction false} StillRight<T>(invoices: seq<Invoice<T>>, more: seq<Invoice<T>>, l: Log<T>)
    requires AnswerIsRight(invoices, l)
    ensures AnswerIsRight(invoices + more, l)
  {
    hide Accepts;
  }

  lemma {:induction false} StepFollowsBills<W, T>(rules: Rules<W, T>, start: Shop<W, T>, h: History<W, T>, op: Op<W, T>)
    requires KeysAreUnique(h.shop.invoices) && WorldFollowsBills(rules, start, h)
    ensures WorldFollowsBills(rules, start, Step(rules, h, op))
  {
    hide CheckedOut, AnswerIsRight, KeysAreUnique, Find;
    var after := Step(rules, h, op);
    if op.Request? {
      RequestFacts(rules, Min(op.seen, |h.shop.invoices|), h.shop, op.key, op.bill);
    }
    assert h.moves + [] == h.moves;
    if |after.moves| > |h.moves| {
      assert after.moves[..|after.moves| - 1] == h.moves;
    }
  }

  lemma {:induction false} StepKeepsGood<W, T>(rules: Rules<W, T>, start: Shop<W, T>, h: History<W, T>, op: Op<W, T>)
    requires Good(rules, start, h)
    ensures Good(rules, start, Step(rules, h, op))
  {
    hide CheckedOut, AnswerIsRight, KeysAreUnique, Find, WorldFollowsBills;
    StepFollowsBills(rules, start, h, op);
    if op.Request? {
      var invoices := h.shop.invoices;
      var seen := Min(op.seen, |invoices|);
      RequestFacts(rules, seen, h.shop, op.key, op.bill);
      var (t, answer) := CheckedOut(rules, invoices[..seen], h.shop, op.key, op.bill);
      var entry := Log(op.key, op.bill, answer);
      var more := if answer.Created? then [Invoice(op.key, op.bill, Current)] else [];
      assert t.invoices == invoices + more;
      forall i | 0 <= i < |h.log + [entry]| ensures AnswerIsRight(t.invoices, (h.log + [entry])[i]) {
        if i < |h.log| {
          StillRight(invoices, more, h.log[i]);
        }
      }
      forall key: string
        ensures Sum(h.log + [entry], CreatedFor(key)) - Sum(h.log, CreatedFor(key)) == Sum(t.invoices, WithKey(key)) - Sum(invoices, WithKey(key))
      {
        SumSnoc(h.log, entry, CreatedFor(key));
        if answer.Created? {
          SumSnoc(invoices, more[0], WithKey(key));
        }
      }
    }
  }

  lemma {:induction false} EveryRunIsGood<W, T>(rules: Rules<W, T>, start: Shop<W, T>, ops: seq<Op<W, T>>)
    requires KeysAreUnique(start.invoices)
    ensures Good(rules, start, Run(rules, start, ops))
  {
    hide Step, Good, KeysAreUnique;
    if ops == [] {
      StartIsGood(rules, start);
    } else {
      EveryRunIsGood(rules, start, ops[..|ops| - 1]);
      StepKeepsGood(rules, start, Run(rules, start, ops[..|ops| - 1]), ops[|ops| - 1]);
    }
  }

  lemma {:induction false} StartIsGood<W, T>(rules: Rules<W, T>, start: Shop<W, T>)
    requires KeysAreUnique(start.invoices)
    ensures Good(rules, start, History(start, [], []))
  {}

  lemma {:induction false} OncePerKey<T>(invoices: seq<Invoice<T>>, key: string)
    requires KeysAreUnique(invoices)
    ensures 0 <= Sum(invoices, WithKey(key)) <= 1
    ensures (forall i | 0 <= i < |invoices| :: invoices[i].key != key) ==> Sum(invoices, WithKey(key)) == 0
  {
    if invoices != [] {
      var n := |invoices| - 1;
      OncePerKey(invoices[..n], key);
      assert invoices[n].key == key ==> forall i | 0 <= i < n :: invoices[..n][i].key != key;
    }
  }

  /**
   * However requests interleave, a key is billed at most once and moves the
   * world at most once: the final world is the fold of the new invoices'
   * effects and of the moves of others, and every successful answer names the
   * key's one bill.
   */
  lemma {:induction false} KeyIsBilledOnce<W, T>(rules: Rules<W, T>, start: Shop<W, T>, ops: seq<Op<W, T>>, key: string)
    requires KeysAreUnique(start.invoices)
    ensures var h := Run(rules, start, ops);
      && Sum(h.log, CreatedFor(key)) == Sum(BilledIn(h.moves), WithKey(key)) <= 1
      && (Find(start.invoices, KeyOf, key).Some? ==> Sum(BilledIn(h.moves), WithKey(key)) == 0)
      && Folded(rules, start.world, h.moves) == Some(h.shop.world)
      && start.invoices + BilledIn(h.moves) == h.shop.invoices
      && (forall i | 0 <= i < |h.log| :: AnswerIsRight(h.shop.invoices, h.log[i]))
      && KeysAreUnique(h.shop.invoices)
  {
    hide Run, KeysAreUnique, AnswerIsRight, Find, Folded, BilledIn;
    EveryRunIsGood(rules, start, ops);
    var h := Run(rules, start, ops);
    OncePerKey(start.invoices, key);
    OncePerKey(h.shop.invoices, key);
    SumConcat(start.invoices, BilledIn(h.moves), WithKey(key));
    SumNonNegative(BilledIn(h.moves), WithKey(key));
    if Find(start.invoices, KeyOf, key).Some? {
      SumCountsOne(start.invoices, Find(start.invoices, KeyOf, key).value, key);
    }
  }

  lemma {:induction false} SumCountsOne<T>(invoices: seq<Invoice<T>>, i: nat, key: string)
    requires i < |invoices| && invoices[i].key == key
    ensures 1 <= Sum(invoices, WithKey(key))
  {
    var n := |invoices| - 1;
    if i < n {
      SumCountsOne(invoices[..n], i, key);
    } else {
      SumNonNegative(invoices[..n], WithKey(key));
    }
  }
}
