/**
 * The recurring billing engine (src/modules/contracts/contract.service.ts). A
 * runner captures its own date, scans the contracts due, and then bills them one
 * transaction at a time, each of which checks again that the contract is due.
 */
module RecurringBilling {
  import opened Entities
  import opened Wrappers

  /** A local date and the milliseconds within the day. */
  datatype Instant = Instant(year: int, month: int, day: int, ms: int) {
    predicate Valid() {
      1 <= month <= 12 && 1 <= day <= 31 && 0 <= ms < DAY_MS
    }

    predicate Before(that: Instant) {
      || year < that.year
      || (year == that.year && month < that.month)
      || (year == that.year && month == that.month && day < that.day)
      || (year == that.year && month == that.month && day == that.day && ms < that.ms)
    }

    function FirstDayOfMonth(): Instant {
      Instant(year, month, 1, 0)
    }

    /** Months counted from year zero. */
    function MonthIndex(): int {
      12 * year + month
    }
  }

  datatype ContractStatus = ACTIVE | SUSPENDED | FINISHED

  datatype Contract = Contract(
    status: ContractStatus, billingDay: int, amount: int, lastBillingAt: Option<Instant>)

  /** An invoice, with the contract its audit record names. */
  datatype Invoice = Invoice(contractId: Id, amount: int, issuedAt: Instant)

  /** The filter of both the scan and the check inside the transaction. */
  predicate Due(c: Contract, today: Instant) {
    && c.status == ACTIVE
    && c.billingDay == today.day
    && (c.lastBillingAt.None? || c.lastBillingAt.value.Before(today.FirstDayOfMonth()))
  }

  datatype Books = Books(contracts: map<Id, Contract>, invoices: seq<Invoice>)

  /** One billing transaction. */
  function Bill(b: Books, id: Id, today: Instant): Books {
    if id in b.contracts && Due(b.contracts[id], today) then
      b.(contracts := b.contracts[id := b.contracts[id].(lastBillingAt := Some(today))],
         invoices := b.invoices + [Invoice(id, b.contracts[id].amount, today)])
    else b
  }

  function InvoicesOf(invoices: seq<Invoice>, id: Id): seq<Invoice> {
    if invoices == [] then []
    else
      var rest := InvoicesOf(invoices[..|invoices| - 1], id);
      var last := invoices[|invoices| - 1];
      if last.contractId == id then rest + [last] else rest
  }

  lemma {:induction false} InvoicesOfAppend(invoices: seq<Invoice>, v: Invoice, id: Id)
    ensures InvoicesOf(invoices + [v], id) ==
      if v.contractId == id then InvoicesOf(invoices, id) + [v] else InvoicesOf(invoices, id)
  {
    assert (invoices + [v])[..|invoices|] == invoices;
  }

  /** Being billed before the first day of this month means being billed in an earlier month. */
  lemma BeforeMonthIff(t: Instant, today: Instant)
    requires t.Valid() && today.Valid()
    ensures t.Before(today.FirstDayOfMonth()) <==> t.MonthIndex() < today.MonthIndex()
  {
  }

  /** An active contract whose billing day is today and that was not billed in this calendar month. */
  predicate Billable(c: Contract, today: Instant) {
    && c.status == ACTIVE && c.billingDay == today.day
    && (c.lastBillingAt.Some? ==>
          var last := c.lastBillingAt.value;
          last.year < today.year || (last.year == today.year && last.month < today.month))
  }

  lemma DueIff(c: Contract, today: Instant)
    requires today.Valid() && (c.lastBillingAt.Some? ==> c.lastBillingAt.value.Valid())
    ensures Due(c, today) <==> Billable(c, today)
  {
    if c.lastBillingAt.Some? { BeforeMonthIff(c.lastBillingAt.value, today); }
  }

  /** One transaction bills a billable contract, its amount and for now, and does nothing to any other. */
  lemma BillMeans(b: Books, id: Id, today: Instant)
    requires DatesValid(b) && today.Valid()
    ensures id in b.contracts && Billable(b.contracts[id], today) ==>
      && Bill(b, id, today).invoices == b.invoices + [Invoice(id, b.contracts[id].amount, today)]
      && Bill(b, id, today).contracts == b.contracts[id := b.contracts[id].(lastBillingAt := Some(today))]
    ensures !(id in b.contracts && Billable(b.contracts[id], today)) ==> Bill(b, id, today) == b
  {
    if id in b.contracts { DueIff(b.contracts[id], today); }
  }

  // Interleaved runners.

  type RunnerId = nat

  datatype Runner = Runner(today: Instant, pending: seq<Id>)

  datatype State = State(books: Books, runners: map<RunnerId, Runner>)

  datatype Step =
    | Scan(runner: RunnerId, today: Instant, listing: seq<Id>)
    | BillNext(runner: RunnerId)
    | CreateContract(id: Id, billingDay: int, amount: int)
    | EditContract(id: Id, status: ContractStatus, billingDay: int, amount: int)

  predicate Enabled(s: State, step: Step) {
    match step
    case Scan(r, today, listing) =>
      && r !in s.runners && today.Valid()
      && (forall id :: id in listing ==> id in s.books.contracts && Due(s.books.contracts[id], today))
      && (forall id :: id in s.books.contracts && Due(s.books.contracts[id], today) ==> id in listing)
    case BillNext(r) => r in s.runners && s.runners[r].pending != []
    case CreateContract(id, _, _) => id !in s.books.contracts
    case EditContract(id, _, _, _) => id in s.books.contracts
  }

  function Apply(s: State, step: Step): State
    requires Enabled(s, step)
  {
    match step
    case Scan(r, today, listing) => s.(runners := s.runners[r := Runner(today, listing)])
    case BillNext(r) =>
      var Runner(today, pending) := s.runners[r];
      State(Bill(s.books, pending[0], today), s.runners[r := Runner(today, pending[1..])])
    case CreateContract(id, day, amount) =>
      s.(books := s.books.(contracts := s.books.contracts[id := Contract(ACTIVE, day, amount, None)]))
    case EditContract(id, status, day, amount) =>
      s.(books := s.books.(contracts := s.books.contracts[id :=
        s.books.contracts[id].(status := status, billingDay := day, amount := amount)]))
  }

  function After(s: State, step: Step): State {
    if Enabled(s, step) then Apply(s, step) else s
  }

  function Run(s: State, steps: seq<Step>): State
    decreases |steps|
  {
    if steps == [] then s else Run(After(s, steps[0]), steps[1..])
  }

  ghost predicate MonthsIncrease(invoices: seq<Invoice>) {
    forall i, j :: 0 <= i < j < |invoices| ==> invoices[i].issuedAt.MonthIndex() < invoices[j].issuedAt.MonthIndex()
  }

  ghost predicate DatesValid(b: Books) {
    && (forall id :: id in b.contracts && b.contracts[id].lastBillingAt.Some? ==>
          b.contracts[id].lastBillingAt.value.Valid())
    && (forall i :: 0 <= i < |b.invoices| ==> b.invoices[i].issuedAt.Valid())
  }

  /** The contract's invoices fall in increasing months, and the last one is the last billing. */
  ghost predicate BilledMonthly(b: Books, id: Id) {
    var mine := InvoicesOf(b.invoices, id);
    && MonthsIncrease(mine)
    && (id in b.contracts && mine != [] ==> b.contracts[id].lastBillingAt == Some(mine[|mine| - 1].issuedAt))
    && (id !in b.contracts ==> mine == [])
  }

  ghost predicate Inv(s: State) {
    && DatesValid(s.books)
    && (forall r :: r in s.runners ==> s.runners[r].today.Valid())
    && (forall id :: BilledMonthly(s.books, id))
  }

  lemma {:induction false} BillKeepsMonthly(b: Books, billed: Id, today: Instant, id: Id)
    requires DatesValid(b) && today.Valid() && BilledMonthly(b, id)
    ensures BilledMonthly(Bill(b, billed, today), id)
  {
    if billed in b.contracts && Due(b.contracts[billed], today) {
      var v := Invoice(billed, b.contracts[billed].amount, today);
      InvoicesOfAppend(b.invoices, v, id);
      if billed == id && b.contracts[id].lastBillingAt.Some? {
        BeforeMonthIff(b.contracts[id].lastBillingAt.value, today);
      }
    }
  }

  lemma {:induction false} StepKeepsInv(s: State, step: Step)
    requires Inv(s) && Enabled(s, step)
    ensures Inv(Apply(s, step))
  {
    var s' := Apply(s, step);
    forall id ensures BilledMonthly(s'.books, id) {
      assert BilledMonthly(s.books, id);
      if step.BillNext? {
        var runner := s.runners[step.runner];
        BillKeepsMonthly(s.books, runner.pending[0], runner.today, id);
      }
    }
  }

  /** Only a runner's billing step makes an invoice: one, of a contract billable at that moment, for its amount. */
  lemma StepBillsBillable(s: State, step: Step)
    requires Inv(s)
    ensures var before, after := s.books, After(s, step).books;
      || after.invoices == before.invoices
      || (&& step.BillNext? && Enabled(s, step)
          && var Runner(today, pending) := s.runners[step.runner];
             && pending[0] in before.contracts && Billable(before.contracts[pending[0]], today)
             && after.invoices == before.invoices + [Invoice(pending[0], before.contracts[pending[0]].amount, today)])
  {
    if step.BillNext? && Enabled(s, step) {
      BillMeans(s.books, s.runners[step.runner].pending[0], s.runners[step.runner].today);
    }
  }

  /**
   * Whatever runners interleave, with whatever dates they captured, a contract's
   * invoices fall in strictly increasing months, so at most one in each.
   */
  lemma {:induction false} RunBillsMonthly(s: State, steps: seq<Step>)
    requires Inv(s)
    ensures Inv(Run(s, steps))
    decreases |steps|
  {
    if steps != [] {
      if Enabled(s, steps[0]) { StepKeepsInv(s, steps[0]); }
      RunBillsMonthly(After(s, steps[0]), steps[1..]);
    }
  }

  /** Between two states of a run: what was billed stays, and a later billing date is the last invoice's. */
  lemma {:induction false} RunKeepsBilling(s: State, steps: seq<Step>, id: Id)
    requires Inv(s) && id in s.books.contracts
    ensures var s' := Run(s, steps); var mine := InvoicesOf(s'.books.invoices, id);
      && id in s'.books.contracts
      && s.books.invoices <= s'.books.invoices
      && (s'.books.contracts[id].lastBillingAt != s.books.contracts[id].lastBillingAt ==>
            mine != [] && s'.books.contracts[id].lastBillingAt == Some(mine[|mine| - 1].issuedAt))
    decreases |steps|
  {
    RunBillsMonthly(s, steps);
    assert BilledMonthly(Run(s, steps).books, id);
    if steps != [] {
      var s1 := After(s, steps[0]);
      if Enabled(s, steps[0]) { StepKeepsInv(s, steps[0]); }
      assert BilledMonthly(s1.books, id);
      RunKeepsBilling(s1, steps[1..], id);
      if steps[0].BillNext? && Enabled(s, steps[0]) {
        var runner := s.runners[steps[0].runner];
        BilledHasInvoice(s.books, runner.pending[0], runner.today, id);
        PrefixHasInvoice(s1.books.invoices, Run(s, steps).books.invoices, id);
      }
    }
  }

  lemma {:induction false} BilledHasInvoice(b: Books, billed: Id, today: Instant, id: Id)
    requires id in b.contracts
    ensures Bill(b, billed, today).contracts[id].lastBillingAt != b.contracts[id].lastBillingAt
      ==> InvoicesOf(Bill(b, billed, today).invoices, id) != []
  {
    if billed == id && Due(b.contracts[id], today) {
      InvoicesOfAppend(b.invoices, Invoice(id, b.contracts[id].amount, today), id);
    }
  }

  lemma {:induction false} PrefixHasInvoice(a: seq<Invoice>, b: seq<Invoice>, id: Id)
    requires a <= b
    ensures InvoicesOf(a, id) <= InvoicesOf(b, id)
    decreases |b|
  {
    if a != b {
      PrefixHasInvoice(a, b[..|b| - 1], id);
    } else {
      assert a == b;
    }
  }

  // One runner alone.

  class ContractService {
    var contracts: map<Id, Contract>
    var invoices: seq<Invoice>

    constructor (b: Books)
      ensures Contents() == b
    {
      contracts, invoices := b.contracts, b.invoices;
    }

    function Contents(): Books
      reads this
    {
      Books(contracts, invoices)
    }

    method PendingContracts(today: Instant) returns (ids: seq<Id>)
      ensures forall id :: id in ids <==> id in contracts && Due(contracts[id], today)
      ensures forall i, j :: 0 <= i < j < |ids| ==> ids[i] != ids[j]
    {
      ids := [];
      var rest := set id | id in contracts && Due(contracts[id], today);
      while rest != {}
        invariant forall id :: id in rest || id in ids <==> id in contracts && Due(contracts[id], today)
        invariant forall id :: id in rest ==> id !in ids
        invariant forall i, j :: 0 <= i < j < |ids| ==> ids[i] != ids[j]
        decreases rest
      {
        var id :| id in rest;
        rest := rest - {id};
        ids := ids + [id];
      }
    }

    /** Bills each contract due, once, and nothing else. */
    method RunBillingCycle(today: Instant) returns (processed: nat, details: seq<Id>)
      requires today.Valid()
      modifies this
      ensures processed == |details|
      ensures forall id :: id in details <==> id in old(contracts) && Due(old(contracts)[id], today)
      ensures forall i, j :: 0 <= i < j < |details| ==> details[i] != details[j]
      ensures contracts == Stamped(old(contracts), details, today)
      ensures invoices == old(invoices) + BatchOf(old(contracts), details, today)
      ensures forall id :: id in contracts ==> !Due(contracts[id], today)
      ensures DatesValid(old(Contents())) ==> BilledAll(old(Contents()), details, today, Contents())
    {
      hide BilledAll, DatesValid;
      details := [];
      var pending := PendingContracts(today);
      processed := |pending|;
      for i := 0 to |pending|
        invariant details == pending[..i]
        invariant contracts == Stamped(old(contracts), details, today)
        invariant invoices == old(invoices) + BatchOf(old(contracts), details, today)
      {
        var id := pending[i];
        assert id !in pending[..i];
        if id in contracts && Due(contracts[id], today) {
          var billable := contracts[id];
          BatchAppend(old(contracts), details, id, today);
          invoices := invoices + [Invoice(id, billable.amount, today)];
          contracts := contracts[id := billable.(lastBillingAt := Some(today))];
          details := details + [id];
        }
      }
      assert pending[..|pending|] == pending;
      CycleBills(old(Contents()), details, today, Contents());
      forall id | id in contracts ensures !Due(contracts[id], today) {
        if id in details { assert !today.Before(today.FirstDayOfMonth()); }
      }
    }
  }

  /** The contracts with the given ones billed today. */
  function Stamped(contracts: map<Id, Contract>, ids: seq<Id>, today: Instant): map<Id, Contract> {
    map id | id in contracts :: if id in ids then contracts[id].(lastBillingAt := Some(today)) else contracts[id]
  }

  /** One invoice for each of the given contracts, in order. */
  function BatchOf(contracts: map<Id, Contract>, ids: seq<Id>, today: Instant): seq<Invoice>
    requires forall id :: id in ids ==> id in contracts
  {
    if ids == [] then []
    else
      var n := |ids| - 1;
      BatchOf(contracts, ids[..n], today) + [Invoice(ids[n], contracts[ids[n]].amount, today)]
  }

  /** One invoice for each of the given contracts, for its amount and for today, in that order. */
  ghost predicate Invoiced(before: Books, ids: seq<Id>, today: Instant, invoices: seq<Invoice>) {
    && |invoices| == |before.invoices| + |ids| && invoices[..|before.invoices|] == before.invoices
    && (forall k :: 0 <= k < |ids| ==>
          && ids[k] in before.contracts
          && invoices[|before.invoices| + k] == Invoice(ids[k], before.contracts[ids[k]].amount, today))
  }

  /** Exactly the billable contracts were billed, each by one invoice, and nothing else changed. */
  ghost predicate BilledAll(before: Books, ids: seq<Id>, today: Instant, after: Books) {
    && (forall id :: id in ids <==> id in before.contracts && Billable(before.contracts[id], today))
    && Invoiced(before, ids, today, after.invoices)
    && after.contracts.Keys == before.contracts.Keys
    && (forall id :: id in before.contracts ==>
          after.contracts[id]
          == if id in ids then before.contracts[id].(lastBillingAt := Some(today)) else before.contracts[id])
  }

  lemma CycleBills(before: Books, ids: seq<Id>, today: Instant, after: Books)
    requires today.Valid()
    requires forall id :: id in ids <==> id in before.contracts && Due(before.contracts[id], today)
    requires after.contracts == Stamped(before.contracts, ids, today)
    requires after.invoices == before.invoices + BatchOf(before.contracts, ids, today)
    ensures DatesValid(before) ==> BilledAll(before, ids, today, after)
  {
    if DatesValid(before) {
      hide Billable, BatchOf;
      DueAreBillable(before, today);
      hide Due, DatesValid, Invoiced;
      InvoicesAre(before, ids, today, after.invoices);
    }
  }

  lemma InvoicesAre(before: Books, ids: seq<Id>, today: Instant, invoices: seq<Invoice>)
    requires forall id :: id in ids ==> id in before.contracts
    requires invoices == before.invoices + BatchOf(before.contracts, ids, today)
    ensures Invoiced(before, ids, today, invoices)
  {
    hide BatchOf;
    BatchIs(before.contracts, ids, today);
    var n := |before.invoices|;
    forall k | 0 <= k < |ids| ensures invoices[n + k] == Invoice(ids[k], before.contracts[ids[k]].amount, today) {
      assert invoices[n + k] == BatchOf(before.contracts, ids, today)[k];
    }
  }

  lemma DueAreBillable(b: Books, today: Instant)
    requires today.Valid() && DatesValid(b)
    ensures forall id :: id in b.contracts ==> (Due(b.contracts[id], today) <==> Billable(b.contracts[id], today))
  {
    forall id | id in b.contracts ensures Due(b.contracts[id], today) <==> Billable(b.contracts[id], today) {
      DueIff(b.contracts[id], today);
    }
  }

  lemma {:induction false} BatchIs(contracts: map<Id, Contract>, ids: seq<Id>, today: Instant)
    requires forall id :: id in ids ==> id in contracts
    ensures |BatchOf(contracts, ids, today)| == |ids|
    ensures forall k :: 0 <= k < |ids| ==>
      BatchOf(contracts, ids, today)[k] == Invoice(ids[k], contracts[ids[k]].amount, today)
  {
    if ids != [] { BatchIs(contracts, ids[..|ids| - 1], today); }
  }

  lemma {:induction false} BatchAppend(contracts: map<Id, Contract>, ids: seq<Id>, id: Id, today: Instant)
    requires id in contracts && forall x :: x in ids ==> x in contracts
    ensures BatchOf(contracts, ids + [id], today) ==
      BatchOf(contracts, ids, today) + [Invoice(id, contracts[id].amount, today)]
  {
    assert (ids + [id])[..|ids|] == ids;
  }
}
