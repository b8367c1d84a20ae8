/** The summary of a list of entries (src/modules/accounting/accounting-enterprise.service.ts). */
module LedgerSummary {
  import opened Entities
  import opened MapSums
  import opened Ledger
  import opened Text
  import opened Wrappers

  datatype Summary = Summary(
    count: int, totalDebit: int, totalCredit: int, totalAmount: int, locked: int, unlocked: int,
    byOrigin: map<EntryOrigin, int>, byMonth: map<Period, int>, byDebitCode: map<string, int>,
    byCreditCode: map<string, int>, balanced: bool)

  /** What one entry adds to one side of a code. */
  function Posted(e: Entry, debit: bool, code: string): int {
    if (if debit then e.debitCode else e.creditCode) == code then e.amount else 0
  }

  /** Sum of the amounts of the entries on one code, on the debit or on the credit side. */
  function OnCode(items: seq<Entry>, debit: bool, code: string): int {
    if items == [] then 0
    else
      var e := items[|items| - 1];
      OnCode(items[..|items| - 1], debit, code) + Posted(e, debit, code)
  }

  function TotalAmount(items: seq<Entry>): int {
    if items == [] then 0 else TotalAmount(items[..|items| - 1]) + items[|items| - 1].amount
  }

  lemma {:induction false} SummaryStep(items: seq<Entry>, e: Entry)
    ensures TotalAmount(items + [e]) == TotalAmount(items) + e.amount
    ensures forall debit, code ::
      OnCode(items + [e], debit, code) == OnCode(items, debit, code) + Posted(e, debit, code)
  {
    assert (items + [e])[..|items|] == items;
  }

  /** A map of one side: per code the amounts on it, all of them adding up to the total. */
  ghost predicate SideOf(m: map<string, int>, items: seq<Entry>, debit: bool) {
    && (forall code :: (if code in m then m[code] else 0) == OnCode(items, debit, code))
    && MapSum(m) == TotalAmount(items)
  }

  lemma {:induction false} SideStep(m: map<string, int>, items: seq<Entry>, debit: bool, e: Entry, code: string)
    requires SideOf(m, items, debit) && code == if debit then e.debitCode else e.creditCode
    ensures SideOf(Added(m, code, e.amount), items + [e], debit)
  {
    MapSumAdded(m, code, e.amount);
    SummaryStep(items, e);
  }

  /** Both sides add up to the same total, so a list of entries is always balanced. */
  method BuildEntrySummary(items: seq<Entry>) returns (s: Summary)
    ensures s.count == |items| == s.locked + s.unlocked == MapSum(s.byMonth) == MapSum(s.byOrigin)
    ensures s.totalDebit == s.totalCredit == s.totalAmount == TotalAmount(items) && s.balanced
    ensures SideOf(s.byDebitCode, items, true) && SideOf(s.byCreditCode, items, false)
  {
    s := Summary(|items|, 0, 0, 0, 0, 0, map[], map[], map[], map[], true);
    for i := 0 to |items|
      invariant s.count == |items| && s.locked + s.unlocked == i == MapSum(s.byMonth) == MapSum(s.byOrigin)
      invariant s.totalDebit == s.totalCredit == s.totalAmount == TotalAmount(items[..i])
      invariant SideOf(s.byDebitCode, items[..i], true) && SideOf(s.byCreditCode, items[..i], false)
    {
      var item := items[i];
      SideStep(s.byDebitCode, items[..i], true, item, item.debitCode);
      SideStep(s.byCreditCode, items[..i], false, item, item.creditCode);
      SummaryStep(items[..i], item);
      MapSumAdded(s.byMonth, item.period, 1);
      MapSumAdded(s.byOrigin, item.origin, 1);
      assert items[..i + 1] == items[..i] + [item];
      s := s.(totalDebit := s.totalDebit + item.amount, totalCredit := s.totalCredit + item.amount,
              totalAmount := s.totalAmount + item.amount, byMonth := Added(s.byMonth, item.period, 1),
              byOrigin := Added(s.byOrigin, item.origin, 1),
              byDebitCode := Added(s.byDebitCode, item.debitCode, item.amount),
              byCreditCode := Added(s.byCreditCode, item.creditCode, item.amount));
      if item.locked { s := s.(locked := s.locked + 1); } else { s := s.(unlocked := s.unlocked + 1); }
    }
    assert items[..|items|] == items;
    s := s.(balanced := s.totalDebit == s.totalCredit);
  }

  // What the calls post.

  /** What each entry of a company adds to one side of a code. */
  ghost function CodePosts(entries: map<nat, Entry>, companyId: Id, debit: bool, code: string): map<nat, int> {
    map id | id in entries && entries[id].companyId == companyId :: Posted(entries[id], debit, code)
  }

  /** What all entries of a company add up to on one side of a code. */
  ghost function CodeTotal(entries: map<nat, Entry>, companyId: Id, debit: bool, code: string): int {
    MapSum(CodePosts(entries, companyId, debit, code))
  }

  lemma TotalPut(entries: map<nat, Entry>, id: nat, e: Entry, companyId: Id, debit: bool, code: string)
    ensures CodeTotal(entries[id := e], companyId, debit, code)
         == CodeTotal(entries - {id}, companyId, debit, code)
            + if e.companyId == companyId then Posted(e, debit, code) else 0
  {
    hide Posted;
    var after := CodePosts(entries[id := e], companyId, debit, code);
    var rest := CodePosts(entries - {id}, companyId, debit, code);
    if e.companyId == companyId {
      MapSumPick(after, id);
      assert after - {id} == rest;
    } else {
      assert after == rest;
    }
  }

  lemma TotalRest(entries: map<nat, Entry>, id: nat, companyId: Id, debit: bool, code: string)
    requires id in entries
    ensures CodeTotal(entries, companyId, debit, code)
         == CodeTotal(entries - {id}, companyId, debit, code)
            + if entries[id].companyId == companyId then Posted(entries[id], debit, code) else 0
  {
    assert entries[id := entries[id]] == entries;
    TotalPut(entries, id, entries[id], companyId, debit, code);
  }

  /** A new entry adds its amount to its debit code on the debit side and to its credit code on the credit side. */
  lemma CreatePosts(b: Books, periodOf: int -> Period, companyId: Id, d: Draft, debit: bool, code: string)
    requires CreateEntry(b, periodOf, companyId, d).1.Done? && b.nextId !in b.entries
    ensures CodeTotal(CreateEntry(b, periodOf, companyId, d).0.entries, companyId, debit, code)
         == CodeTotal(b.entries, companyId, debit, code)
            + if code == Trim(if debit then d.debitCode else d.creditCode) then d.amount else 0
  {
    hide Trim, AccountExists;
    assert b.entries - {b.nextId} == b.entries;
    TotalPut(b.entries, b.nextId, Drafted(companyId, d, periodOf), companyId, debit, code);
  }

  /** What a change gives for a code, or the entry's own if it gives none. */
  function CodeAfter(given: Option<string>, current: string): string {
    if given.Some? && Trim(given.value) != "" then Trim(given.value) else current
  }

  /** A changed entry takes its old amount off its old codes and adds its new one to its new codes. */
  lemma UpdatePosts(b: Books, periodOf: int -> Period, companyId: Id, id: nat, p: Patch, debit: bool, code: string)
    requires UpdateEntry(b, periodOf, companyId, id, p).1.Done?
    ensures var e := b.entries[id];
      var old' := if debit then e.debitCode else e.creditCode;
      var new' := if debit then CodeAfter(p.debitCode, e.debitCode) else CodeAfter(p.creditCode, e.creditCode);
      CodeTotal(UpdateEntry(b, periodOf, companyId, id, p).0.entries, companyId, debit, code)
      == CodeTotal(b.entries, companyId, debit, code)
         - (if code == old' then e.amount else 0)
         + (if code == new' then p.amount.UnwrapOr(e.amount) else 0)
  {
    hide Trim, AccountExists;
    TotalRest(b.entries, id, companyId, debit, code);
    TotalPut(b.entries, id, Patched(b.entries[id], p, periodOf), companyId, debit, code);
  }

  /** A removed entry takes its amount off its codes. */
  lemma DeletePosts(b: Books, companyId: Id, id: nat, debit: bool, code: string)
    requires DeleteEntry(b, companyId, id).1.Done?
    ensures CodeTotal(DeleteEntry(b, companyId, id).0.entries, companyId, debit, code)
         == CodeTotal(b.entries, companyId, debit, code)
            - if code == (if debit then b.entries[id].debitCode else b.entries[id].creditCode)
              then b.entries[id].amount else 0
  {
    TotalRest(b.entries, id, companyId, debit, code);
  }

  /** What the entries of one period add up to on one side of a code. */
  ghost function PeriodTotal(entries: map<nat, Entry>, key: LockKey, debit: bool, code: string): int {
    MapSum(map id | id in PeriodEntries(entries, key) :: Posted(PeriodEntries(entries, key)[id], debit, code))
  }

  /** Between a lock and the next unlock of a period, every account's totals in it stay the same. */
  lemma {:induction false} LockedTotalsStay(b: Books, periodOf: int -> Period, calls: seq<Call>, key: LockKey,
          debit: bool, code: string)
    requires WellFormed(b, periodOf) && key in b.locks && Unlock(key) !in calls
    ensures PeriodTotal(Run(b, periodOf, calls).entries, key, debit, code) == PeriodTotal(b.entries, key, debit, code)
  {
    LockedPeriodIsFrozen(b, periodOf, calls, key);
    hide PeriodEntries;
  }
}
