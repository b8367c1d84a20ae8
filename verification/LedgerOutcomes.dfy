/**
 * When the calls of the ledger succeed, and what the account plan keeps
 * (src/modules/accounting/accounting-enterprise.service.ts).
 */
module LedgerOutcomes {
  import opened Entities
  import opened Ledger
  import opened Text
  import opened Wrappers

  /** An active account of the company, or of no company, has the code. */
  predicate Bookable(b: Books, companyId: Id, code: string) {
    exists id :: id in b.plan && b.plan[id].active && b.plan[id].code == code && OpenTo(b.plan[id], companyId)
  }

  predicate OpenTo(a: Account, companyId: Id) {
    a.companyId == None || a.companyId == Some(companyId)
  }

  predicate Locked(b: Books, companyId: Id, period: Period) {
    LockKey(companyId, period) in b.locks
  }

  lemma BookableIff(b: Books, companyId: Id, code: string)
    ensures Bookable(b, companyId, code) <==> AccountExists(b.plan, companyId, code)
  {
    if id :| id in b.plan && b.plan[id].active && b.plan[id].code == code && OpenTo(b.plan[id], companyId) {
      assert Usable(b.plan[id], companyId, code);
    }
  }

  /** A new entry is accepted exactly on a date of an open period, between two different bookable accounts. */
  lemma CreateEntryIff(b: Books, periodOf: int -> Period, companyId: Id, d: Draft)
    ensures CreateEntry(b, periodOf, companyId, d).1.Done?
       <==> companyId in b.companies && d.date.At? && !Locked(b, companyId, periodOf(d.date.ms))
            && Trim(d.debitCode) != Trim(d.creditCode)
            && Bookable(b, companyId, Trim(d.debitCode)) && Bookable(b, companyId, Trim(d.creditCode))
  {
    BookableIff(b, companyId, Trim(d.debitCode));
    BookableIff(b, companyId, Trim(d.creditCode));
    hide Bookable, AccountExists, Trim;
  }

  /** What a change gives for a text, or the current one if it gives none. */
  function TextAfter(given: Option<string>, current: string): string {
    if given.Some? && Trim(given.value) != "" then Trim(given.value) else current
  }

  /**
   * A change of an entry is accepted exactly if the entry is the company's, neither its period nor the
   * one it would move to is locked, and its codes would be two different bookable ones.
   */
  lemma UpdateEntryIff(b: Books, periodOf: int -> Period, companyId: Id, id: nat, p: Patch)
    ensures UpdateEntry(b, periodOf, companyId, id, p).1.Done?
       <==> id in b.entries && b.entries[id].companyId == companyId
            && var e := b.entries[id];
               var debit, credit := TextAfter(p.debitCode, e.debitCode), TextAfter(p.creditCode, e.creditCode);
               && !Locked(b, companyId, e.period) && p.date != Invalid
               && !Locked(b, companyId, periodOf(if p.date.At? then p.date.ms else e.date))
               && debit != credit && Bookable(b, companyId, debit) && Bookable(b, companyId, credit)
  {
    if id in b.entries {
      var e := b.entries[id];
      BookableIff(b, companyId, TextAfter(p.debitCode, e.debitCode));
      BookableIff(b, companyId, TextAfter(p.creditCode, e.creditCode));
      hide Bookable, AccountExists, Trim;
    }
  }

  /** An entry can be removed exactly if it is the company's and its period is open. */
  lemma DeleteEntryIff(b: Books, companyId: Id, id: nat)
    ensures DeleteEntry(b, companyId, id).1.Done?
       <==> id in b.entries && b.entries[id].companyId == companyId && !Locked(b, companyId, b.entries[id].period)
  {
  }

  /** A period can be locked exactly if it is open, the first locker wanting a known company; and unlocked if locked. */
  lemma LocksIff(b: Books, key: LockKey)
    ensures LockPeriod(b, key).1.Done? <==> key.companyId in b.companies && key !in b.locks
    ensures LockFinancialPeriod(b, key).1.Done? <==> key !in b.locks
    ensures UnlockPeriod(b, key).1.Done? <==> key in b.locks
    ensures LockPeriod(b, key).1.Done? ==> LockPeriod(b, key).0.locks == b.locks + {key}
    ensures LockFinancialPeriod(b, key).1.Done? ==> LockFinancialPeriod(b, key).0.locks == b.locks + {key}
    ensures UnlockPeriod(b, key).1.Done? ==> UnlockPeriod(b, key).0.locks == b.locks - {key}
  {
  }

  /** An account can be created exactly under a code new to the company and a parent, if any, that is bookable. */
  lemma CreateAccountIff(b: Books, companyId: Id, d: AccountDraft)
    ensures CreateAccount(b, companyId, d).1.Done?
       <==> companyId in b.companies
            && (forall id :: id in b.plan && b.plan[id].companyId == Some(companyId) ==>
                  b.plan[id].code != Trim(d.code))
            && (d.parentCode.UnwrapOr("") != "" ==> Bookable(b, companyId, Trim(d.parentCode.value)))
  {
    if d.parentCode.Some? { BookableIff(b, companyId, Trim(d.parentCode.value)); }
    hide Bookable, AccountExists, Trim;
  }

  lemma UpdateAccountIff(b: Books, companyId: Id, id: nat, p: AccountPatch)
    ensures UpdateAccount(b, companyId, id, p).1.Done?
       <==> id in b.plan && b.plan[id].companyId == Some(companyId)
            && (p.parentCode.UnwrapOr(None).UnwrapOr("") != "" ==>
                  Bookable(b, companyId, Trim(p.parentCode.value.value)))
  {
    if p.parentCode.Some? && p.parentCode.value.Some? { BookableIff(b, companyId, Trim(p.parentCode.value.value)); }
    hide Bookable, AccountExists, Trim;
  }

  // Parents.

  ghost predicate ParentKnown(plan: map<nat, Account>, a: Account) {
    a.companyId.Some? && a.parentCode.Some? ==> Known(plan, a.companyId.value, a.parentCode.value)
  }

  /** The parent that an account of a company names is in the company's plan or in the global one. */
  ghost predicate ParentsKnown(plan: map<nat, Account>) {
    forall id :: id in plan ==> ParentKnown(plan, plan[id])
  }

  lemma PresentParentKnown(plan: map<nat, Account>, companyId: Id, parent: Option<string>)
    requires !ParentMissing(plan, companyId, parent) && Trimmed(parent).Some?
    ensures Known(plan, companyId, Trimmed(parent).value)
  {
    hide Trim;
    TrimOfNothing();
    var id :| id in plan && Usable(plan[id], companyId, Trim(parent.value));
    assert plan[id].code == Trimmed(parent).value;
  }

  lemma TrimOfNothing()
    ensures Trim("") == ""
  {
  }

  lemma PlanGrows(plan: map<nat, Account>, plan': map<nat, Account>)
    requires ParentsKnown(plan) && KeepsCodes(plan, plan')
    requires forall id :: id in plan' && (id !in plan || plan'[id] != plan[id]) ==>
      (if id in plan then plan'[id].parentCode == plan[id].parentCode || ParentKnown(plan, plan'[id])
       else ParentKnown(plan, plan'[id]))
    ensures ParentsKnown(plan')
  {
    forall id | id in plan' && plan'[id].companyId.Some? && plan'[id].parentCode.Some?
      ensures Known(plan', plan'[id].companyId.value, plan'[id].parentCode.value)
    {
      if id in plan { assert ParentKnown(plan, plan[id]); }
      KnownStays(plan, plan', plan'[id].companyId.value, plan'[id].parentCode.value);
    }
  }

  lemma {:induction false} SeedKeepsParents(b: Books, periodOf: int -> Period, companyId: Id, items: seq<AccountSeed>)
    requires WellFormed(b, periodOf) && ParentsKnown(b.plan)
    ensures ParentsKnown(SeedCodes(b, companyId, items).plan)
    decreases |items|
  {
    if items != [] {
      var n := |items| - 1;
      var before := SeedCodes(b, companyId, items[..n]);
      SeedKeepsParents(b, periodOf, companyId, items[..n]);
      SeedKeeps(b, periodOf, companyId, items[..n]);
      SeedCodeKeeps(before, periodOf, companyId, items[n]);
      PlanGrows(before.plan, SeedCodes(b, companyId, items).plan);
    }
  }

  lemma StepKeepsParents(b: Books, periodOf: int -> Period, c: Call)
    requires WellFormed(b, periodOf) && ParentsKnown(b.plan)
    ensures ParentsKnown(Step(b, periodOf, c).plan)
  {
    StepKeepsWellFormed(b, periodOf, c);
    match c
    case NewAccount(companyId, d) =>
      if CreateAccount(b, companyId, d).1.Done? {
        if Trimmed(d.parentCode).Some? { PresentParentKnown(b.plan, companyId, d.parentCode); }
        hide Trim, Trimmed, Known, ParentMissing;
        PlanGrows(b.plan, Step(b, periodOf, c).plan);
      }
    case ChangeAccount(companyId, id, p) =>
      if UpdateAccount(b, companyId, id, p).1.Done? {
        var parent := p.parentCode.UnwrapOr(None);
        if Trimmed(parent).Some? { PresentParentKnown(b.plan, companyId, parent); }
        hide Trim, Trimmed, Known, ParentMissing;
        PlanGrows(b.plan, Step(b, periodOf, c).plan);
      }
    case SeedAccounts(companyId, items) => SeedKeepsParents(b, periodOf, companyId, items);
    case _ =>
  }

  /** On every run the parents that accounts name are in the plan. */
  lemma {:induction false} RunKeepsParents(b: Books, periodOf: int -> Period, calls: seq<Call>)
    requires WellFormed(b, periodOf) && ParentsKnown(b.plan)
    ensures ParentsKnown(Run(b, periodOf, calls).plan)
    decreases |calls|
  {
    if calls != [] {
      var n := |calls| - 1;
      RunKeepsParents(b, periodOf, calls[..n]);
      RunKeepsWellFormed(b, periodOf, calls[..n]);
      StepKeepsParents(Run(b, periodOf, calls[..n]), periodOf, calls[n]);
    }
  }
}
