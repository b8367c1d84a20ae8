/**
 * The accounting ledger (src/modules/accounting/accounting-enterprise.service.ts)
 * and the second period locker (src/modules/finance/finance.service.ts). Each call
 * runs alone. Row ids come from a counter, a date is its timestamp, an amount is
 * in cents, and the UTC calendar is a parameter.
 */
module Ledger {
  import opened Entities
  import opened Text
  import opened Wrappers

  datatype AccountType = ATIVO | PASSIVO | PATRIMONIO_LIQUIDO | RECEITA | DESPESA | CUSTO

  datatype Account = Account(
    companyId: Option<Id>, code: string, name: string, kind: AccountType, parentCode: Option<string>, active: bool)

  datatype EntryOrigin = MANUAL | INVOICE_AUTO | PAYROLL_AUTO | BANK_IMPORT | TAX_PAYMENT

  datatype Entry = Entry(
    companyId: Id, date: int, description: string, debitCode: string, creditCode: string, amount: int,
    origin: EntryOrigin, referenceId: Option<string>, referenceType: Option<string>, period: Period, locked: bool)

  datatype LockKey = LockKey(companyId: Id, period: Period)

  datatype Books = Books(
    companies: set<Id>, plan: map<nat, Account>, entries: map<nat, Entry>, locks: set<LockKey>, nextId: nat)

  datatype Outcome = Done | NotFound | Conflict | BadRequest

  /** A date of a request: left out, not a date, or a timestamp. */
  datatype DateField = Absent | Invalid | At(ms: int)

  datatype Draft = Draft(
    date: DateField, description: string, debitCode: string, creditCode: string, amount: int,
    origin: Option<EntryOrigin>, referenceId: Option<string>, referenceType: Option<string>)

  /** The fields of a change that were given; a reference that was given may be none. */
  datatype Patch = Patch(
    date: DateField, description: Option<string>, debitCode: Option<string>, creditCode: Option<string>,
    amount: Option<int>, origin: Option<EntryOrigin>,
    referenceId: Option<Option<string>>, referenceType: Option<Option<string>>)

  datatype AccountDraft = AccountDraft(
    code: string, name: string, kind: AccountType, parentCode: Option<string>, active: Option<bool>)

  datatype AccountPatch = AccountPatch(
    name: Option<string>, kind: Option<AccountType>, parentCode: Option<Option<string>>, active: Option<bool>)

  /** An account of the default plan. */
  datatype AccountSeed = AccountSeed(code: string, name: string, kind: AccountType)

  // The calls, as functions of the books.

  predicate Usable(a: Account, companyId: Id, code: string) {
    a.code == code && a.active && (a.companyId == Some(companyId) || a.companyId == None)
  }

  predicate AccountExists(plan: map<nat, Account>, companyId: Id, code: string) {
    exists id :: id in plan && Usable(plan[id], companyId, code)
  }

  predicate OwnsCode(plan: map<nat, Account>, companyId: Id, code: string) {
    exists id :: id in plan && plan[id].companyId == Some(companyId) && plan[id].code == code
  }

  predicate ParentMissing(plan: map<nat, Account>, companyId: Id, parent: Option<string>) {
    parent.Some? && parent.value != "" && !AccountExists(plan, companyId, Trim(parent.value))
  }

  function CreateAccount(b: Books, companyId: Id, d: AccountDraft): (Books, Outcome) {
    if companyId !in b.companies then (b, NotFound)
    else if OwnsCode(b.plan, companyId, Trim(d.code)) then (b, Conflict)
    else if ParentMissing(b.plan, companyId, d.parentCode) then (b, BadRequest)
    else
      var a := Account(Some(companyId), Trim(d.code), Trim(d.name), d.kind, Trimmed(d.parentCode),
        d.active.UnwrapOr(true));
      (b.(plan := b.plan[b.nextId := a], nextId := b.nextId + 1), Done)
  }

  function PatchedAccount(a: Account, p: AccountPatch): Account {
    Account(a.companyId, a.code, if p.name.Some? then Trim(p.name.value) else a.name, p.kind.UnwrapOr(a.kind),
            if p.parentCode.Some? then Trimmed(p.parentCode.value) else a.parentCode, p.active.UnwrapOr(a.active))
  }

  function UpdateAccount(b: Books, companyId: Id, id: nat, p: AccountPatch): (Books, Outcome) {
    if id !in b.plan || b.plan[id].companyId != Some(companyId) then (b, NotFound)
    else if ParentMissing(b.plan, companyId, p.parentCode.UnwrapOr(None)) then (b, BadRequest)
    else (b.(plan := b.plan[id := PatchedAccount(b.plan[id], p)]), Done)
  }

  function SeedCode(b: Books, companyId: Id, item: AccountSeed): Books {
    if OwnsCode(b.plan, companyId, item.code) then b
    else
      var a := Account(Some(companyId), item.code, item.name, item.kind, None, true);
      b.(plan := b.plan[b.nextId := a], nextId := b.nextId + 1)
  }

  function SeedCodes(b: Books, companyId: Id, items: seq<AccountSeed>): Books {
    if items == [] then b else SeedCode(SeedCodes(b, companyId, items[..|items| - 1]), companyId, items[|items| - 1])
  }

  function Seed(b: Books, companyId: Id, items: seq<AccountSeed>): (Books, Outcome) {
    if companyId !in b.companies then (b, NotFound) else (SeedCodes(b, companyId, items), Done)
  }

  predicate SeedsCode(items: seq<AccountSeed>, code: string) {
    exists i :: 0 <= i < |items| && items[i].code == code
  }

  /** The checks on the two codes of an entry. */
  predicate CodesRefused(b: Books, companyId: Id, debitCode: string, creditCode: string) {
    || debitCode == creditCode
    || !AccountExists(b.plan, companyId, debitCode)
    || !AccountExists(b.plan, companyId, creditCode)
  }

  function Drafted(companyId: Id, d: Draft, periodOf: int -> Period): Entry
    requires d.date.At?
  {
    Entry(companyId, d.date.ms, Trim(d.description), Trim(d.debitCode), Trim(d.creditCode), d.amount,
          d.origin.UnwrapOr(MANUAL), Trimmed(d.referenceId), Trimmed(d.referenceType), periodOf(d.date.ms), false)
  }

  function CreateEntry(b: Books, periodOf: int -> Period, companyId: Id, d: Draft): (Books, Outcome) {
    if companyId !in b.companies then (b, NotFound)
    else if !d.date.At? then (b, BadRequest)
    else if LockKey(companyId, periodOf(d.date.ms)) in b.locks then (b, Conflict)
    else if CodesRefused(b, companyId, Trim(d.debitCode), Trim(d.creditCode)) then (b, BadRequest)
    else
      (b.(entries := b.entries[b.nextId := Drafted(companyId, d, periodOf)], nextId := b.nextId + 1), Done)
  }

  function Patched(e: Entry, p: Patch, periodOf: int -> Period): Entry {
    var date := if p.date.At? then p.date.ms else e.date;
    Entry(e.companyId, date, if p.description.Some? then Trim(p.description.value) else e.description,
          Trimmed(p.debitCode).UnwrapOr(e.debitCode), Trimmed(p.creditCode).UnwrapOr(e.creditCode),
          p.amount.UnwrapOr(e.amount), p.origin.UnwrapOr(e.origin),
          if p.referenceId.Some? then Trimmed(p.referenceId.value) else e.referenceId,
          if p.referenceType.Some? then Trimmed(p.referenceType.value) else e.referenceType, periodOf(date), e.locked)
  }

  function UpdateEntry(b: Books, periodOf: int -> Period, companyId: Id, id: nat, p: Patch): (Books, Outcome) {
    if id !in b.entries || b.entries[id].companyId != companyId then (b, NotFound)
    else
      var e, e' := b.entries[id], Patched(b.entries[id], p, periodOf);
      if LockKey(companyId, e.period) in b.locks then (b, Conflict)
      else if p.date.Invalid? then (b, BadRequest)
      else if LockKey(companyId, e'.period) in b.locks then (b, Conflict)
      else if CodesRefused(b, companyId, e'.debitCode, e'.creditCode) then (b, BadRequest)
      else (b.(entries := b.entries[id := e']), Done)
  }

  function DeleteEntry(b: Books, companyId: Id, id: nat): (Books, Outcome) {
    if id !in b.entries || b.entries[id].companyId != companyId then (b, NotFound)
    else if LockKey(companyId, b.entries[id].period) in b.locks then (b, Conflict)
    else (b.(entries := b.entries - {id}), Done)
  }

  /** The entries with the flag of one period's entries set. */
  function Flagged(entries: map<nat, Entry>, key: LockKey, locked: bool): map<nat, Entry> {
    map id | id in entries :: if KeyOf(entries[id]) == key then entries[id].(locked := locked) else entries[id]
  }

  function KeyOf(e: Entry): LockKey {
    LockKey(e.companyId, e.period)
  }

  function LockPeriod(b: Books, key: LockKey): (Books, Outcome) {
    if key.companyId !in b.companies then (b, NotFound)
    else if key in b.locks then (b, Conflict)
    else (b.(locks := b.locks + {key}, entries := Flagged(b.entries, key, true)), Done)
  }

  function UnlockPeriod(b: Books, key: LockKey): (Books, Outcome) {
    if key !in b.locks then (b, NotFound)
    else (b.(locks := b.locks - {key}, entries := Flagged(b.entries, key, false)), Done)
  }

  /** The second locker: the unique index refuses a second lock, and no entry is flagged. */
  function LockFinancialPeriod(b: Books, key: LockKey): (Books, Outcome) {
    if key in b.locks then (b, Conflict) else (b.(locks := b.locks + {key}), Done)
  }

  // Runs.

  datatype Call =
    | NewAccount(companyId: Id, account: AccountDraft)
    | ChangeAccount(companyId: Id, id: nat, change: AccountPatch)
    | SeedAccounts(companyId: Id, items: seq<AccountSeed>)
    | NewEntry(companyId: Id, draft: Draft)
    | ChangeEntry(companyId: Id, id: nat, patch: Patch)
    | RemoveEntry(companyId: Id, id: nat)
    | Lock(key: LockKey)
    | Unlock(key: LockKey)
    | LockFinancial(key: LockKey)

  function Step(b: Books, periodOf: int -> Period, c: Call): Books {
    match c
    case NewAccount(companyId, account) => CreateAccount(b, companyId, account).0
    case ChangeAccount(companyId, id, change) => UpdateAccount(b, companyId, id, change).0
    case SeedAccounts(companyId, items) => Seed(b, companyId, items).0
    case NewEntry(companyId, draft) => CreateEntry(b, periodOf, companyId, draft).0
    case ChangeEntry(companyId, id, patch) => UpdateEntry(b, periodOf, companyId, id, patch).0
    case RemoveEntry(companyId, id) => DeleteEntry(b, companyId, id).0
    case Lock(key) => LockPeriod(b, key).0
    case Unlock(key) => UnlockPeriod(b, key).0
    case LockFinancial(key) => LockFinancialPeriod(b, key).0
  }

  function Run(b: Books, periodOf: int -> Period, calls: seq<Call>): Books
    decreases |calls|
  {
    if calls == [] then b else Step(Run(b, periodOf, calls[..|calls| - 1]), periodOf, calls[|calls| - 1])
  }

  // Well-formed books.

  /** A code is in the plan of the company or in the global one, active or not. */
  ghost predicate Known(plan: map<nat, Account>, companyId: Id, code: string) {
    exists id ::
      id in plan && plan[id].code == code && (plan[id].companyId == Some(companyId) || plan[id].companyId == None)
  }

  ghost predicate GoodEntry(b: Books, periodOf: int -> Period, e: Entry) {
    && e.debitCode != e.creditCode
    && Known(b.plan, e.companyId, e.debitCode) && Known(b.plan, e.companyId, e.creditCode)
    && e.period == periodOf(e.date)
    && (e.locked ==> KeyOf(e) in b.locks)
  }

  predicate SameCode(a: Account, a': Account) {
    a.companyId.Some? && a.companyId == a'.companyId && a.code == a'.code
  }

  ghost predicate GoodPlan(b: Books) {
    && (forall id :: id in b.plan ==> id < b.nextId)
    && (forall i, j :: i in b.plan && j in b.plan && SameCode(b.plan[i], b.plan[j]) ==> i == j)
  }

  ghost predicate WellFormed(b: Books, periodOf: int -> Period) {
    && GoodPlan(b)
    && (forall id :: id in b.entries ==> id < b.nextId && GoodEntry(b, periodOf, b.entries[id]))
  }

  /** Accounts stay in the plan, with their company and code. */
  ghost predicate KeepsCodes(plan: map<nat, Account>, plan': map<nat, Account>) {
    forall id :: id in plan ==>
      id in plan' && plan'[id].companyId == plan[id].companyId && plan'[id].code == plan[id].code
  }

  lemma {:induction false} KnownStays(plan: map<nat, Account>, plan': map<nat, Account>, companyId: Id, code: string)
    requires KeepsCodes(plan, plan') && Known(plan, companyId, code)
    ensures Known(plan', companyId, code)
  {
    var id :| id in plan && plan[id].code == code
      && (plan[id].companyId == Some(companyId) || plan[id].companyId == None);
    assert id in plan';
  }

  lemma {:induction false} PlanStep(b: Books, b': Books, periodOf: int -> Period)
    requires WellFormed(b, periodOf) && GoodPlan(b') && KeepsCodes(b.plan, b'.plan)
    requires b'.entries == b.entries && b'.locks == b.locks && b'.nextId >= b.nextId
    ensures WellFormed(b', periodOf)
  {
    forall id | id in b'.entries ensures GoodEntry(b', periodOf, b'.entries[id]) {
      var e := b.entries[id];
      KnownStays(b.plan, b'.plan, e.companyId, e.debitCode);
      KnownStays(b.plan, b'.plan, e.companyId, e.creditCode);
    }
  }

  lemma {:induction false} SeedCodeKeeps(b: Books, periodOf: int -> Period, companyId: Id, item: AccountSeed)
    requires WellFormed(b, periodOf)
    ensures var b' := SeedCode(b, companyId, item);
      && WellFormed(b', periodOf) && KeepsCodes(b.plan, b'.plan)
      && b'.entries == b.entries && b'.locks == b.locks
  {
    var b' := SeedCode(b, companyId, item);
    if !OwnsCode(b.plan, companyId, item.code) {
      assert b.nextId in b'.plan;
      PlanStep(b, b', periodOf);
    }
  }

  lemma {:induction false} SeedKeeps(b: Books, periodOf: int -> Period, companyId: Id, items: seq<AccountSeed>)
    requires WellFormed(b, periodOf)
    ensures var b' := SeedCodes(b, companyId, items);
      && WellFormed(b', periodOf) && KeepsCodes(b.plan, b'.plan) && b'.entries == b.entries && b'.locks == b.locks
    decreases |items|
  {
    if items != [] {
      var n := |items| - 1;
      var b1, b2 := SeedCodes(b, companyId, items[..n]), SeedCodes(b, companyId, items);
      SeedKeeps(b, periodOf, companyId, items[..n]);
      SeedCodeKeeps(b1, periodOf, companyId, items[n]);
      CodesStay(b.plan, b1.plan, b2.plan);
    }
  }

  lemma CodesStay(plan: map<nat, Account>, plan': map<nat, Account>, plan'': map<nat, Account>)
    requires KeepsCodes(plan, plan') && KeepsCodes(plan', plan'')
    ensures KeepsCodes(plan, plan'')
  {
  }

  /** After seeding, the company owns the seeded codes and those it owned before. */
  lemma {:induction false} SeedOwns(b: Books, companyId: Id, items: seq<AccountSeed>, code: string)
    requires GoodPlan(b)
    ensures GoodPlan(SeedCodes(b, companyId, items))
    ensures OwnsCode(SeedCodes(b, companyId, items).plan, companyId, code)
       <==> OwnsCode(b.plan, companyId, code) || SeedsCode(items, code)
    decreases |items|
  {
    if items != [] {
      var n := |items| - 1;
      SeedOwns(b, companyId, items[..n], code);
      SeedsCodeStep(items, n, code);
      SeedOwnsOne(SeedCodes(b, companyId, items[..n]), companyId, items[n], code);
    }
  }

  lemma {:induction false} SeedsCodeStep(items: seq<AccountSeed>, n: nat, code: string)
    requires n < |items|
    ensures SeedsCode(items[..n + 1], code) <==> SeedsCode(items[..n], code) || items[n].code == code
    ensures n + 1 == |items| ==> items[..n + 1] == items
  {
    if SeedsCode(items[..n], code) {
      var i :| 0 <= i < n && items[..n][i].code == code;
      assert items[..n + 1][i].code == code;
    }
    if items[n].code == code { assert items[..n + 1][n].code == code; }
    if SeedsCode(items[..n + 1], code) && items[n].code != code {
      var i :| 0 <= i < n + 1 && items[..n + 1][i].code == code;
      assert items[..n][i].code == code;
    }
  }

  lemma {:induction false} SeedOwnsOne(b: Books, companyId: Id, seeded: AccountSeed, code: string)
    requires GoodPlan(b)
    ensures GoodPlan(SeedCode(b, companyId, seeded))
    ensures OwnsCode(SeedCode(b, companyId, seeded).plan, companyId, code)
       <==> OwnsCode(b.plan, companyId, code) || code == seeded.code
  {
    var b' := SeedCode(b, companyId, seeded);
    if !OwnsCode(b.plan, companyId, seeded.code) {
      assert b'.plan[b.nextId].code == seeded.code;
      if OwnsCode(b.plan, companyId, code) {
        var id :| id in b.plan && b.plan[id].companyId == Some(companyId) && b.plan[id].code == code;
        assert id in b'.plan && b'.plan[id] == b.plan[id];
      }
    }
  }

  /** Seeding a second time creates nothing. */
  lemma {:induction false} SeedTwice(b: Books, companyId: Id, items: seq<AccountSeed>)
    requires GoodPlan(b)
    ensures Seed(Seed(b, companyId, items).0, companyId, items).0 == Seed(b, companyId, items).0
  {
    if companyId in b.companies {
      forall k | 0 <= k < |items| ensures OwnsCode(Seed(b, companyId, items).0.plan, companyId, items[k].code) {
        SeedOwns(b, companyId, items, items[k].code);
        assert SeedsCode(items, items[k].code);
      }
      SeedKeepsCompanies(b, companyId, items);
      OwnedSeedsNothing(Seed(b, companyId, items).0, companyId, items);
    }
  }

  lemma {:induction false} SeedKeepsCompanies(b: Books, companyId: Id, items: seq<AccountSeed>)
    ensures SeedCodes(b, companyId, items).companies == b.companies
    decreases |items|
  {
    if items != [] { SeedKeepsCompanies(b, companyId, items[..|items| - 1]); }
  }

  lemma {:induction false} OwnedSeedsNothing(b: Books, companyId: Id, items: seq<AccountSeed>)
    requires forall k :: 0 <= k < |items| ==> OwnsCode(b.plan, companyId, items[k].code)
    ensures SeedCodes(b, companyId, items) == b
    decreases |items|
  {
    if items != [] { OwnedSeedsNothing(b, companyId, items[..|items| - 1]); }
  }

  lemma {:induction false} UsableIsKnown(plan: map<nat, Account>, companyId: Id, code: string)
    requires AccountExists(plan, companyId, code)
    ensures Known(plan, companyId, code)
  {
    var id :| id in plan && Usable(plan[id], companyId, code);
    assert id in plan && plan[id].code == code;
  }

  /** Writing one entry whose period is open and whose codes passed the checks. */
  lemma {:induction false} EntryStep(b: Books, b': Books, periodOf: int -> Period, id: nat, e: Entry)
    requires WellFormed(b, periodOf)
    requires b' == b.(entries := b.entries[id := e], nextId := b'.nextId) && id < b'.nextId && b.nextId <= b'.nextId
    requires !CodesRefused(b, e.companyId, e.debitCode, e.creditCode) && e.period == periodOf(e.date) && !e.locked
    ensures WellFormed(b', periodOf)
  {
    UsableIsKnown(b.plan, e.companyId, e.debitCode);
    UsableIsKnown(b.plan, e.companyId, e.creditCode);
    forall k | k in b'.entries ensures GoodEntry(b', periodOf, b'.entries[k]) {
      if k != id { assert GoodEntry(b, periodOf, b.entries[k]); }
    }
  }

  /** Changing locks and flags together. */
  lemma {:induction false} LockStep(b: Books, b': Books, periodOf: int -> Period)
    requires WellFormed(b, periodOf)
    requires b'.companies == b.companies && b'.plan == b.plan && b'.nextId == b.nextId
        && b'.entries.Keys == b.entries.Keys
    requires forall id :: id in b.entries ==> b'.entries[id] == b.entries[id].(locked := b'.entries[id].locked)
    requires forall id :: id in b.entries && b'.entries[id].locked ==> KeyOf(b.entries[id]) in b'.locks
    ensures WellFormed(b', periodOf)
  {
    forall id | id in b'.entries ensures GoodEntry(b', periodOf, b'.entries[id]) {
      assert GoodEntry(b, periodOf, b.entries[id]);
    }
  }

  lemma {:induction false} AccountCallKeeps(b: Books, periodOf: int -> Period, c: Call)
    requires WellFormed(b, periodOf) && (c.NewAccount? || c.ChangeAccount?)
    ensures WellFormed(Step(b, periodOf, c), periodOf) && KeepsCodes(b.plan, Step(b, periodOf, c).plan)
    ensures Step(b, periodOf, c).entries == b.entries && Step(b, periodOf, c).locks == b.locks
  {
    hide ParentMissing, Trim, Trimmed, TrimStart, TrimEnd;
    var b' := Step(b, periodOf, c);
    if b' != b { PlanStep(b, b', periodOf); }
  }

  lemma {:induction false} NewEntryKeeps(b: Books, periodOf: int -> Period, companyId: Id, d: Draft)
    requires WellFormed(b, periodOf)
    ensures WellFormed(CreateEntry(b, periodOf, companyId, d).0, periodOf)
  {
    var b' := CreateEntry(b, periodOf, companyId, d).0;
    if b' != b { EntryStep(b, b', periodOf, b.nextId, b'.entries[b.nextId]); }
  }

  lemma {:induction false} ChangeEntryKeeps(b: Books, periodOf: int -> Period, companyId: Id, id: nat, p: Patch)
    requires WellFormed(b, periodOf)
    ensures WellFormed(UpdateEntry(b, periodOf, companyId, id, p).0, periodOf)
  {
    var r := UpdateEntry(b, periodOf, companyId, id, p);
    if r.1.Done? {
      assert GoodEntry(b, periodOf, b.entries[id]);
      EntryStep(b, r.0, periodOf, id, Patched(b.entries[id], p, periodOf));
    }
  }

  lemma {:induction false} RemoveEntryKeeps(b: Books, periodOf: int -> Period, companyId: Id, id: nat)
    requires WellFormed(b, periodOf)
    ensures WellFormed(DeleteEntry(b, companyId, id).0, periodOf)
  {
    var b' := DeleteEntry(b, companyId, id).0;
    forall k | k in b'.entries ensures GoodEntry(b', periodOf, b'.entries[k]) {
      assert GoodEntry(b, periodOf, b.entries[k]);
    }
  }

  lemma {:induction false} LockKeeps(b: Books, periodOf: int -> Period, key: LockKey)
    requires WellFormed(b, periodOf)
    ensures WellFormed(LockPeriod(b, key).0, periodOf)
  {
    FlagsGood(b, periodOf);
    LockStep(b, LockPeriod(b, key).0, periodOf);
  }

  lemma {:induction false} UnlockKeeps(b: Books, periodOf: int -> Period, key: LockKey)
    requires WellFormed(b, periodOf)
    ensures WellFormed(UnlockPeriod(b, key).0, periodOf)
  {
    FlagsGood(b, periodOf);
    LockStep(b, UnlockPeriod(b, key).0, periodOf);
  }

  lemma {:induction false} LockFinancialKeeps(b: Books, periodOf: int -> Period, key: LockKey)
    requires WellFormed(b, periodOf)
    ensures WellFormed(LockFinancialPeriod(b, key).0, periodOf)
  {
    FlagsGood(b, periodOf);
    LockStep(b, LockFinancialPeriod(b, key).0, periodOf);
  }

  predicate OnPlan(c: Call) {
    c.NewAccount? || c.ChangeAccount? || c.SeedAccounts?
  }

  predicate OnEntry(c: Call) {
    c.NewEntry? || c.ChangeEntry? || c.RemoveEntry?
  }

  lemma {:induction false} PlanCallKeeps(b: Books, periodOf: int -> Period, c: Call)
    requires WellFormed(b, periodOf) && OnPlan(c)
    ensures WellFormed(Step(b, periodOf, c), periodOf) && KeepsCodes(b.plan, Step(b, periodOf, c).plan)
    ensures Step(b, periodOf, c).entries == b.entries && Step(b, periodOf, c).locks == b.locks
  {
    if c.SeedAccounts? {
      assert Step(b, periodOf, c) == Seed(b, c.companyId, c.items).0;
      SeedKeeps(b, periodOf, c.companyId, c.items);
    } else {
      AccountCallKeeps(b, periodOf, c);
    }
  }

  lemma {:induction false} EntryCallKeeps(b: Books, periodOf: int -> Period, c: Call)
    requires WellFormed(b, periodOf) && OnEntry(c)
    ensures WellFormed(Step(b, periodOf, c), periodOf) && Step(b, periodOf, c).plan == b.plan
  {
    match c
    case NewEntry(companyId, d) =>
      assert Step(b, periodOf, c) == CreateEntry(b, periodOf, companyId, d).0;
      NewEntryKeeps(b, periodOf, companyId, d);
    case ChangeEntry(companyId, id, p) =>
      assert Step(b, periodOf, c) == UpdateEntry(b, periodOf, companyId, id, p).0;
      ChangeEntryKeeps(b, periodOf, companyId, id, p);
    case RemoveEntry(companyId, id) =>
      assert Step(b, periodOf, c) == DeleteEntry(b, companyId, id).0;
      RemoveEntryKeeps(b, periodOf, companyId, id);
  }

  lemma {:induction false} LockCallKeeps(b: Books, periodOf: int -> Period, c: Call)
    requires WellFormed(b, periodOf) && !OnPlan(c) && !OnEntry(c)
    ensures WellFormed(Step(b, periodOf, c), periodOf) && Step(b, periodOf, c).plan == b.plan
  {
    match c
    case Lock(key) => LockKeeps(b, periodOf, key);
    case Unlock(key) => UnlockKeeps(b, periodOf, key);
    case LockFinancial(key) => LockFinancialKeeps(b, periodOf, key);
  }

  lemma {:induction false} StepKeepsWellFormed(b: Books, periodOf: int -> Period, c: Call)
    requires WellFormed(b, periodOf)
    ensures WellFormed(Step(b, periodOf, c), periodOf)
    ensures KeepsCodes(b.plan, Step(b, periodOf, c).plan)
  {
    if OnPlan(c) { PlanCallKeeps(b, periodOf, c); }
    else if OnEntry(c) { EntryCallKeeps(b, periodOf, c); }
    else { LockCallKeeps(b, periodOf, c); }
  }

  lemma {:induction false} FlagsGood(b: Books, periodOf: int -> Period)
    requires WellFormed(b, periodOf)
    ensures forall id :: id in b.entries && b.entries[id].locked ==> KeyOf(b.entries[id]) in b.locks
  {
    forall id | id in b.entries && b.entries[id].locked ensures KeyOf(b.entries[id]) in b.locks {
      assert GoodEntry(b, periodOf, b.entries[id]);
    }
  }

  /** On every run the books stay well-formed, and no account loses its company or code. */
  lemma {:induction false} RunKeepsWellFormed(b: Books, periodOf: int -> Period, calls: seq<Call>)
    requires WellFormed(b, periodOf)
    ensures WellFormed(Run(b, periodOf, calls), periodOf)
    ensures KeepsCodes(b.plan, Run(b, periodOf, calls).plan)
    decreases |calls|
  {
    if calls != [] {
      var n := |calls| - 1;
      RunKeepsWellFormed(b, periodOf, calls[..n]);
      StepKeepsWellFormed(Run(b, periodOf, calls[..n]), periodOf, calls[n]);
    }
  }

  // Locked periods.

  /** The entries of one period of one company, their flag aside. */
  function PeriodEntries(entries: map<nat, Entry>, key: LockKey): map<nat, Entry> {
    map id | id in entries && KeyOf(entries[id]) == key :: entries[id].(locked := false)
  }

  /** Writing or removing an entry that is in another period before and after. */
  lemma OtherPeriodPut(entries: map<nat, Entry>, id: nat, e: Entry, key: LockKey)
    requires (id in entries ==> KeyOf(entries[id]) != key) && KeyOf(e) != key
    ensures PeriodEntries(entries[id := e], key) == PeriodEntries(entries, key)
  {
  }

  lemma OtherPeriodRemoved(entries: map<nat, Entry>, id: nat, key: LockKey)
    requires id in entries ==> KeyOf(entries[id]) != key
    ensures PeriodEntries(entries - {id}, key) == PeriodEntries(entries, key)
  {
  }

  lemma {:induction false} FlagsAside(entries: map<nat, Entry>, other: LockKey, locked: bool, key: LockKey)
    ensures PeriodEntries(Flagged(entries, other, locked), key) == PeriodEntries(entries, key)
  {
    var flagged := Flagged(entries, other, locked);
    forall id | id in entries ensures KeyOf(flagged[id]) == KeyOf(entries[id]) {
    }
    assert PeriodEntries(flagged, key).Keys == PeriodEntries(entries, key).Keys;
  }

  lemma {:induction false} NewEntryKeepsLocked(b: Books, periodOf: int -> Period, companyId: Id, d: Draft, key: LockKey)
    requires WellFormed(b, periodOf) && key in b.locks
    ensures var b' := CreateEntry(b, periodOf, companyId, d).0;
      b'.locks == b.locks && PeriodEntries(b'.entries, key) == PeriodEntries(b.entries, key)
  {
    var b' := CreateEntry(b, periodOf, companyId, d).0;
    if b' != b { OtherPeriodPut(b.entries, b.nextId, b'.entries[b.nextId], key); }
  }

  lemma {:induction false} ChangeEntryKeepsLocked(b: Books, periodOf: int -> Period, companyId: Id, id: nat,
          p: Patch, key: LockKey)
    requires key in b.locks
    ensures var b' := UpdateEntry(b, periodOf, companyId, id, p).0;
      b'.locks == b.locks && PeriodEntries(b'.entries, key) == PeriodEntries(b.entries, key)
  {
    var r := UpdateEntry(b, periodOf, companyId, id, p);
    if r.1.Done? { OtherPeriodPut(b.entries, id, Patched(b.entries[id], p, periodOf), key); }
  }

  lemma {:induction false} RemoveEntryKeepsLocked(b: Books, companyId: Id, id: nat, key: LockKey)
    requires key in b.locks
    ensures var b' := DeleteEntry(b, companyId, id).0;
      b'.locks == b.locks && PeriodEntries(b'.entries, key) == PeriodEntries(b.entries, key)
  {
    if DeleteEntry(b, companyId, id).1.Done? { OtherPeriodRemoved(b.entries, id, key); }
  }

  lemma {:induction false} EntryCallKeepsLocked(b: Books, periodOf: int -> Period, c: Call, key: LockKey)
    requires WellFormed(b, periodOf) && key in b.locks && OnEntry(c)
    ensures Step(b, periodOf, c).locks == b.locks
    ensures PeriodEntries(Step(b, periodOf, c).entries, key) == PeriodEntries(b.entries, key)
  {
    match c
    case NewEntry(companyId, d) => NewEntryKeepsLocked(b, periodOf, companyId, d, key);
    case ChangeEntry(companyId, id, p) => ChangeEntryKeepsLocked(b, periodOf, companyId, id, p, key);
    case RemoveEntry(companyId, id) => RemoveEntryKeepsLocked(b, companyId, id, key);
  }

  lemma {:induction false} LockCallKeepsLocked(b: Books, periodOf: int -> Period, c: Call, key: LockKey)
    requires key in b.locks && !OnPlan(c) && !OnEntry(c) && c != Unlock(key)
    ensures key in Step(b, periodOf, c).locks
    ensures PeriodEntries(Step(b, periodOf, c).entries, key) == PeriodEntries(b.entries, key)
  {
    match c
    case Lock(other) => FlagsAside(b.entries, other, true, key);
    case Unlock(other) => FlagsAside(b.entries, other, false, key);
    case LockFinancial(_) =>
  }

  lemma {:induction false} StepKeepsLocked(b: Books, periodOf: int -> Period, c: Call, key: LockKey)
    requires WellFormed(b, periodOf) && key in b.locks && c != Unlock(key)
    ensures key in Step(b, periodOf, c).locks
    ensures PeriodEntries(Step(b, periodOf, c).entries, key) == PeriodEntries(b.entries, key)
  {
    if OnPlan(c) { PlanCallKeeps(b, periodOf, c); }
    else if OnEntry(c) { EntryCallKeepsLocked(b, periodOf, c, key); }
    else { LockCallKeepsLocked(b, periodOf, c, key); }
  }

  /** Between a lock and the next unlock of a period, no call changes what its entries say. */
  lemma {:induction false} LockedPeriodIsFrozen(b: Books, periodOf: int -> Period, calls: seq<Call>, key: LockKey)
    requires WellFormed(b, periodOf) && key in b.locks && Unlock(key) !in calls
    ensures key in Run(b, periodOf, calls).locks
    ensures PeriodEntries(Run(b, periodOf, calls).entries, key) == PeriodEntries(b.entries, key)
    decreases |calls|
  {
    if calls != [] {
      var n := |calls| - 1;
      LockedPeriodIsFrozen(b, periodOf, calls[..n], key);
      RunKeepsWellFormed(b, periodOf, calls[..n]);
      StepKeepsLocked(Run(b, periodOf, calls[..n]), periodOf, calls[n], key);
    }
  }

  /** The flag says whether the period is locked. */
  ghost predicate FlagsMatch(b: Books) {
    forall id :: id in b.entries ==> (b.entries[id].locked <==> KeyOf(b.entries[id]) in b.locks)
  }

  lemma FlagsMatchAfterPut(b: Books, b': Books, id: nat, e: Entry)
    requires FlagsMatch(b) && b'.locks == b.locks && b'.entries == b.entries[id := e]
    requires !e.locked && KeyOf(e) !in b.locks
    ensures FlagsMatch(b')
  {
  }

  lemma {:induction false} FlagsMatchAfterLock(b: Books, b': Books, key: LockKey, locked: bool)
    requires FlagsMatch(b) && b'.entries == Flagged(b.entries, key, locked)
    requires b'.locks == if locked then b.locks + {key} else b.locks - {key}
    ensures FlagsMatch(b')
  {
    forall id | id in b'.entries ensures b'.entries[id].locked <==> KeyOf(b'.entries[id]) in b'.locks {
      assert KeyOf(b'.entries[id]) == KeyOf(b.entries[id]);
    }
  }

  lemma {:induction false} FinancialLockFlags(b: Books, key: LockKey)
    requires FlagsMatch(b) && key !in b.locks
    ensures FlagsMatch(LockFinancialPeriod(b, key).0) <==> PeriodEntries(b.entries, key) == map[]
  {
    var b' := LockFinancialPeriod(b, key).0;
    if PeriodEntries(b.entries, key) != map[] {
      var id :| id in PeriodEntries(b.entries, key);
      assert !b'.entries[id].locked && KeyOf(b'.entries[id]) in b'.locks;
    } else {
      forall id | id in b'.entries ensures b'.entries[id].locked <==> KeyOf(b'.entries[id]) in b'.locks {
        assert id !in PeriodEntries(b.entries, key);
      }
    }
  }

  lemma {:induction false} EntryCallKeepsFlags(b: Books, periodOf: int -> Period, c: Call)
    requires WellFormed(b, periodOf) && FlagsMatch(b) && OnEntry(c)
    ensures FlagsMatch(Step(b, periodOf, c))
  {
    hide CodesRefused, Trim, Trimmed, TrimStart, TrimEnd, Known;
    var b' := Step(b, periodOf, c);
    match c
    case NewEntry(_, _) => if b' != b { FlagsMatchAfterPut(b, b', b.nextId, b'.entries[b.nextId]); }
    case ChangeEntry(companyId, id, p) =>
      if UpdateEntry(b, periodOf, companyId, id, p).1.Done? {
        FlagsMatchAfterPut(b, b', id, Patched(b.entries[id], p, periodOf));
      }
    case RemoveEntry(_, _) =>
  }

  lemma {:induction false} LockCallFlags(b: Books, periodOf: int -> Period, c: Call)
    requires FlagsMatch(b) && !OnPlan(c) && !OnEntry(c)
    ensures FlagsMatch(Step(b, periodOf, c)) <==> !LeavesFlags(b, c)
  {
    match c
    case Lock(key) => if LockPeriod(b, key).1.Done? { FlagsMatchAfterLock(b, LockPeriod(b, key).0, key, true); }
    case Unlock(key) => if UnlockPeriod(b, key).1.Done? { FlagsMatchAfterLock(b, UnlockPeriod(b, key).0, key, false); }
    case LockFinancial(key) => if key !in b.locks { FinancialLockFlags(b, key); }
  }

  /** The second locker locks an open period that has entries. */
  predicate LeavesFlags(b: Books, c: Call) {
    c.LockFinancial? && c.key !in b.locks && PeriodEntries(b.entries, c.key) != map[]
  }

  /** Only the second locker can leave a flag behind, and it does so exactly on a period with entries. */
  lemma {:induction false} FlagsMatchIff(b: Books, periodOf: int -> Period, c: Call)
    requires WellFormed(b, periodOf) && FlagsMatch(b)
    ensures FlagsMatch(Step(b, periodOf, c)) <==> !LeavesFlags(b, c)
  {
    if OnPlan(c) { PlanCallKeeps(b, periodOf, c); }
    else if OnEntry(c) { EntryCallKeepsFlags(b, periodOf, c); }
    else { LockCallFlags(b, periodOf, c); }
  }

  // Flags over runs.

  /** Outside the given periods, the flag says whether the period is locked. */
  ghost predicate FlagsMatchOutside(b: Books, stale: set<LockKey>) {
    forall id :: id in b.entries && KeyOf(b.entries[id]) !in stale ==>
      (b.entries[id].locked <==> KeyOf(b.entries[id]) in b.locks)
  }

  /** The periods on which the second locker was called and that were not unlocked since. */
  function LockedAside(calls: seq<Call>): set<LockKey> {
    if calls == [] then {}
    else
      var stale := LockedAside(calls[..|calls| - 1]);
      match calls[|calls| - 1]
      case LockFinancial(key) => stale + {key}
      case Unlock(key) => stale - {key}
      case _ => stale
  }

  lemma OutsidePut(b: Books, b': Books, stale: set<LockKey>, id: nat, e: Entry)
    requires FlagsMatchOutside(b, stale) && b'.locks == b.locks && b'.entries == b.entries[id := e]
    requires !e.locked && KeyOf(e) !in b.locks
    ensures FlagsMatchOutside(b', stale)
  {
  }

  lemma {:induction false} OutsideFlagged(b: Books, b': Books, stale: set<LockKey>, key: LockKey, locked: bool)
    requires FlagsMatchOutside(b, stale) && b'.entries == Flagged(b.entries, key, locked)
    requires b'.locks == if locked then b.locks + {key} else b.locks - {key}
    ensures FlagsMatchOutside(b', stale - {key})
  {
    forall id | id in b'.entries && KeyOf(b'.entries[id]) !in stale - {key}
      ensures b'.entries[id].locked <==> KeyOf(b'.entries[id]) in b'.locks
    {
      assert KeyOf(b'.entries[id]) == KeyOf(b.entries[id]);
    }
  }

  lemma {:induction false} EntryCallOutside(b: Books, periodOf: int -> Period, c: Call, stale: set<LockKey>)
    requires WellFormed(b, periodOf) && FlagsMatchOutside(b, stale) && OnEntry(c)
    ensures FlagsMatchOutside(Step(b, periodOf, c), stale)
  {
    match c
    case NewEntry(companyId, d) =>
      var b' := CreateEntry(b, periodOf, companyId, d).0;
      assert Step(b, periodOf, c) == b';
      if b' != b { OutsidePut(b, b', stale, b.nextId, b'.entries[b.nextId]); }
    case ChangeEntry(companyId, id, p) =>
      var r := UpdateEntry(b, periodOf, companyId, id, p);
      assert Step(b, periodOf, c) == r.0;
      if r.1.Done? {
        assert GoodEntry(b, periodOf, b.entries[id]);
        OutsidePut(b, r.0, stale, id, Patched(b.entries[id], p, periodOf));
      }
    case RemoveEntry(companyId, id) => assert Step(b, periodOf, c) == DeleteEntry(b, companyId, id).0;
  }

  /** An unlock of a period that is not locked finds no flag set there. */
  lemma {:induction false} LockCallOutside(b: Books, periodOf: int -> Period, c: Call, stale: set<LockKey>)
    requires WellFormed(b, periodOf) && FlagsMatchOutside(b, stale) && !OnPlan(c) && !OnEntry(c)
    ensures FlagsMatchOutside(Step(b, periodOf, c),
      if c.LockFinancial? then stale + {c.key} else if c.Unlock? then stale - {c.key} else stale)
  {
    match c
    case Lock(key) =>
      assert Step(b, periodOf, c) == LockPeriod(b, key).0;
      if LockPeriod(b, key).1.Done? { OutsideFlagged(b, LockPeriod(b, key).0, stale, key, true); }
    case Unlock(key) =>
      assert Step(b, periodOf, c) == UnlockPeriod(b, key).0;
      if UnlockPeriod(b, key).1.Done? { OutsideFlagged(b, UnlockPeriod(b, key).0, stale, key, false); }
      else { FlagsGood(b, periodOf); }
    case LockFinancial(key) => assert Step(b, periodOf, c) == LockFinancialPeriod(b, key).0;
  }

  /**
   * Over every run a flag can be wrong only in a period that the second locker was called
   * on and that was not unlocked since; an unlock puts its period right again.
   */
  lemma {:induction false} RunFlags(b: Books, periodOf: int -> Period, calls: seq<Call>)
    requires WellFormed(b, periodOf) && FlagsMatch(b)
    ensures FlagsMatchOutside(Run(b, periodOf, calls), LockedAside(calls))
    decreases |calls|
  {
    if calls != [] {
      var n := |calls| - 1;
      var b1, c, stale := Run(b, periodOf, calls[..n]), calls[n], LockedAside(calls[..n]);
      RunFlags(b, periodOf, calls[..n]);
      RunKeepsWellFormed(b, periodOf, calls[..n]);
      hide WellFormed, FlagsMatch, FlagsMatchOutside;
      if OnPlan(c) { PlanCallOutside(b1, periodOf, c, stale); }
      else if OnEntry(c) { EntryCallOutside(b1, periodOf, c, stale); }
      else { LockCallOutside(b1, periodOf, c, stale); }
    }
  }

  lemma {:induction false} PlanCallOutside(b: Books, periodOf: int -> Period, c: Call, stale: set<LockKey>)
    requires WellFormed(b, periodOf) && FlagsMatchOutside(b, stale) && OnPlan(c)
    ensures FlagsMatchOutside(Step(b, periodOf, c), stale)
  {
    PlanCallKeeps(b, periodOf, c);
    hide WellFormed, Step;
  }

  /** Without the second locker the flags say which periods are locked, on every run. */
  lemma {:induction false} RunKeepsFlags(b: Books, periodOf: int -> Period, calls: seq<Call>)
    requires WellFormed(b, periodOf) && FlagsMatch(b) && forall c :: c in calls ==> !c.LockFinancial?
    ensures FlagsMatch(Run(b, periodOf, calls))
  {
    RunFlags(b, periodOf, calls);
    NoneAside(calls);
  }

  lemma {:induction false} NoneAside(calls: seq<Call>)
    requires forall c :: c in calls ==> !c.LockFinancial?
    ensures LockedAside(calls) == {}
  {
    if calls != [] { NoneAside(calls[..|calls| - 1]); }
  }

  /** The second locker does leave a wrong flag: one entry, in a period it locks. */
  lemma {:induction false} WrongFlagIsReached(companyId: Id, periodOf: int -> Period, e: Entry)
    requires e.companyId == companyId && e.period == periodOf(e.date) && !e.locked && e.debitCode != e.creditCode
    ensures var plan := map[0 := Account(None, e.debitCode, "", ATIVO, None, true),
      1 := Account(None, e.creditCode, "", ATIVO, None, true)];
      var b := Books({companyId}, plan, map[2 := e], {}, 3);
      WellFormed(b, periodOf) && FlagsMatch(b) && !FlagsMatch(Step(b, periodOf, LockFinancial(KeyOf(e))))
  {
    var plan := map[0 := Account(None, e.debitCode, "", ATIVO, None, true),
      1 := Account(None, e.creditCode, "", ATIVO, None, true)];
    var b := Books({companyId}, plan, map[2 := e], {}, 3);
    assert Known(plan, companyId, e.debitCode) by { assert 0 in plan && plan[0].code == e.debitCode; }
    assert Known(plan, companyId, e.creditCode) by { assert 1 in plan && plan[1].code == e.creditCode; }
    assert GoodEntry(b, periodOf, b.entries[2]);
    assert !b.entries[2].locked;
  }
}
