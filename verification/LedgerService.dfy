/**
 * The calls of the accounting service that write, and the second period locker
 * (src/modules/accounting/accounting-enterprise.service.ts,
 * src/modules/finance/finance.service.ts), over tables updated in place.
 */
module LedgerServices {
  import opened Entities
  import opened Text
  import opened Wrappers
  import opened Ledger

  datatype SeedResult = SeedResult(code: string, created: bool)

  const DEFAULTS: seq<AccountSeed> := [
    AccountSeed("1.1.01", "Caixa e equivalentes", ATIVO),
    AccountSeed("1.1.02", "Bancos conta movimento", ATIVO),
    AccountSeed("1.1.03", "Clientes a receber", ATIVO),
    AccountSeed("2.1.01", "Fornecedores", PASSIVO),
    AccountSeed("2.1.02", "Obrigações tributárias", PASSIVO),
    AccountSeed("3.1.01", "Capital social", PATRIMONIO_LIQUIDO),
    AccountSeed("4.1.01", "Receita de serviços", RECEITA),
    AccountSeed("5.1.01", "Despesas administrativas", DESPESA),
    AccountSeed("5.1.02", "Despesas tributárias", DESPESA),
    AccountSeed("6.1.01", "Custos operacionais", CUSTO)]

  /** An account is created exactly for the codes the company lacked, each once. */
  predicate Seeded(results: seq<SeedResult>, plan: map<nat, Account>, companyId: Id, items: seq<AccountSeed>) {
    && |results| == |items|
    && forall k :: 0 <= k < |items| ==>
         && results[k].code == items[k].code
         && (results[k].created <==> !OwnsCode(plan, companyId, items[k].code) && !SeedsCode(items[..k], items[k].code))
  }

  /** From well-formed books: they stay so, and every period locked before and after says what it said. */
  ghost predicate Safe(b: Books, b': Books, periodOf: int -> Period) {
    WellFormed(b, periodOf) ==>
      && WellFormed(b', periodOf)
      && forall key :: key in b.locks && key in b'.locks ==>
           PeriodEntries(b'.entries, key) == PeriodEntries(b.entries, key)
  }

  lemma {:induction false} CallIsSafe(b: Books, periodOf: int -> Period, c: Call)
    ensures Safe(b, Step(b, periodOf, c), periodOf)
    ensures WellFormed(b, periodOf) && !c.Unlock? ==> b.locks <= Step(b, periodOf, c).locks
  {
    hide Step, WellFormed, PeriodEntries;
    if WellFormed(b, periodOf) {
      StepKeepsWellFormed(b, periodOf, c);
      forall key | key in b.locks && c != Unlock(key)
        ensures key in Step(b, periodOf, c).locks
            && PeriodEntries(Step(b, periodOf, c).entries, key) == PeriodEntries(b.entries, key)
      {
        StepKeepsLocked(b, periodOf, c, key);
      }
      if c.Unlock? { UnlockOpens(b, periodOf, c.key); }
    }
  }

  lemma UnlockOpens(b: Books, periodOf: int -> Period, key: LockKey)
    ensures key !in Step(b, periodOf, Unlock(key)).locks
  {
  }

  class LedgerService {
    const periodOf: int -> Period
    var companies: set<Id>
    var plan: map<nat, Account>
    var entries: map<nat, Entry>
    var locks: set<LockKey>
    var nextId: nat

    constructor (periodOf: int -> Period, companies: set<Id>)
      ensures this.periodOf == periodOf && State() == Books(companies, map[], map[], {}, 0)
      ensures WellFormed(State(), periodOf)
    {
      this.periodOf, this.companies, plan, entries, locks, nextId := periodOf, companies, map[], map[], {}, 0;
    }

    ghost function State(): Books
      reads this
    {
      Books(companies, plan, entries, locks, nextId)
    }

    method PeriodUnlocked(companyId: Id, period: Period) returns (open: bool)
      ensures open <==> LockKey(companyId, period) !in locks
    {
      open := LockKey(companyId, period) !in locks;
    }

    method CodesAccepted(companyId: Id, debitCode: string, creditCode: string) returns (ok: bool)
      ensures ok <==> !CodesRefused(State(), companyId, debitCode, creditCode)
    {
      if debitCode == creditCode { return false; }
      ok := AccountExists(plan, companyId, debitCode);
      if ok { ok := AccountExists(plan, companyId, creditCode); }
    }

    method CreateEntry(companyId: Id, dto: Draft) returns (outcome: Outcome)
      modifies this
      ensures (State(), outcome) == Ledger.CreateEntry(old(State()), periodOf, companyId, dto)
      ensures Safe(old(State()), State(), periodOf)
    {
      CallIsSafe(State(), periodOf, NewEntry(companyId, dto));
      hide WellFormed, PeriodEntries, Safe;
      if companyId !in companies { return NotFound; }
      if !dto.date.At? { return BadRequest; }
      var date := dto.date.ms;
      var period := periodOf(date);
      var open := PeriodUnlocked(companyId, period);
      if !open { return Conflict; }
      var debitCode, creditCode := Trim(dto.debitCode), Trim(dto.creditCode);
      var ok := CodesAccepted(companyId, debitCode, creditCode);
      if !ok { return BadRequest; }
      entries := entries[nextId :=
        Entry(companyId, date, Trim(dto.description), debitCode, creditCode, dto.amount, dto.origin.UnwrapOr(MANUAL),
              Trimmed(dto.referenceId), Trimmed(dto.referenceType), period, false)];
      nextId := nextId + 1;
      outcome := Done;
    }

    method UpdateEntry(companyId: Id, entryId: nat, dto: Patch) returns (outcome: Outcome)
      modifies this
      ensures (State(), outcome) == Ledger.UpdateEntry(old(State()), periodOf, companyId, entryId, dto)
      ensures Safe(old(State()), State(), periodOf)
    {
      CallIsSafe(State(), periodOf, ChangeEntry(companyId, entryId, dto));
      hide WellFormed, PeriodEntries, Safe;
      if entryId !in entries || entries[entryId].companyId != companyId { return NotFound; }
      var current := entries[entryId];
      var open := PeriodUnlocked(companyId, current.period);
      if !open { return Conflict; }
      if dto.date.Invalid? { return BadRequest; }
      var nextDate := if dto.date.At? then dto.date.ms else current.date;
      var nextPeriod := periodOf(nextDate);
      open := PeriodUnlocked(companyId, nextPeriod);
      if !open { return Conflict; }
      var debitCode := Trimmed(dto.debitCode).UnwrapOr(current.debitCode);
      var creditCode := Trimmed(dto.creditCode).UnwrapOr(current.creditCode);
      var ok := CodesAccepted(companyId, debitCode, creditCode);
      if !ok { return BadRequest; }
      var data := current.(date := nextDate, debitCode := debitCode, creditCode := creditCode, period := nextPeriod);
      if dto.description.Some? { data := data.(description := Trim(dto.description.value)); }
      if dto.amount.Some? { data := data.(amount := dto.amount.value); }
      if dto.origin.Some? { data := data.(origin := dto.origin.value); }
      if dto.referenceId.Some? { data := data.(referenceId := Trimmed(dto.referenceId.value)); }
      if dto.referenceType.Some? { data := data.(referenceType := Trimmed(dto.referenceType.value)); }
      entries := entries[entryId := data];
      outcome := Done;
    }

    method DeleteEntry(companyId: Id, entryId: nat) returns (outcome: Outcome)
      modifies this
      ensures (State(), outcome) == Ledger.DeleteEntry(old(State()), companyId, entryId)
      ensures Safe(old(State()), State(), periodOf)
    {
      CallIsSafe(State(), periodOf, RemoveEntry(companyId, entryId));
      hide WellFormed, PeriodEntries, Safe;
      if entryId !in entries || entries[entryId].companyId != companyId { return NotFound; }
      var open := PeriodUnlocked(companyId, entries[entryId].period);
      if !open { return Conflict; }
      entries := entries - {entryId};
      outcome := Done;
    }

    method FlagPeriod(key: LockKey, locked: bool)
      modifies this`entries
      ensures entries == Flagged(old(entries), key, locked)
    {
      entries := map id | id in entries ::
        if KeyOf(entries[id]) == key then entries[id].(locked := locked) else entries[id];
    }

    method LockPeriod(key: LockKey) returns (outcome: Outcome)
      modifies this
      ensures (State(), outcome) == Ledger.LockPeriod(old(State()), key)
      ensures Safe(old(State()), State(), periodOf)
    {
      CallIsSafe(State(), periodOf, Lock(key));
      hide WellFormed, PeriodEntries, Safe;
      if key.companyId !in companies { return NotFound; }
      if key in locks { return Conflict; }
      locks := locks + {key};
      FlagPeriod(key, true);
      outcome := Done;
    }

    method UnlockPeriod(key: LockKey) returns (outcome: Outcome)
      modifies this
      ensures (State(), outcome) == Ledger.UnlockPeriod(old(State()), key)
      ensures Safe(old(State()), State(), periodOf)
    {
      CallIsSafe(State(), periodOf, Unlock(key));
      hide WellFormed, PeriodEntries, Safe;
      if key !in locks { return NotFound; }
      locks := locks - {key};
      FlagPeriod(key, false);
      outcome := Done;
    }

    method LockFinancialPeriod(key: LockKey) returns (outcome: Outcome)
      modifies this
      ensures (State(), outcome) == Ledger.LockFinancialPeriod(old(State()), key)
      ensures Safe(old(State()), State(), periodOf)
    {
      CallIsSafe(State(), periodOf, LockFinancial(key));
      hide WellFormed, PeriodEntries, Safe;
      if key in locks { return Conflict; }
      locks := locks + {key};
      outcome := Done;
    }

    method CreateAccountPlan(companyId: Id, dto: AccountDraft) returns (outcome: Outcome)
      modifies this
      ensures (State(), outcome) == CreateAccount(old(State()), companyId, dto)
      ensures Safe(old(State()), State(), periodOf)
    {
      CallIsSafe(State(), periodOf, NewAccount(companyId, dto));
      hide WellFormed, PeriodEntries, Safe;
      if companyId !in companies { return NotFound; }
      var code := Trim(dto.code);
      if OwnsCode(plan, companyId, code) { return Conflict; }
      if ParentMissing(plan, companyId, dto.parentCode) { return BadRequest; }
      plan := plan[nextId :=
        Account(Some(companyId), code, Trim(dto.name), dto.kind, Trimmed(dto.parentCode), dto.active.UnwrapOr(true))];
      nextId := nextId + 1;
      outcome := Done;
    }

    method UpdateAccountPlan(companyId: Id, accountId: nat, dto: AccountPatch) returns (outcome: Outcome)
      modifies this
      ensures (State(), outcome) == UpdateAccount(old(State()), companyId, accountId, dto)
      ensures Safe(old(State()), State(), periodOf)
    {
      CallIsSafe(State(), periodOf, ChangeAccount(companyId, accountId, dto));
      hide WellFormed, PeriodEntries, Safe;
      if accountId !in plan || plan[accountId].companyId != Some(companyId) { return NotFound; }
      if ParentMissing(plan, companyId, dto.parentCode.UnwrapOr(None)) { return BadRequest; }
      var account := plan[accountId];
      if dto.name.Some? { account := account.(name := Trim(dto.name.value)); }
      if dto.kind.Some? { account := account.(kind := dto.kind.value); }
      if dto.parentCode.Some? { account := account.(parentCode := Trimmed(dto.parentCode.value)); }
      if dto.active.Some? { account := account.(active := dto.active.value); }
      plan := plan[accountId := account];
      outcome := Done;
    }

    /** A default account is created exactly when the company lacked its code. */
    method SeedAccountPlan(companyId: Id, defaults: seq<AccountSeed>)
      returns (outcome: Outcome, results: seq<SeedResult>)
      requires GoodPlan(State())
      modifies this
      ensures (State(), outcome) == Seed(old(State()), companyId, defaults)
      ensures outcome.Done? ==> Seeded(results, old(plan), companyId, defaults)
    {
      results := [];
      if companyId !in companies { return NotFound, results; }
      ghost var b := State();
      for k := 0 to |defaults|
        invariant State() == SeedCodes(b, companyId, defaults[..k])
        invariant Seeded(results, b.plan, companyId, defaults[..k])
      {
        var item := defaults[k];
        SeedOwns(b, companyId, defaults[..k], item.code);
        assert defaults[..k + 1] == defaults[..k] + [item];
        var present := SeedMissing(companyId, item);
        SeededStep(results, b.plan, companyId, defaults, k, present);
        results := results + [SeedResult(item.code, !present)];
      }
      assert defaults[..|defaults|] == defaults;
      outcome := Done;
    }

    method SeedMissing(companyId: Id, item: AccountSeed) returns (present: bool)
      modifies this`plan, this`nextId
      ensures present <==> OwnsCode(old(plan), companyId, item.code)
      ensures State() == SeedCode(old(State()), companyId, item)
    {
      present := OwnsCode(plan, companyId, item.code);
      if !present {
        plan := plan[nextId := Account(Some(companyId), item.code, item.name, item.kind, None, true)];
        nextId := nextId + 1;
      }
    }

    method SeedDefaultAccountPlan(companyId: Id) returns (outcome: Outcome, results: seq<SeedResult>)
      requires GoodPlan(State())
      modifies this
      ensures (State(), outcome) == Seed(old(State()), companyId, DEFAULTS)
      ensures outcome.Done? ==> Seeded(results, old(plan), companyId, DEFAULTS)
      ensures Safe(old(State()), State(), periodOf)
    {
      CallIsSafe(State(), periodOf, SeedAccounts(companyId, DEFAULTS));
      hide WellFormed, PeriodEntries, Safe;
      outcome, results := SeedAccountPlan(companyId, DEFAULTS);
    }
  }

  lemma {:induction false} SeededStep(results: seq<SeedResult>, plan: map<nat, Account>, companyId: Id,
          items: seq<AccountSeed>, k: nat, present: bool)
    requires k < |items| && Seeded(results, plan, companyId, items[..k])
    requires present <==> OwnsCode(plan, companyId, items[k].code) || SeedsCode(items[..k], items[k].code)
    ensures Seeded(results + [SeedResult(items[k].code, !present)], plan, companyId, items[..k + 1])
  {
    hide OwnsCode, SeedsCode;
    forall j | 0 <= j < k ensures items[..k + 1][..j] == items[..k][..j] {
    }
    assert items[..k + 1][..k] == items[..k];
  }
}
