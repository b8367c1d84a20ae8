/**
 * The calls on accounting entries taken apart into their statements, any number of them at once
 * (src/modules/accounting/accounting-enterprise.service.ts,
 * src/modules/finance/finance.service.ts). A period is checked in one statement and the entry is
 * written in a later one, outside any database transaction. The account plan belongs to the
 * environment: its check of an entry's codes may pass or refuse. Flags may be set at any time.
 */
module LedgerRaces {
  import opened Entities
  import opened Ledger
  import opened Text
  import opened Wrappers

  type CallId = nat

  datatype Change = Edit(patch: Patch) | Removal

  /** Where a call stands, between two of its statements. */
  datatype Stage =
    | Creating(entry: Entry, accepted: bool)
    | Found(id: nat, read: Entry, change: Change)
    | Passed(id: nat, read: Entry, patch: Patch)
    | Moving(id: nat, read: Entry, patch: Patch, accepted: bool)
    | Removing(id: nat)
    | Ended

  datatype State = State(
    periodOf: int -> Period, entries: map<nat, Entry>, locks: set<LockKey>, nextId: nat, calls: map<CallId, Stage>)

  datatype Statement =
    | CheckNew(c: CallId, companyId: Id, draft: Draft)
    | ReadEntry(c: CallId, companyId: Id, id: nat, change: Change)
    | CheckPeriod(c: CallId)
    | CheckNextPeriod(c: CallId)
    | CheckCodes(c: CallId, accepted: bool)
    | Write(c: CallId)
    | InsertLock(key: LockKey)
    | DeleteLock(key: LockKey)
    | SetFlags(key: LockKey, locked: bool)

  /** The period an update moves the entry to, by what it read. */
  function NextKey(read: Entry, p: Patch, periodOf: int -> Period): LockKey {
    KeyOf(Patched(read, p, periodOf))
  }

  predicate SameCodes(read: Entry, p: Patch, periodOf: int -> Period) {
    Patched(read, p, periodOf).debitCode == Patched(read, p, periodOf).creditCode
  }

  /** The row after an update: date, period and codes follow the row it read, the rest the row it finds. */
  function Overwritten(e: Entry, read: Entry, p: Patch, periodOf: int -> Period): Entry {
    var e' := Patched(read, p, periodOf);
    Patched(e, p, periodOf).(
      date := e'.date, period := e'.period, debitCode := e'.debitCode, creditCode := e'.creditCode)
  }

  function AfterNew(s: State, companyId: Id, d: Draft): Stage {
    if !d.date.At? || LockKey(companyId, s.periodOf(d.date.ms)) in s.locks || Trim(d.debitCode) == Trim(d.creditCode)
    then Ended else Creating(Drafted(companyId, d, s.periodOf), false)
  }

  function AfterRead(s: State, companyId: Id, id: nat, change: Change): Stage {
    if id !in s.entries || s.entries[id].companyId != companyId then Ended else Found(id, s.entries[id], change)
  }

  function AfterPeriod(s: State, stage: Stage): Stage {
    match stage
    case Found(id, read, change) =>
      if KeyOf(read) in s.locks then Ended
      else if change.Removal? then Removing(id)
      else if change.patch.date.Invalid? then Ended
      else Passed(id, read, change.patch)
    case _ => stage
  }

  function AfterNextPeriod(s: State, stage: Stage): Stage {
    match stage
    case Passed(id, read, p) =>
      if NextKey(read, p, s.periodOf) in s.locks || SameCodes(read, p, s.periodOf) then Ended
      else Moving(id, read, p, false)
    case _ => stage
  }

  function AfterCodes(stage: Stage, accepted: bool): Stage {
    match stage
    case Creating(entry, _) => if accepted then Creating(entry, true) else Ended
    case Moving(id, read, p, _) => if accepted then Moving(id, read, p, true) else Ended
    case _ => stage
  }

  /** A write of a row that is gone fails. */
  function Written(s: State, stage: Stage): State {
    match stage
    case Creating(entry, true) => s.(entries := s.entries[s.nextId := entry], nextId := s.nextId + 1)
    case Moving(id, read, p, true) =>
      if id in s.entries then s.(entries := s.entries[id := Overwritten(s.entries[id], read, p, s.periodOf)]) else s
    case Removing(id) => s.(entries := s.entries - {id})
    case _ => s
  }

  predicate Writes(stage: Stage) {
    match stage
    case Creating(_, accepted) => accepted
    case Moving(_, _, _, accepted) => accepted
    case Removing(_) => true
    case _ => false
  }

  function At(s: State, c: CallId, stage: Stage): State {
    s.(calls := s.calls[c := stage])
  }

  /** A statement of a call that is not there, or not at that stage, does nothing. */
  function After(s: State, st: Statement): State {
    match st
    case CheckNew(c, companyId, d) => if c in s.calls then s else At(s, c, AfterNew(s, companyId, d))
    case ReadEntry(c, companyId, id, change) =>
      if c in s.calls then s else At(s, c, AfterRead(s, companyId, id, change))
    case CheckPeriod(c) => if c in s.calls then At(s, c, AfterPeriod(s, s.calls[c])) else s
    case CheckNextPeriod(c) => if c in s.calls then At(s, c, AfterNextPeriod(s, s.calls[c])) else s
    case CheckCodes(c, accepted) => if c in s.calls then At(s, c, AfterCodes(s.calls[c], accepted)) else s
    case Write(c) => if c in s.calls && Writes(s.calls[c]) then At(Written(s, s.calls[c]), c, Ended) else s
    case InsertLock(key) => s.(locks := s.locks + {key})
    case DeleteLock(key) => s.(locks := s.locks - {key})
    case SetFlags(key, locked) => s.(entries := Flagged(s.entries, key, locked))
  }

  function Run(s: State, sts: seq<Statement>): State
    decreases |sts|
  {
    if sts == [] then s else Run(After(s, sts[0]), sts[1..])
  }

  // What every run keeps.

  ghost predicate GoodStage(s: State, stage: Stage) {
    match stage
    case Creating(e, _) => e.period == s.periodOf(e.date) && e.debitCode != e.creditCode
    case Found(id, read, _) => Refers(s, id, read)
    case Passed(id, read, p) => Refers(s, id, read) && !p.date.Invalid?
    case Moving(id, read, p, _) => Refers(s, id, read) && !SameCodes(read, p, s.periodOf)
    case Removing(id) => id < s.nextId
    case Ended => true
  }

  /** The entry read is an entry of the same company still, if it is there. */
  ghost predicate Refers(s: State, id: nat, read: Entry) {
    id < s.nextId && (id in s.entries ==> s.entries[id].companyId == read.companyId)
  }

  ghost predicate Sound(s: State) {
    && (forall id :: id in s.entries ==> id < s.nextId)
    && (forall id :: id in s.entries ==> s.entries[id].period == s.periodOf(s.entries[id].date))
    && (forall id :: id in s.entries ==> s.entries[id].debitCode != s.entries[id].creditCode)
    && (forall c :: c in s.calls ==> GoodStage(s, s.calls[c]))
  }

  lemma AtKeepsSound(s: State, c: CallId, stage: Stage)
    requires Sound(s) && GoodStage(s, stage)
    ensures Sound(At(s, c, stage))
  {
    var s' := At(s, c, stage);
    forall d | d in s'.calls ensures GoodStage(s', s'.calls[d]) {
      assert GoodStage(s, s'.calls[d]);
    }
  }

  lemma WrittenKeepsSound(s: State, c: CallId)
    requires Sound(s) && c in s.calls
    ensures Sound(Written(s, s.calls[c]))
  {
    var s' := Written(s, s.calls[c]);
    assert GoodStage(s, s.calls[c]);
    forall d | d in s'.calls ensures GoodStage(s', s'.calls[d]) {
      assert GoodStage(s, s.calls[d]);
    }
  }

  lemma StepKeepsSound(s: State, st: Statement)
    requires Sound(s)
    ensures Sound(After(s, st)) && After(s, st).periodOf == s.periodOf
  {
    match st
    case CheckNew(c, companyId, d) => if c !in s.calls { AtKeepsSound(s, c, AfterNew(s, companyId, d)); }
    case ReadEntry(c, companyId, id, change) =>
      if c !in s.calls { AtKeepsSound(s, c, AfterRead(s, companyId, id, change)); }
    case CheckPeriod(c) => if c in s.calls { AtKeepsSound(s, c, AfterPeriod(s, s.calls[c])); }
    case CheckNextPeriod(c) => if c in s.calls { AtKeepsSound(s, c, AfterNextPeriod(s, s.calls[c])); }
    case CheckCodes(c, accepted) => if c in s.calls { AtKeepsSound(s, c, AfterCodes(s.calls[c], accepted)); }
    case Write(c) =>
      if c in s.calls && Writes(s.calls[c]) {
        WrittenKeepsSound(s, c);
        AtKeepsSound(Written(s, s.calls[c]), c, Ended);
      }
    case InsertLock(_) => LocksKeepSound(s, After(s, st));
    case DeleteLock(_) => LocksKeepSound(s, After(s, st));
    case SetFlags(_, _) => LocksKeepSound(s, After(s, st));
  }

  /** What the locks and the flags say has no part in it. */
  lemma LocksKeepSound(s: State, s': State)
    requires Sound(s) && s'.(entries := s.entries, locks := s.locks) == s && s'.entries.Keys == s.entries.Keys
    requires forall id :: id in s.entries ==> s'.entries[id] == s.entries[id].(locked := s'.entries[id].locked)
    ensures Sound(s')
  {
    forall d | d in s'.calls ensures GoodStage(s', s'.calls[d]) {
      assert GoodStage(s, s.calls[d]);
    }
  }

  /** However the statements of the calls interleave, each entry has the period of its date and two different codes. */
  lemma {:induction false} RunKeepsSound(s: State, sts: seq<Statement>)
    requires Sound(s)
    ensures Sound(Run(s, sts))
    decreases |sts|
  {
    if sts != [] {
      StepKeepsSound(s, sts[0]);
      RunKeepsSound(After(s, sts[0]), sts[1..]);
    }
  }

  /** The call has had its codes accepted. */
  predicate Accepted(s: State, c: CallId) {
    c in s.calls && match s.calls[c]
                    case Creating(_, accepted) => accepted
                    case Moving(_, _, _, accepted) => accepted
                    case _ => false
  }

  /** No entry is written or moved before the check of its codes, which comes after the checks of its periods. */
  lemma {:induction false} NoWriteUnchecked(s: State, sts: seq<Statement>, c: CallId)
    requires !Accepted(s, c) && CheckCodes(c, true) !in sts
    ensures !Accepted(Run(s, sts), c)
    decreases |sts|
  {
    if sts != [] {
      assert !Accepted(After(s, sts[0]), c);
      NoWriteUnchecked(After(s, sts[0]), sts[1..], c);
    }
  }

  // Locked periods.

  predicate InPeriod(s: State, id: nat, key: LockKey) {
    id in s.entries && KeyOf(s.entries[id]) == key
  }

  /** The write of an update would change what an entry of the period says, or bring one into it. */
  predicate Alters(s: State, id: nat, read: Entry, p: Patch, key: LockKey) {
    && id in s.entries
    && var e, e' := s.entries[id], Overwritten(s.entries[id], read, p, s.periodOf);
       (KeyOf(e) == key || KeyOf(e') == key) && e' != e
  }

  /**
   * A call in progress that can still change what a locked period says: it writes an entry of the
   * period, or one into the period, and the checks it has left do not look at the period.
   */
  predicate Threatens(s: State, stage: Stage, key: LockKey) {
    match stage
    case Creating(e, _) => KeyOf(e) == key
    case Found(id, read, Removal) => InPeriod(s, id, key) && KeyOf(read) != key
    case Found(id, read, Edit(p)) =>
      InPeriod(s, id, key) && KeyOf(read) != key && !p.date.Invalid? && Leaves(s, read, p, key)
    case Passed(id, read, p) => InPeriod(s, id, key) && Leaves(s, read, p, key)
    case Moving(id, read, p, _) => Alters(s, id, read, p, key)
    case Removing(id) => InPeriod(s, id, key)
    case Ended => false
  }

  predicate Leaves(s: State, read: Entry, p: Patch, key: LockKey) {
    NextKey(read, p, s.periodOf) != key && !SameCodes(read, p, s.periodOf)
  }

  ghost predicate Quiet(s: State, key: LockKey) {
    forall c :: c in s.calls ==> !Threatens(s, s.calls[c], key)
  }

  /** The entries of the period stay as they are on every run that does not unlock it. */
  ghost predicate StaysFrozen(s: State, key: LockKey) {
    forall sts :: DeleteLock(key) !in sts ==>
      PeriodEntries(Run(s, sts).entries, key) == PeriodEntries(s.entries, key)
  }

  ghost predicate Same(s: State, s': State, key: LockKey) {
    PeriodEntries(s'.entries, key) == PeriodEntries(s.entries, key)
  }

  lemma NewThreat(s: State, e: Entry, stage: Stage, key: LockKey)
    requires Sound(s) && GoodStage(s, stage) && !Threatens(s, stage, key) && KeyOf(e) != key
    ensures !Threatens(s.(entries := s.entries[s.nextId := e], nextId := s.nextId + 1), stage, key)
  {
  }

  lemma PutThreat(s: State, id: nat, e: Entry, stage: Stage, key: LockKey)
    requires Sound(s) && GoodStage(s, stage) && !Threatens(s, stage, key)
    requires id in s.entries && KeyOf(s.entries[id]) != key && KeyOf(e) != key && e.companyId == s.entries[id].companyId
    ensures !Threatens(s.(entries := s.entries[id := e]), stage, key)
  {
  }

  lemma RemovedThreat(s: State, id: nat, stage: Stage, key: LockKey)
    requires !Threatens(s, stage, key)
    ensures !Threatens(s.(entries := s.entries - {id}), stage, key)
  {
  }

  lemma WrittenKeepsQuiet(s: State, c: CallId, key: LockKey)
    requires Sound(s) && Quiet(s, key) && c in s.calls && Writes(s.calls[c])
    ensures Quiet(Written(s, s.calls[c]), key) && Same(s, Written(s, s.calls[c]), key)
  {
    var s' := Written(s, s.calls[c]);
    assert !Threatens(s, s.calls[c], key) && GoodStage(s, s.calls[c]);
    match s.calls[c] {
      case Creating(e, _) =>
        OtherPeriodPut(s.entries, s.nextId, e, key);
        hide PeriodEntries;
        forall d | d in s'.calls ensures !Threatens(s', s'.calls[d], key) { NewThreat(s, e, s.calls[d], key); }
      case Moving(id, read, p, _) =>
        if id in s.entries {
          var e, e' := s.entries[id], Overwritten(s.entries[id], read, p, s.periodOf);
          if e' == e {
            assert s' == s;
          } else {
            OtherPeriodPut(s.entries, id, e', key);
            hide PeriodEntries;
            forall d | d in s'.calls ensures !Threatens(s', s'.calls[d], key) {
              PutThreat(s, id, e', s.calls[d], key);
            }
          }
        }
      case Removing(id) =>
        OtherPeriodRemoved(s.entries, id, key);
        hide PeriodEntries;
        forall d | d in s'.calls ensures !Threatens(s', s'.calls[d], key) { RemovedThreat(s, id, s.calls[d], key); }
    }
  }

  lemma AtKeepsQuiet(s: State, c: CallId, stage: Stage, key: LockKey)
    requires Quiet(s, key) && !Threatens(s, stage, key)
    ensures Quiet(At(s, c, stage), key) && Same(s, At(s, c, stage), key)
  {
    var s' := At(s, c, stage);
    forall d | d in s'.calls ensures !Threatens(s', s'.calls[d], key) {
      assert !Threatens(s, s'.calls[d], key);
    }
  }

  lemma FlaggedThreat(s: State, other: LockKey, locked: bool, stage: Stage, key: LockKey)
    requires !Threatens(s, stage, key)
    ensures !Threatens(s.(entries := Flagged(s.entries, other, locked)), stage, key)
  {
    hide SameCodes;
  }

  lemma FlagsKeepQuiet(s: State, key: LockKey, other: LockKey, locked: bool)
    requires Quiet(s, key)
    ensures Quiet(After(s, SetFlags(other, locked)), key) && Same(s, After(s, SetFlags(other, locked)), key)
  {
    hide Threatens, Flagged, PeriodEntries;
    FlagsAside(s.entries, other, locked, key);
    var s' := After(s, SetFlags(other, locked));
    forall d | d in s'.calls ensures !Threatens(s', s'.calls[d], key) {
      FlaggedThreat(s, other, locked, s.calls[d], key);
    }
  }

  lemma LocksKeepQuiet(s: State, locks: set<LockKey>, key: LockKey)
    requires Quiet(s, key)
    ensures Quiet(s.(locks := locks), key)
  {
    var s' := s.(locks := locks);
    forall d | d in s'.calls ensures !Threatens(s', s'.calls[d], key) {
      assert !Threatens(s, s.calls[d], key);
    }
  }

  /** The next stage of a call that does not threaten a locked period does not either. */
  lemma NextStageQuiet(s: State, c: CallId, accepted: bool, key: LockKey)
    requires key in s.locks && c in s.calls && GoodStage(s, s.calls[c]) && !Threatens(s, s.calls[c], key)
    ensures !Threatens(s, AfterPeriod(s, s.calls[c]), key)
    ensures !Threatens(s, AfterNextPeriod(s, s.calls[c]), key)
    ensures !Threatens(s, AfterCodes(s.calls[c], accepted), key)
  {
  }

  lemma StepKeepsQuiet(s: State, st: Statement, key: LockKey)
    requires Sound(s) && Quiet(s, key) && key in s.locks && st != DeleteLock(key)
    ensures Quiet(After(s, st), key) && key in After(s, st).locks && Same(s, After(s, st), key)
  {
    hide Threatens, Sound, Quiet, PeriodEntries, AfterPeriod, AfterNextPeriod, AfterCodes, AfterRead, AfterNew, Written;
    match st {
      case CheckNew(c, companyId, d) =>
        if c !in s.calls {
          FirstStageQuiet(s, companyId, d, key);
          AtKeepsQuiet(s, c, AfterNew(s, companyId, d), key);
        }
      case ReadEntry(c, companyId, id, change) =>
        if c !in s.calls {
          ReadStageQuiet(s, companyId, id, change, key);
          AtKeepsQuiet(s, c, AfterRead(s, companyId, id, change), key);
        }
      case CheckPeriod(c) =>
        if c in s.calls { CallQuiet(s, c, true, key); AtKeepsQuiet(s, c, AfterPeriod(s, s.calls[c]), key); }
      case CheckNextPeriod(c) =>
        if c in s.calls { CallQuiet(s, c, true, key); AtKeepsQuiet(s, c, AfterNextPeriod(s, s.calls[c]), key); }
      case CheckCodes(c, accepted) =>
        if c in s.calls { CallQuiet(s, c, accepted, key); AtKeepsQuiet(s, c, AfterCodes(s.calls[c], accepted), key); }
      case Write(c) =>
        if c in s.calls && Writes(s.calls[c]) {
          WrittenKeepsQuiet(s, c, key);
          WrittenKeepsLocks(s, c);
          EndedQuiet(Written(s, s.calls[c]), key);
          AtKeepsQuiet(Written(s, s.calls[c]), c, Ended, key);
        }
      case InsertLock(other) => LocksKeepQuiet(s, s.locks + {other}, key);
      case DeleteLock(other) => LocksKeepQuiet(s, s.locks - {other}, key);
      case SetFlags(other, locked) => FlagsKeepQuiet(s, key, other, locked);
    }
  }

  lemma CallQuiet(s: State, c: CallId, accepted: bool, key: LockKey)
    requires Sound(s) && Quiet(s, key) && key in s.locks && c in s.calls
    ensures !Threatens(s, AfterPeriod(s, s.calls[c]), key)
    ensures !Threatens(s, AfterNextPeriod(s, s.calls[c]), key)
    ensures !Threatens(s, AfterCodes(s.calls[c], accepted), key)
  {
    hide Threatens, AfterPeriod, AfterNextPeriod, AfterCodes, GoodStage;
    NextStageQuiet(s, c, accepted, key);
  }

  lemma EndedQuiet(s: State, key: LockKey)
    ensures !Threatens(s, Ended, key)
  {
  }

  lemma WrittenKeepsLocks(s: State, c: CallId)
    requires c in s.calls
    ensures Written(s, s.calls[c]).locks == s.locks
  {
  }

  /** A call that starts while the period is locked does not threaten it. */
  lemma FirstStageQuiet(s: State, companyId: Id, d: Draft, key: LockKey)
    requires key in s.locks
    ensures !Threatens(s, AfterNew(s, companyId, d), key)
  {
  }

  lemma ReadStageQuiet(s: State, companyId: Id, id: nat, change: Change, key: LockKey)
    ensures !Threatens(s, AfterRead(s, companyId, id, change), key)
  {
  }

  lemma {:induction false} RunKeepsQuiet(s: State, sts: seq<Statement>, key: LockKey)
    requires Sound(s) && Quiet(s, key) && key in s.locks && DeleteLock(key) !in sts
    ensures Same(s, Run(s, sts), key)
    decreases |sts|
  {
    if sts != [] {
      StepKeepsSound(s, sts[0]);
      StepKeepsQuiet(s, sts[0], key);
      RunKeepsQuiet(After(s, sts[0]), sts[1..], key);
    }
  }

  /** The statements that bring a threatening call to its write. */
  function Finishing(s: State, c: CallId): seq<Statement>
    requires c in s.calls
  {
    match s.calls[c]
    case Creating(_, _) => [CheckCodes(c, true), Write(c)]
    case Found(_, read, Removal) => [DeleteLock(KeyOf(read)), CheckPeriod(c), Write(c)]
    case Found(_, read, Edit(p)) =>
      [DeleteLock(KeyOf(read)), CheckPeriod(c)]
      + [DeleteLock(NextKey(read, p, s.periodOf)), CheckNextPeriod(c), CheckCodes(c, true), Write(c)]
    case Passed(_, read, p) =>
      [DeleteLock(NextKey(read, p, s.periodOf)), CheckNextPeriod(c), CheckCodes(c, true), Write(c)]
    case Moving(_, _, _, _) => [CheckCodes(c, true), Write(c)]
    case Removing(_) => [Write(c)]
    case Ended => []
  }

  lemma RunTwo(s: State, a: Statement, b: Statement, rest: seq<Statement>)
    ensures Run(s, [a, b] + rest) == Run(After(After(s, a), b), rest)
  {
    assert ([a, b] + rest)[0] == a && ([a, b] + rest)[1..] == [b] + rest;
    assert ([b] + rest)[0] == b && ([b] + rest)[1..] == rest;
  }

  lemma RunOne(s: State, a: Statement)
    ensures Run(s, [a]) == After(s, a)
  {
  }

  /** A threatening call that is ready, or whose codes are yet to be accepted, changes the period when it writes. */
  lemma ReadyBreaks(s: State, c: CallId, key: LockKey)
    requires Sound(s) && c in s.calls && Threatens(s, s.calls[c], key)
    requires s.calls[c].Creating? || s.calls[c].Moving?
    ensures !Same(s, After(After(s, CheckCodes(c, true)), Write(c)), key)
  {
    var s' := After(After(s, CheckCodes(c, true)), Write(c));
    if s.calls[c].Creating? {
      assert s.nextId in PeriodEntries(s'.entries, key) && s.nextId !in PeriodEntries(s.entries, key);
    } else {
      var id := s.calls[c].id;
      var e, e' := s.entries[id], s'.entries[id];
      assert e.locked == e'.locked;
      assert KeyOf(e) == key ==> PeriodEntries(s.entries, key)[id] == e.(locked := false);
      assert KeyOf(e') == key ==> PeriodEntries(s'.entries, key)[id] == e'.(locked := false);
    }
  }

  lemma RemovalBreaks(s: State, c: CallId, key: LockKey)
    requires c in s.calls && s.calls[c].Removing? && Threatens(s, s.calls[c], key)
    ensures !Same(s, After(s, Write(c)), key)
  {
    var id := s.calls[c].id;
    assert id in PeriodEntries(s.entries, key) && id !in PeriodEntries(After(s, Write(c)).entries, key);
  }

  /** Past its last period check an update of an entry of the period takes the entry out of it. */
  lemma PassedBreaks(s: State, c: CallId, key: LockKey)
    requires Sound(s) && c in s.calls && s.calls[c].Passed? && Threatens(s, s.calls[c], key)
    ensures !Same(s, Run(s, Finishing(s, c)), key) && DeleteLock(key) !in Finishing(s, c)
  {
    var next := NextKey(s.calls[c].read, s.calls[c].patch, s.periodOf);
    var s1 := After(After(s, DeleteLock(next)), CheckNextPeriod(c));
    StepKeepsSound(s, DeleteLock(next));
    StepKeepsSound(After(s, DeleteLock(next)), CheckNextPeriod(c));
    assert GoodStage(s, s.calls[c]);
    assert s1.calls[c].Moving? && Threatens(s1, s1.calls[c], key);
    hide Sound, Threatens, GoodStage, Patched, PeriodEntries, AfterNextPeriod;
    ReadyBreaks(s1, c, key);
    assert Finishing(s, c) == [DeleteLock(next), CheckNextPeriod(c)] + [CheckCodes(c, true), Write(c)];
    RunTwo(s, DeleteLock(next), CheckNextPeriod(c), [CheckCodes(c, true), Write(c)]);
    RunTwo(s1, CheckCodes(c, true), Write(c), []);
    assert [CheckCodes(c, true), Write(c)] + [] == [CheckCodes(c, true), Write(c)];
  }

  lemma FoundBreaks(s: State, c: CallId, key: LockKey)
    requires Sound(s) && c in s.calls && s.calls[c].Found? && Threatens(s, s.calls[c], key)
    ensures !Same(s, Run(s, Finishing(s, c)), key) && DeleteLock(key) !in Finishing(s, c)
  {
    var own := KeyOf(s.calls[c].read);
    var s1 := After(After(s, DeleteLock(own)), CheckPeriod(c));
    StepKeepsSound(s, DeleteLock(own));
    StepKeepsSound(After(s, DeleteLock(own)), CheckPeriod(c));
    assert Threatens(s1, s1.calls[c], key) && (s1.calls[c].Passed? || s1.calls[c].Removing?);
    hide Sound, Threatens, GoodStage, Patched, PeriodEntries;
    RunTwo(s, DeleteLock(own), CheckPeriod(c), Finishing(s1, c));
    if s.calls[c].change.Removal? {
      RemovalBreaks(s1, c, key);
      RunOne(s1, Write(c));
      assert Finishing(s, c) == [DeleteLock(own), CheckPeriod(c)] + Finishing(s1, c);
    } else {
      PassedBreaks(s1, c, key);
      assert Finishing(s, c) == [DeleteLock(own), CheckPeriod(c)] + Finishing(s1, c);
    }
  }

  lemma ThreatBreaks(s: State, c: CallId, key: LockKey)
    requires Sound(s) && c in s.calls && Threatens(s, s.calls[c], key)
    ensures !Same(s, Run(s, Finishing(s, c)), key) && DeleteLock(key) !in Finishing(s, c)
  {
    if s.calls[c].Found? {
      FoundBreaks(s, c, key);
    } else if s.calls[c].Passed? {
      PassedBreaks(s, c, key);
    } else if s.calls[c].Removing? {
      RemovalBreaks(s, c, key);
      RunOne(s, Write(c));
    } else {
      ReadyBreaks(s, c, key);
      RunTwo(s, CheckCodes(c, true), Write(c), []);
      assert [CheckCodes(c, true), Write(c)] + [] == [CheckCodes(c, true), Write(c)];
    }
  }

  /**
   * A locked period stays frozen on every run that does not unlock it exactly when no call in
   * progress threatens it.
   */
  lemma FrozenIff(s: State, key: LockKey)
    requires Sound(s) && key in s.locks
    ensures StaysFrozen(s, key) <==> Quiet(s, key)
  {
    if Quiet(s, key) {
      forall sts | DeleteLock(key) !in sts ensures Same(s, Run(s, sts), key) { RunKeepsQuiet(s, sts, key); }
    } else {
      var c :| c in s.calls && Threatens(s, s.calls[c], key);
      ThreatBreaks(s, c, key);
      assert !StaysFrozen(s, key);
    }
  }

  // Calls that nothing overlaps.

  function Opened(b: Books, periodOf: int -> Period): State {
    State(periodOf, b.entries, b.locks, b.nextId, map[])
  }

  /** The codes of the entry that the call would write are accepted. */
  predicate CodesPass(b: Books, periodOf: int -> Period, call: Call) {
    match call
    case NewEntry(companyId, d) => !CodesRefused(b, companyId, Trim(d.debitCode), Trim(d.creditCode))
    case ChangeEntry(companyId, id, p) =>
      id in b.entries
      && var e' := Patched(b.entries[id], p, periodOf); !CodesRefused(b, companyId, e'.debitCode, e'.creditCode)
    case _ => true
  }

  /** The statements of a call on an entry. */
  function StatementsOf(b: Books, periodOf: int -> Period, call: Call): seq<Statement> {
    match call
    case NewEntry(companyId, d) =>
      if companyId !in b.companies then []
      else [CheckNew(0, companyId, d), CheckCodes(0, CodesPass(b, periodOf, call))] + [Write(0)]
    case ChangeEntry(companyId, id, p) =>
      [ReadEntry(0, companyId, id, Edit(p)), CheckPeriod(0)]
      + ([CheckNextPeriod(0), CheckCodes(0, CodesPass(b, periodOf, call))] + [Write(0)])
    case RemoveEntry(companyId, id) => [ReadEntry(0, companyId, id, Removal), CheckPeriod(0)] + [Write(0)]
    case _ => []
  }

  ghost predicate SameTables(s: State, b: Books) {
    s.entries == b.entries && s.locks == b.locks && s.nextId == b.nextId
  }

  /** A call whose statements nothing interrupts does what the ledger's call does. */
  lemma CallIsItsStatements(b: Books, periodOf: int -> Period, call: Call)
    requires OnEntry(call)
    ensures SameTables(Run(Opened(b, periodOf), StatementsOf(b, periodOf, call)), Ledger.Step(b, periodOf, call))
  {
    match call
    case NewEntry(companyId, d) => NewIsItsStatements(b, periodOf, companyId, d);
    case ChangeEntry(companyId, id, p) => ChangeIsItsStatements(b, periodOf, companyId, id, p);
    case RemoveEntry(companyId, id) => RemovalIsItsStatements(b, periodOf, companyId, id);
  }

  lemma NewIsItsStatements(b: Books, periodOf: int -> Period, companyId: Id, d: Draft)
    ensures var call := NewEntry(companyId, d);
      SameTables(Run(Opened(b, periodOf), StatementsOf(b, periodOf, call)), Ledger.Step(b, periodOf, call))
  {
    var s, pass := Opened(b, periodOf), CodesPass(b, periodOf, NewEntry(companyId, d));
    hide AccountExists, Drafted, Trim;
    RunTwo(s, CheckNew(0, companyId, d), CheckCodes(0, pass), [Write(0)]);
    RunOne(After(After(s, CheckNew(0, companyId, d)), CheckCodes(0, pass)), Write(0));
  }

  lemma RemovalIsItsStatements(b: Books, periodOf: int -> Period, companyId: Id, id: nat)
    ensures var call := RemoveEntry(companyId, id);
      SameTables(Run(Opened(b, periodOf), StatementsOf(b, periodOf, call)), Ledger.Step(b, periodOf, call))
  {
    var s, read := Opened(b, periodOf), ReadEntry(0, companyId, id, Removal);
    RunTwo(s, read, CheckPeriod(0), [Write(0)]);
    RunOne(After(After(s, read), CheckPeriod(0)), Write(0));
  }

  lemma ChangeIsItsStatements(b: Books, periodOf: int -> Period, companyId: Id, id: nat, p: Patch)
    ensures var call := ChangeEntry(companyId, id, p);
      SameTables(Run(Opened(b, periodOf), StatementsOf(b, periodOf, call)), Ledger.Step(b, periodOf, call))
  {
    var s, read := Opened(b, periodOf), ReadEntry(0, companyId, id, Edit(p));
    var pass := CodesPass(b, periodOf, ChangeEntry(companyId, id, p));
    var s1 := After(After(s, read), CheckPeriod(0));
    var s2 := After(After(s1, CheckNextPeriod(0)), CheckCodes(0, pass));
    hide AccountExists, Patched, CodesRefused;
    RunTwo(s, read, CheckPeriod(0), [CheckNextPeriod(0), CheckCodes(0, pass)] + [Write(0)]);
    RunTwo(s1, CheckNextPeriod(0), CheckCodes(0, pass), [Write(0)]);
    RunOne(s2, Write(0));
    ChangeStages(b, periodOf, companyId, id, p);
    if id in b.entries { PatchedKeeps(b.entries[id], p, periodOf); }
    hide After, AfterRead, AfterPeriod, AfterNextPeriod, AfterCodes, CodesPass;
  }

  /** Where an update that nothing interrupts stands before its write. */
  lemma ChangeStages(b: Books, periodOf: int -> Period, companyId: Id, id: nat, p: Patch)
    ensures var s, pass := Opened(b, periodOf), CodesPass(b, periodOf, ChangeEntry(companyId, id, p));
      var s1 := After(After(s, ReadEntry(0, companyId, id, Edit(p))), CheckPeriod(0));
      After(After(s1, CheckNextPeriod(0)), CheckCodes(0, pass))
      == At(s, 0, if UpdateEntry(b, periodOf, companyId, id, p).1.Done?
                  then Moving(id, b.entries[id], p, true) else Ended)
  {
    hide AccountExists, Patched;
    var s := Opened(b, periodOf);
    if id in b.entries && b.entries[id].companyId == companyId {
      PatchedKeeps(b.entries[id], p, periodOf);
      assert After(s, ReadEntry(0, companyId, id, Edit(p))) == At(s, 0, Found(id, b.entries[id], Edit(p)));
    } else {
      assert After(s, ReadEntry(0, companyId, id, Edit(p))) == At(s, 0, Ended);
    }
  }

  lemma PatchedKeeps(e: Entry, p: Patch, periodOf: int -> Period)
    ensures Overwritten(e, e, p, periodOf) == Patched(e, p, periodOf)
    ensures Patched(e, p, periodOf).companyId == e.companyId
  {
  }

  // Calls that overlap.

  /** A new entry is written into a period that was locked after the entry's check of it. */
  lemma LateEntryIsReached(b: Books, periodOf: int -> Period, companyId: Id, d: Draft)
    requires d.date.At? && Trim(d.debitCode) != Trim(d.creditCode)
    requires LockKey(companyId, periodOf(d.date.ms)) !in b.locks && b.nextId !in b.entries
    ensures var key := LockKey(companyId, periodOf(d.date.ms));
      var s := After(After(Opened(b, periodOf), CheckNew(0, companyId, d)), InsertLock(key));
      var s' := Run(s, [CheckCodes(0, true), Write(0)]);
      key in s'.locks && !Same(s, s', key)
  {
    var key := LockKey(companyId, periodOf(d.date.ms));
    var s := After(After(Opened(b, periodOf), CheckNew(0, companyId, d)), InsertLock(key));
    assert s.calls[0] == Creating(Drafted(companyId, d, periodOf), false);
    RunTwo(s, CheckCodes(0, true), Write(0), []);
    assert [CheckCodes(0, true), Write(0)] + [] == [CheckCodes(0, true), Write(0)];
    var s' := Run(s, [CheckCodes(0, true), Write(0)]);
    assert s.nextId in PeriodEntries(s'.entries, key) && s.nextId !in PeriodEntries(s.entries, key);
  }
}
