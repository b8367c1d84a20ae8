/**
 * Any number of calls for the three cached layers, overlapping in every order
 * (src/modules/command-center-enterprise/command-center-enterprise.service.ts,
 * src/modules/audit-intelligence-enterprise/audit-intelligence-enterprise.service.ts).
 * Each access to a store is one step with its own time; between two of its steps a
 * call waits, and others go on.
 */
module CacheRuns {
  import opened CacheKeys
  import opened Entities
  import opened LayeredCache
  import opened TtlStore
  import opened Wrappers

  type CallId = nat

  datatype Layer = AuditLayer | SummaryLayer | RisksLayer

  /** Where a call stands, between two of its accesses. */
  datatype Stage =
    | Looking(layer: Layer)                      // next: look the layer's key up
    | Reading                                    // every layer missed; next: read the audit data
    | Read(readAt: int)                          // next: write the audit entry
    | Obtained(layer: Layer, payload: Payload)   // the layer below answered; next: write this layer's entry
    | Answered(payload: Payload, at: int)

  /** A call, the time of its last step, and when each layer it entered started. */
  datatype Call = Call(
    companyId: Id, query: Query, want: Layer, keys: Keys, stage: Stage,
    last: int, auditStart: int, summaryStart: int, risksStart: int)

  /** The stores, the calls, and as history every access made to each store. */
  datatype State = State(
    stores: Stores, calls: map<CallId, Call>, auditOps: seq<Timed<Payload>>, commandOps: seq<Timed<Payload>>)

  datatype Step =
    | Begin(id: CallId, want: Layer, companyId: Id, query: Query, auditQuery: AuditQuery, now: int)
    | Move(id: CallId, now: int)
    | Fail(id: CallId, now: int)

  function Initial(): State {
    State(Stores([], []), map[], [], [])
  }

  function KeysFor(want: Layer, companyId: Id, q: Query, aq: AuditQuery): Keys {
    Keys(AuditKey(companyId, if want.AuditLayer? then aq else SIGNAL_QUERY),
         CommandKey(SUMMARY, companyId, q), CommandKey(RISKS, companyId, q))
  }

  function KeyOf(c: Call, layer: Layer): string {
    match layer
    case AuditLayer => c.keys.audit
    case SummaryLayer => c.keys.summary
    case RisksLayer => c.keys.risks
  }

  // One access to a store.

  function LookUp(s: State, layer: Layer, key: string, now: int): State {
    var t := Timed(Get(key), now);
    if layer.AuditLayer?
    then s.(stores := s.stores.(audit := GetEntry(s.stores.audit, key, now).0), auditOps := s.auditOps + [t])
    else s.(stores := s.stores.(command := GetEntry(s.stores.command, key, now).0), commandOps := s.commandOps + [t])
  }

  function Cached(s: State, layer: Layer, key: string, now: int): Option<Payload> {
    GetEntry(if layer.AuditLayer? then s.stores.audit else s.stores.command, key, now).1
  }

  function Write(s: State, layer: Layer, key: string, p: Payload, now: int): State {
    var t := Timed(Set(key, p), now);
    if layer.AuditLayer?
    then s.(stores := s.stores.(audit := SetEntry(s.stores.audit, key, p, now)), auditOps := s.auditOps + [t])
    else s.(stores := s.stores.(command := SetEntry(s.stores.command, key, p, now)), commandOps := s.commandOps + [t])
  }

  // The steps of a call.

  /** The layer has its payload: the call answers, or goes on one layer up. */
  function Passed(c: Call, layer: Layer, p: Payload, now: int): Call {
    c.(last := now,
       stage := if layer == c.want then Answered(p, now)
                else Obtained(if layer.AuditLayer? then SummaryLayer else RisksLayer, p))
  }

  /** The layer missed: the call starts it, and the ones below it. */
  function Started(c: Call, layer: Layer, now: int): Call {
    match layer
    case RisksLayer =>
      c.(last := now, stage := Looking(SummaryLayer), risksStart := now, summaryStart := now, auditStart := now)
    case SummaryLayer => c.(last := now, stage := Looking(AuditLayer), summaryStart := now, auditStart := now)
    case AuditLayer => c.(last := now, stage := Reading, auditStart := now)
  }

  function StartOf(c: Call, layer: Layer): int {
    match layer
    case AuditLayer => c.auditStart
    case SummaryLayer => c.summaryStart
    case RisksLayer => c.risksStart
  }

  /** The clock of a call does not go back, and a layer takes at most d. */
  predicate Enabled(s: State, step: Step, d: nat) {
    match step
    case Begin(id, _, _, _, _, _) => id !in s.calls
    case Move(id, now) =>
      && id in s.calls && !s.calls[id].stage.Answered? && s.calls[id].last <= now
      && (s.calls[id].stage.Read? ==> now <= s.calls[id].auditStart + d)
      && (s.calls[id].stage.Obtained? ==> now <= StartOf(s.calls[id], s.calls[id].stage.layer) + d)
    case Fail(id, now) => id in s.calls && s.calls[id].stage.Reading? && s.calls[id].last <= now
  }

  function Looked(s: State, id: CallId, layer: Layer, now: int): State
    requires id in s.calls
  {
    var c := s.calls[id];
    var cached := Cached(s, layer, KeyOf(c, layer), now);
    var c' := if cached.Some? then Passed(c, layer, cached.value, now) else Started(c, layer, now);
    LookUp(s, layer, KeyOf(c, layer), now).(calls := s.calls[id := c'])
  }

  function Written(s: State, id: CallId, layer: Layer, p: Payload, now: int): State
    requires id in s.calls
  {
    var c := s.calls[id];
    Write(s, layer, KeyOf(c, layer), p, now).(calls := s.calls[id := Passed(c, layer, p, now)])
  }

  /** What a layer makes of the payload of the layer below. */
  function Composed(c: Call, layer: Layer, p: Payload): Payload {
    if layer.SummaryLayer? then Summarised(p, c.query) else p
  }

  function Moved(s: State, id: CallId, now: int): State
    requires id in s.calls && !s.calls[id].stage.Answered?
  {
    match s.calls[id].stage
    case Looking(layer) => Looked(s, id, layer, now)
    case Reading => s.(calls := s.calls[id := s.calls[id].(last := now, stage := Read(now))])
    case Read(readAt) => Written(s, id, AuditLayer, Payload(s.calls[id].companyId, None, Some(readAt)), now)
    case Obtained(layer, p) => Written(s, id, layer, Composed(s.calls[id], layer, p), now)
  }

  function Apply(s: State, step: Step, d: nat): State
    requires Enabled(s, step, d)
  {
    match step
    case Begin(id, want, companyId, q, aq, now) =>
      var keys := KeysFor(want, companyId, q, aq);
      s.(calls := s.calls[id := Call(companyId, q, want, keys, Looking(want), now, now, now, now)])
    case Move(id, now) => Moved(s, id, now)
    case Fail(id, now) =>
      var c := s.calls[id];
      s.(calls := s.calls[id := Passed(c, AuditLayer, Payload(c.companyId, None, None), now)])
  }

  function After(s: State, step: Step, d: nat): State {
    if Enabled(s, step, d) then Apply(s, step, d) else s
  }

  function Run(s: State, steps: seq<Step>, d: nat): State
    decreases |steps|
  {
    if steps == [] then s else After(Run(s, steps[..|steps| - 1], d), steps[|steps| - 1], d)
  }

  // What every run keeps.

  ghost predicate NamedOps(ops: seq<Timed<Payload>>) {
    forall i :: 0 <= i < |ops| ==> ops[i].op.key != ""
  }

  /** The stores are what the accesses made of them, and no access used an empty key. */
  ghost predicate Traced(s: State) {
    && s.stores.audit == TtlStore.Run(s.auditOps) && s.stores.command == TtlStore.Run(s.commandOps)
    && NamedOps(s.auditOps) && NamedOps(s.commandOps)
    && forall id :: id in s.calls ==> NamedKeys(s.calls[id].keys)
  }

  lemma {:induction false} RunOfAppend(ops: seq<Timed<Payload>>, t: Timed<Payload>)
    ensures TtlStore.Run(ops + [t]) == TtlStore.Step(TtlStore.Run(ops), t)
  {
    assert (ops + [t])[..|ops|] == ops;
  }

  lemma NamedAppend(ops: seq<Timed<Payload>>, t: Timed<Payload>)
    requires NamedOps(ops) && t.op.key != ""
    ensures NamedOps(ops + [t])
  {
  }

  lemma LookUpTraced(s: State, layer: Layer, key: string, now: int)
    requires Traced(s) && key != ""
    ensures Traced(LookUp(s, layer, key, now))
  {
    hide GetEntry, NamedKeys, NamedOps, TtlStore.Run;
    var ops, t := if layer.AuditLayer? then s.auditOps else s.commandOps, Timed(Get(key), now);
    RunOfAppend(ops, t);
    NamedAppend(ops, t);
  }

  lemma WriteTraced(s: State, layer: Layer, key: string, p: Payload, now: int)
    requires Traced(s) && key != ""
    ensures Traced(Write(s, layer, key, p, now))
  {
    hide SetEntry, NamedKeys, NamedOps, TtlStore.Run;
    var ops, t := if layer.AuditLayer? then s.auditOps else s.commandOps, Timed(Set(key, p), now);
    RunOfAppend(ops, t);
    NamedAppend(ops, t);
  }

  lemma {:induction false} StepTraced(s: State, step: Step, d: nat)
    requires Traced(s) && Enabled(s, step, d)
    ensures Traced(Apply(s, step, d))
  {
    hide GetEntry, SetEntry, CommandKey, AuditKey, IsSummaryKey;
    match step
    case Begin(_, want, companyId, q, aq, _) =>
      KeysAreNamed(if want.AuditLayer? then aq else SIGNAL_QUERY, companyId, q);
    case Fail(_, _) =>
    case Move(id, now) =>
      var c := s.calls[id];
      assert NamedKeys(c.keys);
      match c.stage
      case Looking(layer) => LookUpTraced(s, layer, KeyOf(c, layer), now);
      case Reading =>
      case Read(readAt) => WriteTraced(s, AuditLayer, c.keys.audit, Payload(c.companyId, None, Some(readAt)), now);
      case Obtained(layer, p) => WriteTraced(s, layer, KeyOf(c, layer), Composed(c, layer, p), now);
  }

  lemma {:induction false} RunTraced(steps: seq<Step>, d: nat)
    ensures Traced(Run(Initial(), steps, d))
  {
    if steps != [] {
      var n := |steps| - 1;
      RunTraced(steps[..n], d);
      var s := Run(Initial(), steps[..n], d);
      if Enabled(s, steps[n], d) { StepTraced(s, steps[n], d); }
    }
  }

  /** On every run of overlapping calls both stores hold at most 101 entries, under distinct keys. */
  lemma {:induction false} StoresAreBounded(steps: seq<Step>, d: nat)
    ensures var s := Run(Initial(), steps, d);
      && |s.stores.audit| <= 101 && |s.stores.command| <= 101
      && DistinctKeys(s.stores.audit) && DistinctKeys(s.stores.command)
  {
    var s := Run(Initial(), steps, d);
    RunTraced(steps, d);
    RunIsBounded(s.auditOps);
    RunIsBounded(s.commandOps);
    RunHoldsLastSets(s.auditOps);
    RunHoldsLastSets(s.commandOps);
  }

  /** On every run, a hit returns the payload last written under its key, before that entry expires. */
  lemma {:induction false} HitsAreLastWrites(steps: seq<Step>, d: nat, layer: Layer, key: string, now: int)
    requires Cached(Run(Initial(), steps, d), layer, key, now).Some?
    ensures var s := Run(Initial(), steps, d);
      var last := LastSet(if layer.AuditLayer? then s.auditOps else s.commandOps, key);
      last.Some? && Cached(s, layer, key, now) == Some(last.value.payload) && now < last.value.expiresAt
  {
    var s := Run(Initial(), steps, d);
    RunTraced(steps, d);
    HitIsLastSet(if layer.AuditLayer? then s.auditOps else s.commandOps, key, now);
  }

  // How old the audit data of an answer is.

  function AgeOf(layer: Layer, d: nat): int {
    match layer
    case AuditLayer => AuditAge(d)
    case SummaryLayer => SummaryAge(d)
    case RisksLayer => RisksAge(d)
  }

  predicate NotAbove(layer: Layer, want: Layer) {
    layer == want || layer.AuditLayer? || want.RisksLayer?
  }

  /** What a call carries is no older than its stage allows. */
  ghost predicate CallFresh(c: Call, d: nat) {
    && c.risksStart <= c.summaryStart <= c.auditStart <= c.last
    && match c.stage
       case Looking(layer) => NotAbove(layer, c.want)
       case Reading => true
       case Read(readAt) => c.auditStart <= readAt
       case Obtained(layer, p) =>
         && !layer.AuditLayer? && NotAbove(layer, c.want)
         && AgeAt(p, StartOf(c, layer), AgeOf(if layer.RisksLayer? then SummaryLayer else AuditLayer, d) - 1)
       case Answered(p, at) => AgeAt(p, at, AgeOf(c.want, d) - 1)
  }

  ghost predicate Fresh(s: State, d: nat) {
    && FreshStores(s.stores, d, IsSummaryKey)
    && forall id :: id in s.calls ==> CallFresh(s.calls[id], d) && NamedKeys(s.calls[id].keys)
  }

  /** A payload that was young enough when a layer was done. */
  lemma PassedFresh(c: Call, layer: Layer, p: Payload, now: int, d: nat)
    requires c.risksStart <= c.summaryStart <= c.auditStart <= c.last <= now
    requires AgeAt(p, now, AgeOf(layer, d) - 1)
             || (now <= StartOf(c, layer) + d && AgeAt(p, StartOf(c, layer), AgeOf(layer, d) - TTL_MS - d))
    requires NotAbove(layer, c.want)
    ensures CallFresh(Passed(c, layer, p, now), d)
  {
  }

  lemma {:induction false} CachedFresh(s: State, layer: Layer, key: string, now: int, d: nat)
    requires FreshStores(s.stores, d, IsSummaryKey) && Cached(s, layer, key, now).Some?
    requires layer.SummaryLayer? ==> IsSummaryKey(key)
    ensures AgeAt(Cached(s, layer, key, now).value, now, AgeOf(layer, d) - 1)
  {
    hide IsSummaryKey;
    if layer.AuditLayer? {
      var k := IndexOf(s.stores.audit, key);
      assert Younger(s.stores.audit[k], AuditAge(d));
    } else {
      HitFresh(s.stores.command, key, now, d, IsSummaryKey);
    }
  }

  lemma {:induction false} LookUpFresh(s: State, layer: Layer, key: string, now: int, d: nat)
    requires FreshStores(s.stores, d, IsSummaryKey)
    ensures FreshStores(LookUp(s, layer, key, now).stores, d, IsSummaryKey)
  {
    hide IsSummaryKey, GetEntry;
    if layer.AuditLayer? { AuditFreshGet(s.stores.audit, key, now, d); }
    else { CommandFreshGet(s.stores.command, key, now, d, IsSummaryKey); }
  }

  /** A written entry is as young as its layer allows, measured when the layer started. */
  lemma {:induction false} WriteFresh(s: State, c: Call, layer: Layer, p: Payload, now: int, d: nat)
    requires FreshStores(s.stores, d, IsSummaryKey) && NamedKeys(c.keys)
    requires now <= StartOf(c, layer) + d && AgeAt(p, StartOf(c, layer), AgeOf(layer, d) - TTL_MS - d)
    ensures FreshStores(Write(s, layer, KeyOf(c, layer), p, now).stores, d, IsSummaryKey)
  {
    hide IsSummaryKey, SetEntry;
    var key := KeyOf(c, layer);
    assert Younger(Entry(key, now + TTL_MS, p), AgeOf(layer, d));
    if layer.AuditLayer? { AuditFreshSet(s.stores.audit, key, p, now, d); }
    else { CommandFreshSet(s.stores.command, key, p, now, d, IsSummaryKey); }
  }

  /** A call that looks a layer up passes it with a payload young enough, or starts it. */
  lemma LookedFresh(s: State, c: Call, layer: Layer, now: int, d: nat)
    requires FreshStores(s.stores, d, IsSummaryKey) && CallFresh(c, d) && NamedKeys(c.keys)
    requires c.stage == Looking(layer) && c.last <= now
    ensures var cached := Cached(s, layer, KeyOf(c, layer), now);
      CallFresh(if cached.Some? then Passed(c, layer, cached.value, now) else Started(c, layer, now), d)
  {
    hide IsSummaryKey, GetEntry;
    var cached := Cached(s, layer, KeyOf(c, layer), now);
    if cached.Some? {
      CachedFresh(s, layer, KeyOf(c, layer), now, d);
      PassedFresh(c, layer, cached.value, now, d);
    }
  }

  lemma {:induction false} WrittenFresh(s: State, id: CallId, layer: Layer, p: Payload, now: int, d: nat)
    requires Fresh(s, d) && id in s.calls && s.calls[id].last <= now && NotAbove(layer, s.calls[id].want)
    requires now <= StartOf(s.calls[id], layer) + d
    requires AgeAt(p, StartOf(s.calls[id], layer), AgeOf(layer, d) - TTL_MS - d)
    ensures Fresh(Written(s, id, layer, p, now), d)
  {
    var c := s.calls[id];
    assert CallFresh(c, d) && NamedKeys(c.keys);
    WriteFresh(s, c, layer, p, now, d);
    PassedFresh(c, layer, p, now, d);
    hide IsSummaryKey, SetEntry, FreshStores;
  }

  lemma {:induction false} StepFresh(s: State, step: Step, d: nat)
    requires Fresh(s, d) && Enabled(s, step, d)
    ensures Fresh(Apply(s, step, d), d)
  {
    hide GetEntry, SetEntry, CommandKey, AuditKey, IsSummaryKey, FreshStores;
    match step
    case Begin(_, want, companyId, q, aq, _) =>
      KeysAreNamed(if want.AuditLayer? then aq else SIGNAL_QUERY, companyId, q);
    case Fail(id, now) =>
      assert CallFresh(s.calls[id], d);
      PassedFresh(s.calls[id], AuditLayer, Payload(s.calls[id].companyId, None, None), now, d);
    case Move(id, now) =>
      assert CallFresh(s.calls[id], d);
      match s.calls[id].stage
      case Looking(layer) =>
        LookUpFresh(s, layer, KeyOf(s.calls[id], layer), now, d);
        LookedFresh(s, s.calls[id], layer, now, d);
      case Reading =>
      case Read(readAt) =>
        WrittenFresh(s, id, AuditLayer, Payload(s.calls[id].companyId, None, Some(readAt)), now, d);
      case Obtained(layer, p) => WrittenFresh(s, id, layer, Composed(s.calls[id], layer, p), now, d);
  }

  lemma {:induction false} RunFresh(steps: seq<Step>, d: nat)
    ensures Fresh(Run(Initial(), steps, d), d)
  {
    if steps != [] {
      var n := |steps| - 1;
      RunFresh(steps[..n], d);
      var s := Run(Initial(), steps[..n], d);
      if Enabled(s, steps[n], d) { StepFresh(s, steps[n], d); }
    }
  }

  /**
   * However the calls of a run overlap, audit data in a risks answer is at most 89 997 ms
   * old when it is given, plus three times what a layer takes.
   */
  lemma {:induction false} RisksStaleness(steps: seq<Step>, d: nat, id: CallId)
    requires var s := Run(Initial(), steps, d);
      id in s.calls && s.calls[id].want.RisksLayer? && s.calls[id].stage.Answered?
    ensures var answer := Run(Initial(), steps, d).calls[id].stage;
      AgeAt(answer.payload, answer.at, 89_997 + 3 * d)
  {
    RunFresh(steps, d);
    assert CallFresh(Run(Initial(), steps, d).calls[id], d);
  }

  // A call that nothing overlaps.

  lemma {:induction false} RunConcat(s: State, a: seq<Step>, b: seq<Step>, d: nat)
    ensures Run(s, a + b, d) == Run(Run(s, a, d), b, d)
    decreases |b|
  {
    if b == [] {
      assert a + b == a;
    } else {
      var n := |b| - 1;
      assert (a + b)[..|a + b| - 1] == a + b[..n];
      RunConcat(s, a, b[..n], d);
    }
  }

  lemma {:induction false} RunOne(s: State, step: Step, d: nat)
    ensures Run(s, [step], d) == After(s, step, d)
  {
    assert [step][..0] == [];
  }

  lemma {:induction false} RunTwo(s: State, a: Step, b: Step, d: nat)
    ensures Run(s, [a, b], d) == After(After(s, a, d), b, d)
  {
    assert [a, b] == [a] + [b];
    RunConcat(s, [a], [b], d);
    RunOne(s, a, d);
    RunOne(After(s, a, d), b, d);
  }

  /** The call has left a layer with payload p, by time `until`, and what it still has to do is as before. */
  ghost predicate Left(c: Call, c': Call, layer: Layer, p: Payload, until: int) {
    && c'.want == c.want && c'.keys == c.keys && c'.companyId == c.companyId && c'.query == c.query && c'.last <= until
    && (layer.AuditLayer? ==> c'.summaryStart == c.summaryStart)
    && (!layer.RisksLayer? ==> c'.risksStart == c.risksStart)
    && if layer == c.want then c'.stage.Answered? && c'.stage.payload == p && c'.stage.at <= until
       else c'.stage == Obtained(if layer.AuditLayer? then SummaryLayer else RisksLayer, p)
  }

  /** The call is about to look a layer up. */
  ghost predicate About(s: State, id: CallId, layer: Layer, now: int) {
    id in s.calls && s.calls[id].stage == Looking(layer) && s.calls[id].last <= now
  }

  lemma {:induction false} LookStep(s: State, id: CallId, layer: Layer, now: int, d: nat)
    requires About(s, id, layer, now)
    ensures Run(s, [Move(id, now)], d) == Looked(s, id, layer, now)
    ensures Cached(s, layer, KeyOf(s.calls[id], layer), now).Some? ==> Looked(s, id, layer, now).stores == s.stores
  {
    RunOne(s, Move(id, now), d);
    HitKeepsStore(if layer.AuditLayer? then s.stores.audit else s.stores.command, KeyOf(s.calls[id], layer), now);
    hide GetEntry;
  }

  lemma {:induction false} WriteStep(s: State, id: CallId, layer: Layer, p: Payload, now: int, d: nat)
    requires id in s.calls && s.calls[id].stage == Obtained(layer, p) && s.calls[id].last <= now
    requires now <= StartOf(s.calls[id], layer) + d
    ensures Run(s, [Move(id, now)], d) == Written(s, id, layer, Composed(s.calls[id], layer, p), now)
  {
    RunOne(s, Move(id, now), d);
  }

  /** A run of the call's steps leaves the layer with the stores and the payload given. */
  ghost predicate Delivers(s: State, s': State, id: CallId, layer: Layer, out: (Stores, Payload), until: int) {
    id in s.calls && id in s'.calls && s'.stores == out.0 && Left(s.calls[id], s'.calls[id], layer, out.1, until)
  }

  lemma {:induction false} AuditSteps(s: State, id: CallId, now: int, up: bool, took: nat, d: nat)
    returns (steps: seq<Step>)
    requires About(s, id, AuditLayer, now) && took <= d
    ensures var out := ExecutiveAt(s.stores, s.calls[id].keys.audit, s.calls[id].companyId, now, up, took);
      Delivers(s, Run(s, steps, d), id, AuditLayer, out, now + took)
  {
    hide GetEntry, SetEntry;
    LookStep(s, id, AuditLayer, now, d);
    steps := [Move(id, now)];
    if Cached(s, AuditLayer, s.calls[id].keys.audit, now).None? {
      var s1 := Run(s, steps, d);
      var more := if up then [Move(id, now), Move(id, now + took)] else [Fail(id, now)];
      if up { RunTwo(s1, Move(id, now), Move(id, now + took), d); } else { RunOne(s1, Fail(id, now), d); }
      RunConcat(s, steps, more, d);
      steps := steps + more;
    }
  }

  /** The stores after a lower layer delivered p: the layer's entry is written. */
  function WithEntry(stores: Stores, key: string, p: Payload, now: int): Stores {
    stores.(command := SetEntry(stores.command, key, p, now))
  }

  /** A layer that missed: the steps below it, and then its write. */
  lemma {:induction false} LayerSteps(s: State, id: CallId, layer: Layer, below: seq<Step>,
        out: (Stores, Payload), until: int, now: int, d: nat)
    returns (steps: seq<Step>)
    requires !layer.AuditLayer? && id in s.calls
        && s.calls[id].want != (if layer.RisksLayer? then SummaryLayer else AuditLayer)
    requires Delivers(s, Run(s, below, d), id, if layer.RisksLayer? then SummaryLayer else AuditLayer, out, until)
    requires until <= now <= StartOf(s.calls[id], layer) + d
    ensures var p := Composed(s.calls[id], layer, out.1);
      Delivers(s, Run(s, steps, d), id, layer, (WithEntry(out.0, KeyOf(s.calls[id], layer), p, now), p), now)
  {
    hide SetEntry;
    var done := [Move(id, now)];
    WriteStep(Run(s, below, d), id, layer, out.1, now, d);
    RunConcat(s, below, done, d);
    hide Run;
    steps := below + done;
  }

  /** A layer that missed, with the access that found it missing. */
  lemma {:induction false} AfterLook(s: State, id: CallId, layer: Layer, now: int, rest: seq<Step>,
        out: (Stores, Payload), until: int, d: nat)
    requires About(s, id, layer, now) && Cached(s, layer, KeyOf(s.calls[id], layer), now).None?
    requires Delivers(Looked(s, id, layer, now), Run(Looked(s, id, layer, now), rest, d), id, layer, out, until)
    ensures Delivers(s, Run(s, [Move(id, now)] + rest, d), id, layer, out, until)
  {
    LookStep(s, id, layer, now, d);
    RunConcat(s, [Move(id, now)], rest, d);
    hide Run, GetEntry;
  }

  /** The stores once a layer's expired entry, if any, is gone. */
  function Missed(stores: Stores, key: string, now: int): Stores {
    stores.(command := GetEntry(stores.command, key, now).0)
  }

  lemma LookedMiss(s: State, id: CallId, layer: Layer, now: int)
    requires !layer.AuditLayer? && About(s, id, layer, now) && Cached(s, layer, KeyOf(s.calls[id], layer), now).None?
    ensures var s1 := Looked(s, id, layer, now);
      && s1.stores == Missed(s.stores, KeyOf(s.calls[id], layer), now)
      && About(s1, id, if layer.RisksLayer? then SummaryLayer else AuditLayer, now)
      && s1.calls[id].want == s.calls[id].want && s1.calls[id].keys == s.calls[id].keys
      && s1.calls[id].companyId == s.calls[id].companyId && s1.calls[id].query == s.calls[id].query
      && StartOf(s1.calls[id], layer) == now
  {
    hide GetEntry;
  }

  lemma SummaryMiss(stores: Stores, r: Request, ks: Keys)
    requires GetEntry(stores.command, ks.summary, r.now).1.None?
    ensures var missed := Missed(stores, ks.summary, r.now);
      var out := ExecutiveAt(missed, ks.audit, r.companyId, r.now, r.auditUp, r.auditTook);
      var p := Summarised(out.1, r.query);
      SummaryAt(stores, r, ks) == (WithEntry(out.0, ks.summary, p, r.now + r.summaryTook), p)
  {
    hide GetEntry, SetEntry, ExecutiveAt;
  }

  lemma RisksMiss(stores: Stores, r: Request, ks: Keys)
    requires GetEntry(stores.command, ks.risks, r.now).1.None?
    ensures var out := SummaryAt(Missed(stores, ks.risks, r.now), r, ks);
      RisksAt(stores, r, ks) == (WithEntry(out.0, ks.risks, out.1, r.now + r.risksTook), out.1)
  {
    hide GetEntry, SetEntry, SummaryAt;
  }

  lemma {:induction false} SummaryHit(s: State, id: CallId, r: Request, d: nat)
    requires About(s, id, SummaryLayer, r.now) && !s.calls[id].want.AuditLayer? && r.summaryTook >= 0
    requires Cached(s, SummaryLayer, s.calls[id].keys.summary, r.now).Some?
    ensures Delivers(s, Run(s, [Move(id, r.now)], d), id, SummaryLayer, SummaryAt(s.stores, r, s.calls[id].keys),
      r.now + r.summaryTook)
  {
    LookStep(s, id, SummaryLayer, r.now, d);
    hide Run, ExecutiveAt, SetEntry;
  }

  /** The call asks what the request asks. */
  ghost predicate Asks(s: State, id: CallId, r: Request) {
    id in s.calls && s.calls[id].companyId == r.companyId && s.calls[id].query == r.query
  }

  lemma {:induction false} SummarySteps(s: State, id: CallId, r: Request, d: nat) returns (steps: seq<Step>)
    requires Asks(s, id, r)
    requires About(s, id, SummaryLayer, r.now) && !s.calls[id].want.AuditLayer? && RequestWithin(r, d)
    ensures Delivers(s, Run(s, steps, d), id, SummaryLayer, SummaryAt(s.stores, r, s.calls[id].keys),
      r.now + r.summaryTook)
  {
    hide Run, GetEntry, SetEntry, ExecutiveAt, SummaryAt, Delivers, Looked, Missed, WithEntry;
    steps := [Move(id, r.now)];
    if Cached(s, SummaryLayer, s.calls[id].keys.summary, r.now).Some? {
      SummaryHit(s, id, r, d);
    } else {
      var s1, ks := Looked(s, id, SummaryLayer, r.now), s.calls[id].keys;
      LookedMiss(s, id, SummaryLayer, r.now);
      SummaryMiss(s.stores, r, ks);
      var below := AuditSteps(s1, id, r.now, r.auditUp, r.auditTook, d);
      var out := ExecutiveAt(Missed(s.stores, ks.summary, r.now), ks.audit, r.companyId, r.now, r.auditUp, r.auditTook);
      var now := r.now + r.summaryTook;
      var rest := LayerSteps(s1, id, SummaryLayer, below, out, r.now + r.auditTook, now, d);
      var p := Summarised(out.1, r.query);
      AfterLook(s, id, SummaryLayer, r.now, rest, (WithEntry(out.0, ks.summary, p, now), p), now, d);
      steps := steps + rest;
    }
  }

  lemma {:induction false} RisksHit(s: State, id: CallId, r: Request, d: nat)
    requires About(s, id, RisksLayer, r.now) && s.calls[id].want.RisksLayer?
    requires Cached(s, RisksLayer, s.calls[id].keys.risks, r.now).Some?
    ensures Delivers(s, Run(s, [Move(id, r.now)], d), id, RisksLayer, RisksAt(s.stores, r, s.calls[id].keys),
      r.now + r.risksTook)
  {
    LookStep(s, id, RisksLayer, r.now, d);
    hide Run, SummaryAt, SetEntry;
  }

  lemma {:induction false} RisksFrom(s: State, id: CallId, r: Request, d: nat) returns (steps: seq<Step>)
    requires Asks(s, id, r) && About(s, id, RisksLayer, r.now) && s.calls[id].want.RisksLayer? && RequestWithin(r, d)
    ensures Delivers(s, Run(s, steps, d), id, RisksLayer, RisksAt(s.stores, r, s.calls[id].keys), r.now + r.risksTook)
  {
    hide Run, GetEntry, SetEntry, SummaryAt, RisksAt, Delivers, Looked, Missed, WithEntry;
    steps := [Move(id, r.now)];
    if Cached(s, RisksLayer, s.calls[id].keys.risks, r.now).Some? {
      RisksHit(s, id, r, d);
    } else {
      var s1, ks := Looked(s, id, RisksLayer, r.now), s.calls[id].keys;
      LookedMiss(s, id, RisksLayer, r.now);
      RisksMiss(s.stores, r, ks);
      var below := SummarySteps(s1, id, r, d);
      var out := SummaryAt(Missed(s.stores, ks.risks, r.now), r, ks);
      var now := r.now + r.risksTook;
      var rest := LayerSteps(s1, id, RisksLayer, below, out, r.now + r.summaryTook, now, d);
      AfterLook(s, id, RisksLayer, r.now, rest, (WithEntry(out.0, ks.risks, out.1, now), out.1), now, d);
      steps := steps + rest;
    }
  }

  /** A risks call that nothing overlaps is a run of its steps. */
  lemma {:induction false} RisksSteps(s: State, id: CallId, r: Request, d: nat) returns (steps: seq<Step>)
    requires id !in s.calls && RequestWithin(r, d)
    ensures var s' := Run(s, steps, d); var p := Risks(s.stores, r);
      s'.stores == p.0 && id in s'.calls && s'.calls[id].stage.Answered? && s'.calls[id].stage.payload == p.1
  {
    var begin := [Begin(id, RisksLayer, r.companyId, r.query, SIGNAL_QUERY, r.now)];
    RunOne(s, begin[0], d);
    var s0 := Run(s, begin, d);
    hide RisksAt, CommandKey, AuditKey, Run;
    var rest := RisksFrom(s0, id, r, d);
    RunConcat(s, begin, rest, d);
    steps := begin + rest;
  }
}
