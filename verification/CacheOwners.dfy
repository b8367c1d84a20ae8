/**
 * Whose data the cached views hand out: over every run of overlapping calls, each answer was
 * computed for the company that asked
 * (src/modules/command-center-enterprise/command-center-enterprise.service.ts,
 * src/modules/audit-intelligence-enterprise/audit-intelligence-enterprise.service.ts).
 * Ids and the values of a query hold no bar.
 */
module CacheOwners {
  import opened CacheKeys
  import opened CacheRuns
  import opened Entities
  import opened LayeredCache
  import opened TtlStore
  import opened Wrappers

  // What the stores hold.

  predicate AuditEntryOf(e: Entry<Payload>, companyId: Id, q: AuditQuery) {
    && Plain(companyId) && PlainAuditQuery(q)
    && e.key == AuditKey(companyId, q) && e.payload.companyId == companyId
  }

  predicate CommandEntryOf(e: Entry<Payload>, scope: string, companyId: Id, q: Query) {
    && scope in {SUMMARY, RISKS} && Plain(companyId) && PlainQuery(q)
    && e.key == CommandKey(scope, companyId, q)
    && e.payload.companyId == companyId && e.payload.view == Some(ViewOf(q))
  }

  ghost predicate AuditOwned(e: Entry<Payload>) {
    exists companyId, q :: AuditEntryOf(e, companyId, q)
  }

  ghost predicate CommandOwned(e: Entry<Payload>) {
    exists scope, companyId, q :: CommandEntryOf(e, scope, companyId, q)
  }

  /** Each entry holds a payload of the company, and of a query, that its key names. */
  ghost predicate OwnedStores(s: Stores) {
    && (forall i :: 0 <= i < |s.audit| ==> AuditOwned(s.audit[i]))
    && (forall i :: 0 <= i < |s.command| ==> CommandOwned(s.command[i]))
  }

  lemma ScopesArePlain()
    ensures Plain(SUMMARY) && Plain(RISKS) && SUMMARY != RISKS
  {
    assert SUMMARY[15] != RISKS[15];
  }

  /** The payload is a summary for the company, of a query with the same key. */
  ghost predicate SummaryFor(p: Payload, companyId: Id, q: Query) {
    p.companyId == companyId && exists made :: MadeFor(p, companyId, q, made)
  }

  predicate MadeFor(p: Payload, companyId: Id, q: Query, made: Query) {
    && PlainQuery(made) && p.view == Some(ViewOf(made))
    && CommandKey(SUMMARY, companyId, made) == CommandKey(SUMMARY, companyId, q)
  }

  lemma AuditHitOwn(s: Stores, companyId: Id, q: AuditQuery, now: int)
    requires OwnedStores(s) && Plain(companyId) && PlainAuditQuery(q)
    requires GetEntry(s.audit, AuditKey(companyId, q), now).1.Some?
    ensures GetEntry(s.audit, AuditKey(companyId, q), now).1.value.companyId == companyId
  {
    hide AuditKey;
    var e := s.audit[IndexOf(s.audit, AuditKey(companyId, q))];
    assert AuditOwned(e);
    var c: Id, made: AuditQuery :| AuditEntryOf(e, c, made);
    AuditKeysIff(companyId, q, c, made);
  }

  lemma CommandHitOwn(s: Stores, scope: string, companyId: Id, q: Query, now: int)
    requires OwnedStores(s) && scope in {SUMMARY, RISKS} && Plain(companyId) && PlainQuery(q)
    requires GetEntry(s.command, CommandKey(scope, companyId, q), now).1.Some?
    ensures SummaryFor(GetEntry(s.command, CommandKey(scope, companyId, q), now).1.value, companyId, q)
  {
    hide CommandKey, ViewOf;
    var e := s.command[IndexOf(s.command, CommandKey(scope, companyId, q))];
    assert CommandOwned(e);
    var scope': string, c: Id, made: Query :| CommandEntryOf(e, scope', c, made);
    ScopesArePlain();
    CommandKeysIff(scope, companyId, q, scope', c, made);
    CommandKeysIff(SUMMARY, companyId, q, SUMMARY, companyId, made);
    assert MadeFor(e.payload, companyId, q, made);
  }

  lemma AuditGetOwned(s: Stores, key: string, now: int)
    requires OwnedStores(s)
    ensures OwnedStores(s.(audit := GetEntry(s.audit, key, now).0))
  {
    hide AuditOwned, CommandOwned;
    var es := GetEntry(s.audit, key, now).0;
    forall i | 0 <= i < |es| ensures AuditOwned(es[i]) { GetKeeps(s.audit, key, now, i); }
  }

  lemma CommandGetOwned(s: Stores, key: string, now: int)
    requires OwnedStores(s)
    ensures OwnedStores(s.(command := GetEntry(s.command, key, now).0))
  {
    hide AuditOwned, CommandOwned;
    var es := GetEntry(s.command, key, now).0;
    forall i | 0 <= i < |es| ensures CommandOwned(es[i]) { GetKeeps(s.command, key, now, i); }
  }

  lemma AuditSetOwned(s: Stores, companyId: Id, q: AuditQuery, p: Payload, now: int)
    requires OwnedStores(s) && Plain(companyId) && PlainAuditQuery(q) && p.companyId == companyId
    ensures OwnedStores(s.(audit := SetEntry(s.audit, AuditKey(companyId, q), p, now)))
  {
    hide AuditKey;
    var es := SetEntry(s.audit, AuditKey(companyId, q), p, now);
    forall i | 0 <= i < |es| ensures AuditOwned(es[i]) {
      SetKeeps(s.audit, AuditKey(companyId, q), p, now, i);
      assert AuditEntryOf(Entry(AuditKey(companyId, q), now + TTL_MS, p), companyId, q);
    }
  }

  lemma CommandSetOwned(s: Stores, scope: string, companyId: Id, q: Query, p: Payload, now: int)
    requires OwnedStores(s) && scope in {SUMMARY, RISKS} && Plain(companyId) && PlainQuery(q)
    requires SummaryFor(p, companyId, q)
    ensures OwnedStores(s.(command := SetEntry(s.command, CommandKey(scope, companyId, q), p, now)))
  {
    hide CommandKey, ViewOf;
    var made: Query :| MadeFor(p, companyId, q, made);
    ScopesArePlain();
    CommandKeysIff(SUMMARY, companyId, q, SUMMARY, companyId, made);
    CommandKeysIff(scope, companyId, q, scope, companyId, made);
    var es := SetEntry(s.command, CommandKey(scope, companyId, q), p, now);
    forall i | 0 <= i < |es| ensures CommandOwned(es[i]) {
      SetKeeps(s.command, CommandKey(scope, companyId, q), p, now, i);
      assert CommandEntryOf(Entry(CommandKey(scope, companyId, q), now + TTL_MS, p), scope, companyId, made);
    }
  }

  // Calls.

  ghost predicate KeysOwn(c: Call) {
    && Plain(c.companyId) && PlainQuery(c.query)
    && c.keys.summary == CommandKey(SUMMARY, c.companyId, c.query)
    && c.keys.risks == CommandKey(RISKS, c.companyId, c.query)
    && exists q :: PlainAuditQuery(q) && c.keys.audit == AuditKey(c.companyId, q)
  }

  /** A payload that a call may have from a layer. */
  ghost predicate OwnPayload(c: Call, layer: Layer, p: Payload) {
    p.companyId == c.companyId && (!layer.AuditLayer? ==> SummaryFor(p, c.companyId, c.query))
  }

  ghost predicate OwnCall(c: Call) {
    && KeysOwn(c)
    && match c.stage
       case Obtained(layer, p) => OwnPayload(c, if layer.RisksLayer? then SummaryLayer else AuditLayer, p)
       case Answered(p, _) => OwnPayload(c, c.want, p)
       case _ => true
  }

  ghost predicate Owned(s: State) {
    OwnedStores(s.stores) && forall id :: id in s.calls ==> OwnCall(s.calls[id])
  }

  /** Calls begin with ids and queries that hold no bar. */
  predicate PlainStep(step: Step) {
    step.Begin? ==> Plain(step.companyId) && PlainQuery(step.query) && PlainAuditQuery(step.auditQuery)
  }

  lemma CachedOwn(s: State, c: Call, layer: Layer, now: int)
    requires OwnedStores(s.stores) && KeysOwn(c) && Cached(s, layer, KeyOf(c, layer), now).Some?
    ensures OwnPayload(c, layer, Cached(s, layer, KeyOf(c, layer), now).value)
  {
    hide OwnedStores, GetEntry, CommandKey, AuditKey, SummaryFor;
    match layer
    case AuditLayer =>
      var q :| PlainAuditQuery(q) && c.keys.audit == AuditKey(c.companyId, q);
      AuditHitOwn(s.stores, c.companyId, q, now);
    case SummaryLayer =>
      CommandHitOwn(s.stores, SUMMARY, c.companyId, c.query, now);
      SummaryNames(Cached(s, layer, KeyOf(c, layer), now).value, c.companyId, c.query);
    case RisksLayer =>
      CommandHitOwn(s.stores, RISKS, c.companyId, c.query, now);
      SummaryNames(Cached(s, layer, KeyOf(c, layer), now).value, c.companyId, c.query);
  }

  lemma SummaryNames(p: Payload, companyId: Id, q: Query)
    requires SummaryFor(p, companyId, q)
    ensures p.companyId == companyId
  {
  }

  lemma SummarisedOwn(signal: Payload, companyId: Id, q: Query)
    requires signal.companyId == companyId && PlainQuery(q)
    ensures SummaryFor(Summarised(signal, q), companyId, q)
  {
    assert MadeFor(Summarised(signal, q), companyId, q, q);
  }

  lemma LookUpOwned(s: State, layer: Layer, key: string, now: int)
    requires OwnedStores(s.stores)
    ensures OwnedStores(LookUp(s, layer, key, now).stores)
  {
    hide OwnedStores, GetEntry;
    if layer.AuditLayer? { AuditGetOwned(s.stores, key, now); } else { CommandGetOwned(s.stores, key, now); }
  }

  lemma WriteOwned(s: State, c: Call, layer: Layer, p: Payload, now: int)
    requires OwnedStores(s.stores) && KeysOwn(c) && OwnPayload(c, layer, p)
    ensures OwnedStores(Write(s, layer, KeyOf(c, layer), p, now).stores)
  {
    hide OwnedStores, SetEntry, CommandKey, AuditKey, SummaryFor;
    match layer
    case AuditLayer =>
      var q :| PlainAuditQuery(q) && c.keys.audit == AuditKey(c.companyId, q);
      AuditSetOwned(s.stores, c.companyId, q, p, now);
    case SummaryLayer => CommandSetOwned(s.stores, SUMMARY, c.companyId, c.query, p, now);
    case RisksLayer => CommandSetOwned(s.stores, RISKS, c.companyId, c.query, p, now);
  }

  lemma PassedOwn(c: Call, layer: Layer, p: Payload, now: int)
    requires KeysOwn(c) && OwnPayload(c, layer, p)
    ensures OwnCall(Passed(c, layer, p, now))
  {
    hide SummaryFor, CommandKey, AuditKey;
  }

  lemma ComposedOwn(c: Call, layer: Layer, p: Payload)
    requires KeysOwn(c) && !layer.AuditLayer?
    requires OwnPayload(c, if layer.RisksLayer? then SummaryLayer else AuditLayer, p)
    ensures OwnPayload(c, layer, Composed(c, layer, p))
  {
    hide SummaryFor, CommandKey, AuditKey;
    if layer.SummaryLayer? { SummarisedOwn(p, c.companyId, c.query); }
  }

  lemma MoveOwned(s: State, id: CallId, now: int)
    requires Owned(s) && id in s.calls && !s.calls[id].stage.Answered?
    requires s.calls[id].stage.Obtained? ==> !s.calls[id].stage.layer.AuditLayer?
    ensures Owned(Moved(s, id, now))
  {
    var c := s.calls[id];
    assert OwnCall(c);
    hide OwnedStores, KeysOwn, OwnPayload, GetEntry, SetEntry, KeyOf, LookUp, Write;
    match c.stage
    case Looking(layer) =>
      LookUpOwned(s, layer, KeyOf(c, layer), now);
      var cached := Cached(s, layer, KeyOf(c, layer), now);
      if cached.Some? {
        CachedOwn(s, c, layer, now);
        PassedOwn(c, layer, cached.value, now);
      } else {
        StartedOwn(c, layer, now);
      }
    case Reading => ReadOwn(c, now);
    case Read(readAt) =>
      var p := Payload(c.companyId, None, Some(readAt));
      AuditPayloadOwn(c, p);
      WriteOwned(s, c, AuditLayer, p, now);
      PassedOwn(c, AuditLayer, p, now);
    case Obtained(layer, p) =>
      ComposedOwn(c, layer, p);
      WriteOwned(s, c, layer, Composed(c, layer, p), now);
      PassedOwn(c, layer, Composed(c, layer, p), now);
  }

  lemma AuditPayloadOwn(c: Call, p: Payload)
    requires p.companyId == c.companyId
    ensures OwnPayload(c, AuditLayer, p)
  {
  }

  lemma StartedOwn(c: Call, layer: Layer, now: int)
    requires KeysOwn(c)
    ensures OwnCall(Started(c, layer, now))
  {
    hide CommandKey, AuditKey;
  }

  lemma ReadOwn(c: Call, now: int)
    requires KeysOwn(c)
    ensures OwnCall(c.(last := now, stage := Read(now)))
  {
    hide CommandKey, AuditKey;
  }

  lemma StepOwned(s: State, step: Step, d: nat)
    requires Owned(s) && Fresh(s, d) && Enabled(s, step, d) && PlainStep(step)
    ensures Owned(Apply(s, step, d))
  {
    match step
    case Begin(id, want, companyId, q, aq, now) =>
      var audit := if want.AuditLayer? then aq else SIGNAL_QUERY;
      assert PlainAuditQuery(audit);
      hide OwnedStores, CommandKey, AuditKey;
    case Fail(id, now) =>
      var c := s.calls[id];
      assert OwnCall(c);
      hide OwnedStores, KeysOwn, OwnPayload;
      AuditPayloadOwn(c, Payload(c.companyId, None, None));
      PassedOwn(c, AuditLayer, Payload(c.companyId, None, None), now);
    case Move(id, now) =>
      assert CallFresh(s.calls[id], d);
      hide Owned, Moved;
      MoveOwned(s, id, now);
  }

  lemma {:induction false} RunOwned(steps: seq<Step>, d: nat)
    requires forall k :: 0 <= k < |steps| ==> PlainStep(steps[k])
    ensures Owned(CacheRuns.Run(Initial(), steps, d))
    decreases |steps|
  {
    if steps != [] {
      var n := |steps| - 1;
      RunOwned(steps[..n], d);
      RunFresh(steps[..n], d);
      var s := CacheRuns.Run(Initial(), steps[..n], d);
      hide Owned, Fresh;
      if Enabled(s, steps[n], d) { StepOwned(s, steps[n], d); }
    }
  }

  /**
   * However calls overlap, an answer is for the company that asked; and a summary or risks answer is
   * the view asked for, but for the audit list when the query leaves it unclear.
   */
  lemma OwnAnswers(steps: seq<Step>, d: nat, id: CallId)
    requires forall k :: 0 <= k < |steps| ==> PlainStep(steps[k])
    requires var s := CacheRuns.Run(Initial(), steps, d); id in s.calls && s.calls[id].stage.Answered?
    ensures var c := CacheRuns.Run(Initial(), steps, d).calls[id]; var p := c.stage.payload;
      && p.companyId == c.companyId
      && (!c.want.AuditLayer? ==>
            && p.view.Some? && p.view.value.(audit := ViewOf(c.query).audit) == ViewOf(c.query)
            && (!AuditUnclear(c.query) ==> p.view == Some(ViewOf(c.query))))
  {
    RunOwned(steps, d);
    var c := CacheRuns.Run(Initial(), steps, d).calls[id];
    assert OwnCall(c);
    if !c.want.AuditLayer? { SummaryView(c.stage.payload, c.companyId, c.query); }
  }

  lemma SummaryView(p: Payload, companyId: Id, q: Query)
    requires SummaryFor(p, companyId, q) && Plain(companyId) && PlainQuery(q)
    ensures p.view.Some? && p.view.value.(audit := ViewOf(q).audit) == ViewOf(q)
    ensures !AuditUnclear(q) ==> p.view == Some(ViewOf(q))
  {
    hide CommandKey;
    var made: Query :| MadeFor(p, companyId, q, made);
    ScopesArePlain();
    SameKeySameView(SUMMARY, companyId, q, made);
  }

  // A view that was not asked for.

  /** The query that differs in leaving `includeAudit` out, or in refusing the list. */
  function Twin(q: Query): Query {
    q.(includeAudit := if q.includeAudit.None? then Some("false") else None)
  }

  lemma RunNext(steps: seq<Step>, step: Step, d: nat)
    ensures CacheRuns.Run(Initial(), steps + [step], d) == CacheRuns.After(CacheRuns.Run(Initial(), steps, d), step, d)
  {
    assert (steps + [step])[..|steps|] == steps;
  }

  /** A summary call from the start, alone. */
  function FirstSummary(companyId: Id, q: Query): seq<Step> {
    [Begin(0, SummaryLayer, companyId, q, SIGNAL_QUERY, 0)] + [Move(0, 0)] + [Move(0, 0)] + [Move(0, 0)]
    + [Move(0, 0)] + [Move(0, 0)]
  }

  lemma FirstSummaryStored(companyId: Id, q: Query)
    ensures var s := CacheRuns.Run(Initial(), FirstSummary(companyId, q), 0);
      s.stores.command == [Entry(CommandKey(SUMMARY, companyId, q), 30_000,
                                 Payload(companyId, Some(ViewOf(q)), Some(0)))]
      && s.calls.Keys == {0}
  {
    hide CommandKey, AuditKey, ViewOf;
    var a := [Begin(0, SummaryLayer, companyId, q, SIGNAL_QUERY, 0)];
    var keys := KeysFor(SummaryLayer, companyId, q, SIGNAL_QUERY);
    var c := Call(companyId, q, SummaryLayer, keys, Looking(SummaryLayer), 0, 0, 0, 0);
    RunNext([], a[0], 0);
    assert [] + a == a;
    var s1 := CacheRuns.Run(Initial(), a, 0);
    assert s1.stores == Stores([], []) && s1.calls == map[0 := c];
    RunNext(a, Move(0, 0), 0);
    var b := a + [Move(0, 0)];
    var s2 := CacheRuns.Run(Initial(), b, 0);
    assert s2.stores == s1.stores && s2.calls == map[0 := c.(stage := Looking(AuditLayer))];
    RunNext(b, Move(0, 0), 0);
    b := b + [Move(0, 0)];
    var s3 := CacheRuns.Run(Initial(), b, 0);
    assert s3.stores == s1.stores && s3.calls == map[0 := c.(stage := Reading)];
    RunNext(b, Move(0, 0), 0);
    b := b + [Move(0, 0)];
    var s4 := CacheRuns.Run(Initial(), b, 0);
    assert s4.stores == s1.stores && s4.calls == map[0 := c.(stage := Read(0))];
    RunNext(b, Move(0, 0), 0);
    b := b + [Move(0, 0)];
    var s5 := CacheRuns.Run(Initial(), b, 0);
    var signal := Payload(companyId, None, Some(0));
    assert s5.stores.command == [] && s5.calls == map[0 := c.(stage := Obtained(SummaryLayer, signal))];
    RunNext(b, Move(0, 0), 0);
  }

  /** One that asks with the audit list left out gets the answer of one that refused it, or the reverse. */
  lemma UnclearIsReached(companyId: Id, q: Query)
    requires AuditUnclear(q)
    ensures var begin := Begin(1, SummaryLayer, companyId, q, SIGNAL_QUERY, 0);
      var s := CacheRuns.Run(Initial(), FirstSummary(companyId, Twin(q)) + [begin] + [Move(1, 0)], 0);
      && 1 in s.calls && s.calls[1].stage.Answered?
      && s.calls[1].want == SummaryLayer && s.calls[1].companyId == companyId && s.calls[1].query == q
      && s.calls[1].stage.payload.view == Some(ViewOf(Twin(q))) && ViewOf(Twin(q)) != ViewOf(q)
  {
    var first, begin := FirstSummary(companyId, Twin(q)), Begin(1, SummaryLayer, companyId, q, SIGNAL_QUERY, 0);
    FirstSummaryStored(companyId, Twin(q));
    assert ViewOf(Twin(q)).audit != ViewOf(q).audit;
    assert CommandParts(SUMMARY, companyId, Twin(q)) == CommandParts(SUMMARY, companyId, q);
    assert CommandKey(SUMMARY, companyId, Twin(q)) == CommandKey(SUMMARY, companyId, q);
    hide CommandKey, AuditKey, ViewOf, FirstSummary;
    RunNext(first, begin, 0);
    RunNext(first + [begin], Move(1, 0), 0);
    var s := CacheRuns.Run(Initial(), first + [begin], 0);
    assert s.calls[1].stage == Looking(SummaryLayer) && s.calls[1].keys.summary == CommandKey(SUMMARY, companyId, q);
    assert GetEntry(s.stores.command, CommandKey(SUMMARY, companyId, q), 0).1
        == Some(Payload(companyId, Some(ViewOf(Twin(q))), Some(0)));
  }

  /** On every run, a summary call with this query is answered with the view it asked for. */
  ghost predicate AnsweredAsAsked(companyId: Id, q: Query) {
    forall steps: seq<Step>, d: nat, id: CallId ::
      (forall k :: 0 <= k < |steps| ==> PlainStep(steps[k])) && AnsweredSummary(steps, d, id, companyId, q) ==>
        CacheRuns.Run(Initial(), steps, d).calls[id].stage.payload.view == Some(ViewOf(q))
  }

  ghost predicate AnsweredSummary(steps: seq<Step>, d: nat, id: CallId, companyId: Id, q: Query) {
    var s := CacheRuns.Run(Initial(), steps, d);
    && id in s.calls && s.calls[id].want == SummaryLayer && s.calls[id].stage.Answered?
    && s.calls[id].companyId == companyId && s.calls[id].query == q
  }

  /** That holds exactly for the queries that ask for the audit list in so many words. */
  lemma AnsweredAsAskedIff(companyId: Id, q: Query)
    requires Plain(companyId) && PlainQuery(q)
    ensures AnsweredAsAsked(companyId, q) <==> !AuditUnclear(q)
  {
    if AuditUnclear(q) {
      UnclearIsReached(companyId, q);
      var begin := Begin(1, SummaryLayer, companyId, q, SIGNAL_QUERY, 0);
      var steps := FirstSummary(companyId, Twin(q)) + [begin] + [Move(1, 0)];
      assert PlainQuery(Twin(q));
      assert forall k :: 0 <= k < |steps| ==> PlainStep(steps[k]);
      hide ViewOf, CacheRuns.Run;
      assert AnsweredSummary(steps, 0, 1, companyId, q);
      assert !AnsweredAsAsked(companyId, q);
    } else {
      hide ViewOf, CacheRuns.Run;
      forall steps: seq<Step>, d: nat, id: CallId |
        (forall k :: 0 <= k < |steps| ==> PlainStep(steps[k])) && AnsweredSummary(steps, d, id, companyId, q)
        ensures CacheRuns.Run(Initial(), steps, d).calls[id].stage.payload.view == Some(ViewOf(q))
      {
        OwnAnswers(steps, d, id);
      }
    }
  }

  // The calls one after the other.

  predicate PlainRequest(r: Request) {
    Plain(r.companyId) && PlainQuery(r.query)
  }

  lemma ExecutiveOwned(s: Stores, companyId: Id, q: AuditQuery, now: int, up: bool, took: nat)
    requires OwnedStores(s) && Plain(companyId) && PlainAuditQuery(q)
    ensures OwnedStores(Executive(s, companyId, q, now, up, took).0)
    ensures Executive(s, companyId, q, now, up, took).1.companyId == companyId
  {
    hide OwnedStores, GetEntry, SetEntry, AuditKey;
    AuditGetOwned(s, AuditKey(companyId, q), now);
    var s1 := s.(audit := GetEntry(s.audit, AuditKey(companyId, q), now).0);
    if GetEntry(s.audit, AuditKey(companyId, q), now).1.Some? {
      AuditHitOwn(s, companyId, q, now);
    } else if up {
      AuditSetOwned(s1, companyId, q, Payload(companyId, None, Some(now)), now + took);
    }
  }

  lemma SummaryOwned(s: Stores, r: Request)
    requires OwnedStores(s) && PlainRequest(r)
    ensures OwnedStores(Summary(s, r).0) && SummaryFor(Summary(s, r).1, r.companyId, r.query)
  {
    hide OwnedStores, GetEntry, SetEntry, AuditKey, CommandKey, SummaryFor, ExecutiveAt;
    var key := CommandKey(SUMMARY, r.companyId, r.query);
    var (command, cached) := GetEntry(s.command, key, r.now);
    if cached.Some? {
      CommandHitOwn(s, SUMMARY, r.companyId, r.query, r.now);
    } else {
      CommandGetOwned(s, key, r.now);
      var s0 := s.(command := command);
      ExecutiveOwned(s0, r.companyId, SIGNAL_QUERY, r.now, r.auditUp, r.auditTook);
      var (s1, signal) := Executive(s0, r.companyId, SIGNAL_QUERY, r.now, r.auditUp, r.auditTook);
      SummarisedOwn(signal, r.companyId, r.query);
      CommandSetOwned(s1, SUMMARY, r.companyId, r.query, Summarised(signal, r.query), r.now + r.summaryTook);
    }
  }

  lemma RisksOwned(s: Stores, r: Request)
    requires OwnedStores(s) && PlainRequest(r)
    ensures OwnedStores(Risks(s, r).0) && SummaryFor(Risks(s, r).1, r.companyId, r.query)
  {
    hide OwnedStores, GetEntry, SetEntry, AuditKey, CommandKey, SummaryFor, SummaryAt;
    var key := CommandKey(RISKS, r.companyId, r.query);
    var (command, cached) := GetEntry(s.command, key, r.now);
    if cached.Some? {
      CommandHitOwn(s, RISKS, r.companyId, r.query, r.now);
    } else {
      CommandGetOwned(s, key, r.now);
      var s0 := s.(command := command);
      SummaryOwned(s0, r);
      var (s1, payload) := Summary(s0, r);
      CommandSetOwned(s1, RISKS, r.companyId, r.query, payload, r.now + r.risksTook);
    }
  }

  /** The payload is for the company that asks, and of the view asked for if the query is clear. */
  predicate Answers(p: Payload, r: Request) {
    && p.companyId == r.companyId
    && p.view.Some? && p.view.value.(audit := ViewOf(r.query).audit) == ViewOf(r.query)
    && (!AuditUnclear(r.query) ==> p.view == Some(ViewOf(r.query)))
  }

  lemma OwnedAnswers(p: Payload, r: Request)
    requires SummaryFor(p, r.companyId, r.query) && PlainRequest(r)
    ensures Answers(p, r)
  {
    SummaryView(p, r.companyId, r.query);
  }
}
