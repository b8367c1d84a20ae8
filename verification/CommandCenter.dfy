/**
 * The cached calls over stores updated in place
 * (src/modules/command-center-enterprise/command-center-enterprise.service.ts,
 * src/modules/audit-intelligence-enterprise/audit-intelligence-enterprise.service.ts).
 */
module CommandCenter {
  import opened CacheKeys
  import opened CacheOwners
  import opened Entities
  import opened LayeredCache
  import opened TtlStore
  import opened Wrappers

  class AuditIntelligenceService {
    const cache: Store<Payload>

    constructor ()
      ensures fresh(cache) && cache.entries == []
    {
      cache := new Store();
    }

    method ExecutiveView(companyId: Id, q: AuditQuery, now: int, up: bool, took: nat) returns (payload: Payload)
      modifies cache
      ensures forall command :: (Stores(cache.entries, command), payload)
                             == Executive(Stores(old(cache.entries), command), companyId, q, now, up, took)
      ensures OwnedStores(Stores(old(cache.entries), [])) && Plain(companyId) && PlainAuditQuery(q) ==>
        OwnedStores(Stores(cache.entries, [])) && payload.companyId == companyId
    {
      hide OwnedStores;
      if OwnedStores(Stores(cache.entries, [])) && Plain(companyId) && PlainAuditQuery(q) {
        ExecutiveOwned(Stores(cache.entries, []), companyId, q, now, up, took);
      }
      var key := AuditKey(companyId, q);
      var cached := cache.Get(key, now);
      if cached.Some? { return cached.value; }
      if !up { return Payload(companyId, None, None); }
      payload := Payload(companyId, None, Some(now));
      cache.Set(key, payload, now + took);
    }
  }

  lemma {:induction false} SummaryKeepsSane(s: Stores, r: Request)
    ensures forall d: nat :: Sane(s, d) && RequestWithin(r, d) ==> Sane(Summary(s, r).0, d)
  {
    hide CommandKey, AuditKey, SummaryAt, NamedKeys;
    forall d: nat | Sane(s, d) && RequestWithin(r, d) ensures Sane(Summary(s, r).0, d) {
      KeysAreNamed(SIGNAL_QUERY, r.companyId, r.query);
      SummarySane(s, r, KeysOf(r), d);
    }
  }

  lemma {:induction false} RisksKeepsSane(s: Stores, r: Request)
    ensures forall d: nat :: Sane(s, d) && RequestWithin(r, d) ==>
      Sane(Risks(s, r).0, d) && AgeAt(Risks(s, r).1, RisksDone(s, r, KeysOf(r)), RisksAge(d) - 1)
  {
    hide CommandKey, AuditKey, RisksAt, RisksDone, IsSummaryKey;
    forall d: nat | Sane(s, d) && RequestWithin(r, d)
      ensures Sane(Risks(s, r).0, d) && AgeAt(Risks(s, r).1, RisksDone(s, r, KeysOf(r)), RisksAge(d) - 1)
    {
      KeysAreNamed(SIGNAL_QUERY, r.companyId, r.query);
      RisksSane(s, r, KeysOf(r), d);
      RisksFresh(s, r, KeysOf(r), d, IsSummaryKey);
    }
  }

  lemma SummaryKeepsOwned(s: Stores, r: Request)
    ensures OwnedStores(s) && PlainRequest(r) ==> OwnedStores(Summary(s, r).0) && Answers(Summary(s, r).1, r)
  {
    hide OwnedStores, Answers;
    if OwnedStores(s) && PlainRequest(r) {
      SummaryOwned(s, r);
      OwnedAnswers(Summary(s, r).1, r);
    }
  }

  lemma RisksKeepsOwned(s: Stores, r: Request)
    ensures OwnedStores(s) && PlainRequest(r) ==> OwnedStores(Risks(s, r).0) && Answers(Risks(s, r).1, r)
  {
    hide OwnedStores, Answers;
    if OwnedStores(s) && PlainRequest(r) {
      RisksOwned(s, r);
      OwnedAnswers(Risks(s, r).1, r);
    }
  }

  class CommandCenterService {
    const cache: Store<Payload>
    const auditService: AuditIntelligenceService

    ghost predicate Valid() {
      cache != auditService.cache
    }

    ghost function State(): Stores
      reads cache, auditService.cache
    {
      Stores(auditService.cache.entries, cache.entries)
    }

    constructor ()
      ensures Valid() && fresh(cache) && fresh(auditService) && fresh(auditService.cache)
      ensures State() == Stores([], []) && OwnedStores(State())
    {
      cache := new Store();
      auditService := new AuditIntelligenceService();
    }

    method SummaryPage(r: Request) returns (payload: Payload)
      requires Valid()
      modifies cache, auditService.cache
      ensures (State(), payload) == Summary(old(State()), r)
      ensures forall d: nat :: Sane(old(State()), d) && RequestWithin(r, d) ==> Sane(State(), d)
      ensures OwnedStores(old(State())) && PlainRequest(r) ==> OwnedStores(State()) && Answers(payload, r)
    {
      hide GetEntry, SetEntry, CommandKey, AuditKey, Sane, OwnedStores, Answers;
      SummaryKeepsSane(State(), r);
      SummaryKeepsOwned(State(), r);
      var key := CommandKey(SUMMARY, r.companyId, r.query);
      HitKeepsStore(cache.entries, key, r.now);
      var cached := cache.Get(key, r.now);
      if cached.Some? { return cached.value; }
      payload := auditService.ExecutiveView(r.companyId, SIGNAL_QUERY, r.now, r.auditUp, r.auditTook);
      payload := Summarised(payload, r.query);
      cache.Set(key, payload, r.now + r.summaryTook);
    }

    method RisksPage(r: Request) returns (payload: Payload)
      requires Valid()
      modifies cache, auditService.cache
      ensures (State(), payload) == Risks(old(State()), r)
      ensures forall d: nat :: Sane(old(State()), d) && RequestWithin(r, d) ==>
        && Sane(State(), d)
        && AgeAt(payload, RisksDone(old(State()), r, KeysOf(r)), RisksAge(d) - 1)
      ensures OwnedStores(old(State())) && PlainRequest(r) ==> OwnedStores(State()) && Answers(payload, r)
    {
      hide GetEntry, SetEntry, CommandKey, AuditKey, SummaryAt, Sane, OwnedStores, Answers;
      RisksKeepsSane(State(), r);
      RisksKeepsOwned(State(), r);
      var key := CommandKey(RISKS, r.companyId, r.query);
      HitKeepsStore(cache.entries, key, r.now);
      var cached := cache.Get(key, r.now);
      if cached.Some? { return cached.value; }
      payload := SummaryPage(r);
      cache.Set(key, payload, r.now + r.risksTook);
    }
  }
}
