/**
 * Three cached layers: the audit executive view, the command center summary built
 * on it, and the risks view built on the summary
 * (src/modules/command-center-enterprise/command-center-enterprise.service.ts,
 * src/modules/audit-intelligence-enterprise/audit-intelligence-enterprise.service.ts).
 * The time a payload's audit data was read is none if that service failed.
 */
module LayeredCache {
  import opened CacheKeys
  import opened Entities
  import opened TtlStore
  import opened Wrappers

  /** Whose data a payload is, the view of a summary, and the time its audit data was read. */
  datatype Payload = Payload(companyId: Id, view: Option<View>, auditReadAt: Option<int>)

  predicate IsSummaryKey(key: string) {
    SUMMARY <= key
  }

  /** One store holds both scopes without confusing them. */
  lemma ScopesDiffer(companyId: Id, q: Query, companyId': Id, q': Query)
    ensures IsSummaryKey(CommandKey(SUMMARY, companyId, q)) && !IsSummaryKey(CommandKey(RISKS, companyId', q'))
  {
    assert CommandKey(RISKS, companyId', q')[15] == 'r' && SUMMARY[15] == 's';
  }

  datatype Stores = Stores(audit: seq<Entry<Payload>>, command: seq<Entry<Payload>>)

  /** A call reads its store when it starts and writes it when it ends, some milliseconds later. */
  datatype Request = Request(companyId: Id, query: Query, now: int, auditUp: bool, auditTook: nat, summaryTook: nat,
    risksTook: nat)

  /** The keys a request uses. */
  datatype Keys = Keys(audit: string, summary: string, risks: string)

  function KeysOf(r: Request): Keys {
    Keys(AuditKey(r.companyId, SIGNAL_QUERY), CommandKey(SUMMARY, r.companyId, r.query),
      CommandKey(RISKS, r.companyId, r.query))
  }

  function ExecutiveAt(s: Stores, key: string, companyId: Id, now: int, up: bool, took: nat): (Stores, Payload) {
    var (audit, cached) := GetEntry(s.audit, key, now);
    if cached.Some? then (s, cached.value)
    else if !up then (s.(audit := audit), Payload(companyId, None, None))
    else
      var payload := Payload(companyId, None, Some(now));
      (s.(audit := SetEntry(audit, key, payload, now + took)), payload)
  }

  /** The summary made from the audit signal. */
  function Summarised(signal: Payload, q: Query): Payload {
    signal.(view := Some(ViewOf(q)))
  }

  function SummaryAt(s: Stores, r: Request, ks: Keys): (Stores, Payload) {
    var (command, cached) := GetEntry(s.command, ks.summary, r.now);
    if cached.Some? then (s, cached.value)
    else
      var (s1, signal) := ExecutiveAt(s.(command := command), ks.audit, r.companyId, r.now, r.auditUp, r.auditTook);
      var payload := Summarised(signal, r.query);
      (s1.(command := SetEntry(s1.command, ks.summary, payload, r.now + r.summaryTook)), payload)
  }

  function RisksAt(s: Stores, r: Request, ks: Keys): (Stores, Payload) {
    var (command, cached) := GetEntry(s.command, ks.risks, r.now);
    if cached.Some? then (s, cached.value)
    else
      var (s1, payload) := SummaryAt(s.(command := command), r, ks);
      (s1.(command := SetEntry(s1.command, ks.risks, payload, r.now + r.risksTook)), payload)
  }

  function Executive(s: Stores, companyId: Id, q: AuditQuery, now: int, up: bool, took: nat): (Stores, Payload) {
    ExecutiveAt(s, AuditKey(companyId, q), companyId, now, up, took)
  }

  function Summary(s: Stores, r: Request): (Stores, Payload) {
    SummaryAt(s, r, KeysOf(r))
  }

  function Risks(s: Stores, r: Request): (Stores, Payload) {
    RisksAt(s, r, KeysOf(r))
  }

  /** No layer of the request takes longer than d, and a layer ends no sooner than the one below it. */
  predicate RequestWithin(r: Request, d: nat) {
    r.auditTook <= r.summaryTook <= r.risksTook <= d
  }

  // How old the audit data of an entry can be.

  /** The audit data was read at most so long before the entry expires. */
  predicate Younger(e: Entry<Payload>, age: int) {
    e.payload.auditReadAt.Some? ==> e.expiresAt - e.payload.auditReadAt.value <= age
  }

  function AuditAge(d: nat): int { TTL_MS + d }

  function SummaryAge(d: nat): int { (TTL_MS - 1) + TTL_MS + 2 * d }

  function RisksAge(d: nat): int { 2 * (TTL_MS - 1) + TTL_MS + 3 * d }

  ghost predicate AuditFresh(es: seq<Entry<Payload>>, d: nat) {
    forall i :: 0 <= i < |es| ==> Younger(es[i], AuditAge(d))
  }

  /** Entries under a summary's key are a layer younger. */
  ghost predicate CommandFresh(es: seq<Entry<Payload>>, d: nat, isSummary: string -> bool) {
    forall i :: 0 <= i < |es| ==> Younger(es[i], if isSummary(es[i].key) then SummaryAge(d) else RisksAge(d))
  }

  ghost predicate FreshStores(s: Stores, d: nat, isSummary: string -> bool) {
    AuditFresh(s.audit, d) && CommandFresh(s.command, d, isSummary)
  }

  lemma GetKeeps(es: seq<Entry<Payload>>, key: string, now: int, i: nat)
    requires i < |GetEntry(es, key, now).0|
    ensures GetEntry(es, key, now).0[i] in es
  {
  }

  lemma SetKeeps(es: seq<Entry<Payload>>, key: string, payload: Payload, now: int, i: nat)
    requires i < |SetEntry(es, key, payload, now)|
    ensures var e := SetEntry(es, key, payload, now)[i];
      e in es || e == Entry(key, now + TTL_MS, payload)
  {
  }

  lemma {:induction false} AuditFreshGet(es: seq<Entry<Payload>>, key: string, now: int, d: nat)
    requires AuditFresh(es, d)
    ensures AuditFresh(GetEntry(es, key, now).0, d)
  {
    var es1 := GetEntry(es, key, now).0;
    forall i | 0 <= i < |es1| ensures Younger(es1[i], AuditAge(d)) { GetKeeps(es, key, now, i); }
  }

  lemma {:induction false} AuditFreshSet(es: seq<Entry<Payload>>, key: string, p: Payload, now: int, d: nat)
    requires AuditFresh(es, d) && Younger(Entry(key, now + TTL_MS, p), AuditAge(d))
    ensures AuditFresh(SetEntry(es, key, p, now), d)
  {
    var es1 := SetEntry(es, key, p, now);
    forall i | 0 <= i < |es1| ensures Younger(es1[i], AuditAge(d)) { SetKeeps(es, key, p, now, i); }
  }

  lemma {:induction false} CommandFreshGet(es: seq<Entry<Payload>>, key: string, now: int, d: nat,
          isSummary: string -> bool)
    requires CommandFresh(es, d, isSummary)
    ensures CommandFresh(GetEntry(es, key, now).0, d, isSummary)
  {
    var es1 := GetEntry(es, key, now).0;
    forall i | 0 <= i < |es1| ensures Younger(es1[i], if isSummary(es1[i].key) then SummaryAge(d) else RisksAge(d)) {
      GetKeeps(es, key, now, i);
    }
  }

  lemma {:induction false} CommandFreshSet(es: seq<Entry<Payload>>, key: string, payload: Payload, now: int,
          d: nat, isSummary: string -> bool)
    requires CommandFresh(es, d, isSummary)
    requires Younger(Entry(key, now + TTL_MS, payload), if isSummary(key) then SummaryAge(d) else RisksAge(d))
    ensures CommandFresh(SetEntry(es, key, payload, now), d, isSummary)
  {
    var es1 := SetEntry(es, key, payload, now);
    forall i | 0 <= i < |es1| ensures Younger(es1[i], if isSummary(es1[i].key) then SummaryAge(d) else RisksAge(d)) {
      SetKeeps(es, key, payload, now, i);
    }
  }

  /** Audit data handed out at `now` is at most so old. */
  predicate AgeAt(p: Payload, now: int, age: int) {
    p.auditReadAt.Some? ==> now - p.auditReadAt.value <= age
  }

  /** A hit on a fresh entry. */
  lemma {:induction false} HitFresh(es: seq<Entry<Payload>>, key: string, now: int, d: nat, isSummary: string -> bool)
    requires CommandFresh(es, d, isSummary) && GetEntry(es, key, now).1.Some?
    ensures AgeAt(GetEntry(es, key, now).1.value, now, (if isSummary(key) then SummaryAge(d) else RisksAge(d)) - 1)
  {
    var k := IndexOf(es, key);
    assert Younger(es[k], if isSummary(key) then SummaryAge(d) else RisksAge(d));
  }

  lemma {:induction false} ExecutiveFresh(s: Stores, key: string, companyId: Id, now: int, up: bool, took: nat, d: nat,
          isSummary: string -> bool)
    requires FreshStores(s, d, isSummary) && took <= d
    ensures FreshStores(ExecutiveAt(s, key, companyId, now, up, took).0, d, isSummary)
    ensures AgeAt(ExecutiveAt(s, key, companyId, now, up, took).1, now, AuditAge(d) - 1)
  {
    AuditFreshGet(s.audit, key, now, d);
    AuditFreshSet(GetEntry(s.audit, key, now).0, key, Payload(companyId, None, Some(now)), now + took, d);
  }

  /** Writing what a lower layer handed out when the call started. */
  lemma {:induction false} StoreFresh(s: Stores, key: string, p: Payload, start: int, took: nat, age: int,
          d: nat, isSummary: string -> bool)
    requires FreshStores(s, d, isSummary) && took <= d && AgeAt(p, start, age)
    requires age + d + TTL_MS <= if isSummary(key) then SummaryAge(d) else RisksAge(d)
    ensures FreshStores(s.(command := SetEntry(s.command, key, p, start + took)), d, isSummary)
  {
    CommandFreshSet(s.command, key, p, start + took, d, isSummary);
  }

  lemma {:induction false} ForgetFresh(s: Stores, key: string, now: int, d: nat, isSummary: string -> bool)
    requires FreshStores(s, d, isSummary)
    ensures FreshStores(s.(command := GetEntry(s.command, key, now).0), d, isSummary)
  {
    CommandFreshGet(s.command, key, now, d, isSummary);
  }

  lemma {:induction false} SummaryFresh(s: Stores, r: Request, ks: Keys, d: nat, isSummary: string -> bool)
    requires FreshStores(s, d, isSummary) && RequestWithin(r, d) && isSummary(ks.summary)
    ensures FreshStores(SummaryAt(s, r, ks).0, d, isSummary)
    ensures AgeAt(SummaryAt(s, r, ks).1, r.now, SummaryAge(d) - 1)
  {
    hide GetEntry, SetEntry;
    var (command, cached) := GetEntry(s.command, ks.summary, r.now);
    if cached.Some? {
      HitFresh(s.command, ks.summary, r.now, d, isSummary);
    } else {
      var s0 := s.(command := command);
      var (s1, signal) := ExecutiveAt(s0, ks.audit, r.companyId, r.now, r.auditUp, r.auditTook);
      var payload := Summarised(signal, r.query);
      assert SummaryAt(s, r, ks)
          == (s1.(command := SetEntry(s1.command, ks.summary, payload, r.now + r.summaryTook)), payload);
      ForgetFresh(s, ks.summary, r.now, d, isSummary);
      ExecutiveFresh(s0, ks.audit, r.companyId, r.now, r.auditUp, r.auditTook, d, isSummary);
      StoreFresh(s1, ks.summary, payload, r.now, r.summaryTook, AuditAge(d) - 1, d, isSummary);
    }
  }

  /** When a risks call answers: at once on a hit, else when its layer is done. */
  function RisksDone(s: Stores, r: Request, ks: Keys): int {
    if GetEntry(s.command, ks.risks, r.now).1.Some? then r.now else r.now + r.risksTook
  }

  /** Audit data in a risks response is younger than three times to live, plus what the layers took. */
  lemma {:induction false} RisksFresh(s: Stores, r: Request, ks: Keys, d: nat, isSummary: string -> bool)
    requires FreshStores(s, d, isSummary) && RequestWithin(r, d) && isSummary(ks.summary) && !isSummary(ks.risks)
    ensures FreshStores(RisksAt(s, r, ks).0, d, isSummary)
    ensures AgeAt(RisksAt(s, r, ks).1, RisksDone(s, r, ks), RisksAge(d) - 1)
  {
    hide GetEntry, SetEntry;
    var (command, cached) := GetEntry(s.command, ks.risks, r.now);
    if cached.Some? {
      HitFresh(s.command, ks.risks, r.now, d, isSummary);
    } else {
      var s0 := s.(command := command);
      var (s1, payload) := SummaryAt(s0, r, ks);
      assert RisksAt(s, r, ks)
          == (s1.(command := SetEntry(s1.command, ks.risks, payload, r.now + r.risksTook)), payload);
      ForgetFresh(s, ks.risks, r.now, d, isSummary);
      SummaryFresh(s0, r, ks, d, isSummary);
      StoreFresh(s1, ks.risks, payload, r.now, r.risksTook, SummaryAge(d) - 1, d, isSummary);
    }
  }

  /** What every call keeps of the two stores: bounded, distinct keys, none empty, and audit data young enough. */
  ghost predicate Sane(s: Stores, d: nat) {
    Sound(s.audit) && Sound(s.command) && FreshStores(s, d, IsSummaryKey)
  }

  ghost predicate NamedKeys(ks: Keys) {
    ks.audit != "" && ks.summary != "" && ks.risks != "" && IsSummaryKey(ks.summary) && !IsSummaryKey(ks.risks)
  }

  lemma {:induction false} KeysAreNamed(auditKeyOf: AuditQuery, companyId: Id, q: Query)
    ensures NamedKeys(Keys(AuditKey(companyId, auditKeyOf), CommandKey(SUMMARY, companyId, q),
      CommandKey(RISKS, companyId, q)))
  {
    ScopesDiffer(companyId, q, companyId, q);
    AuditKeyNotEmpty(companyId, auditKeyOf);
    CommandKeyNotEmpty(SUMMARY, companyId, q);
    CommandKeyNotEmpty(RISKS, companyId, q);
  }

  lemma AuditKeyNotEmpty(companyId: Id, q: AuditQuery)
    ensures AuditKey(companyId, q) != ""
  {
  }

  lemma CommandKeyNotEmpty(scope: string, companyId: Id, q: Query)
    ensures CommandKey(scope, companyId, q) != ""
  {
  }

  lemma {:induction false} ExecutiveSane(s: Stores, key: string, companyId: Id, now: int, up: bool, took: nat, d: nat)
    requires Sane(s, d) && took <= d && key != ""
    ensures Sane(ExecutiveAt(s, key, companyId, now, up, took).0, d)
  {
    hide GetEntry, SetEntry, Sound, IsSummaryKey;
    GetKeepsSound(s.audit, key, now);
    SetKeepsSound(GetEntry(s.audit, key, now).0, key, Payload(companyId, None, Some(now)), now + took);
    ExecutiveFresh(s, key, companyId, now, up, took, d, IsSummaryKey);
  }

  lemma {:induction false} SummarySane(s: Stores, r: Request, ks: Keys, d: nat)
    requires Sane(s, d) && RequestWithin(r, d) && NamedKeys(ks)
    ensures Sane(SummaryAt(s, r, ks).0, d)
  {
    hide GetEntry, SetEntry, Sound, ExecutiveAt, IsSummaryKey;
    var s0 := s.(command := GetEntry(s.command, ks.summary, r.now).0);
    GetKeepsSound(s.command, ks.summary, r.now);
    ForgetFresh(s, ks.summary, r.now, d, IsSummaryKey);
    ExecutiveSane(s0, ks.audit, r.companyId, r.now, r.auditUp, r.auditTook, d);
    var (s1, signal) := ExecutiveAt(s0, ks.audit, r.companyId, r.now, r.auditUp, r.auditTook);
    SetKeepsSound(s1.command, ks.summary, Summarised(signal, r.query), r.now + r.summaryTook);
    SummaryFresh(s, r, ks, d, IsSummaryKey);
  }

  lemma {:induction false} RisksSane(s: Stores, r: Request, ks: Keys, d: nat)
    requires Sane(s, d) && RequestWithin(r, d) && NamedKeys(ks)
    ensures Sane(RisksAt(s, r, ks).0, d)
  {
    hide GetEntry, SetEntry, Sound, SummaryAt, IsSummaryKey;
    var s0 := s.(command := GetEntry(s.command, ks.risks, r.now).0);
    GetKeepsSound(s.command, ks.risks, r.now);
    ForgetFresh(s, ks.risks, r.now, d, IsSummaryKey);
    SummarySane(s0, r, ks, d);
    var (s1, payload) := SummaryAt(s0, r, ks);
    SetKeepsSound(s1.command, ks.risks, payload, r.now + r.risksTook);
    RisksFresh(s, r, ks, d, IsSummaryKey);
  }

  function RequestAt(companyId: Id, q: Query, now: int): Request {
    Request(companyId, q, now, true, 0, 0, 0)
  }

  lemma {:induction false} BoundReachedUnder(a: Request, b: Request, c: Request, ks: Keys)
    requires ks.summary != ks.risks && a.now == 29_999 && b.now == 59_998 && c.now == 89_997
    requires a.summaryTook == 0 && b.risksTook == 0
    ensures var s1 := ExecutiveAt(Stores([], []), ks.audit, a.companyId, 0, true, 0).0;
      RisksAt(RisksAt(SummaryAt(s1, a, ks).0, b, ks).0, c, ks).1
      == Payload(a.companyId, Some(ViewOf(a.query)), Some(0))
  {
    var read := Payload(a.companyId, None, Some(0));
    var s1 := ExecutiveAt(Stores([], []), ks.audit, a.companyId, 0, true, 0).0;
    assert s1 == Stores([Entry(ks.audit, 30_000, read)], []);
    var summary := Summarised(read, a.query);
    var s2 := SummaryAt(s1, a, ks).0;
    assert s2 == Stores(s1.audit, [Entry(ks.summary, 59_999, summary)]);
    var s3 := RisksAt(s2, b, ks).0;
    assert s3 == Stores(s1.audit, [Entry(ks.summary, 59_999, summary), Entry(ks.risks, 89_998, summary)]);
  }

  /** The bound is reached: each layer is read a millisecond before its entry expires. */
  lemma {:induction false} BoundReached(companyId: Id, q: Query)
    ensures var s1 := Executive(Stores([], []), companyId, SIGNAL_QUERY, 0, true, 0).0;
      var s2 := Summary(s1, RequestAt(companyId, q, 29_999)).0;
      var s3 := Risks(s2, RequestAt(companyId, q, 59_998)).0;
      Risks(s3, RequestAt(companyId, q, 89_997)).1 == Payload(companyId, Some(ViewOf(q)), Some(0))
  {
    var b, c, r := RequestAt(companyId, q, 29_999), RequestAt(companyId, q, 59_998), RequestAt(companyId, q, 89_997);
    ScopesDiffer(companyId, q, companyId, q);
    hide CommandKey, AuditKey;
    BoundReachedUnder(b, c, r, KeysOf(b));
  }
}
