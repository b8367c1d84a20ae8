/**
 * The keys of the cached views, and what the views themselves depend on
 * (src/modules/command-center-enterprise/command-center-enterprise.service.ts,
 * src/modules/audit-intelligence-enterprise/audit-intelligence-enterprise.service.ts).
 */
module CacheKeys {
  import opened Entities
  import opened Wrappers

  datatype Query = Query(
    limit: Option<string>, includeAudit: Option<string>, includeHealth: Option<string>, includeSamples: Option<string>)

  datatype AuditQuery = AuditQuery(lookback: Option<string>, limit: Option<string>,
    includeRecommendations: Option<string>)

  const SUMMARY := "command-center-summary"
  const RISKS := "command-center-risks"
  const SIGNAL_QUERY := AuditQuery(Some("300"), Some("10"), Some("true"))

  /** The parts with a bar between each two. */
  function Joined(parts: seq<string>): string {
    if parts == [] then ""
    else if |parts| == 1 then parts[0]
    else parts[0] + "|" + Joined(parts[1..])
  }

  function CommandKey(scope: string, companyId: Id, q: Query): string {
    Joined(CommandParts(scope, companyId, q))
  }

  function CommandParts(scope: string, companyId: Id, q: Query): seq<string> {
    [scope, companyId, "limit=" + q.limit.UnwrapOr("10"), "includeAudit=" + q.includeAudit.UnwrapOr("false"),
     "includeHealth=" + q.includeHealth.UnwrapOr("true"), "includeSamples=" + q.includeSamples.UnwrapOr("false")]
  }

  function AuditKey(companyId: Id, q: AuditQuery): string {
    Joined(AuditParts(companyId, q))
  }

  function AuditParts(companyId: Id, q: AuditQuery): seq<string> {
    ["audit-intelligence-executive", companyId, "lookback=" + q.lookback.UnwrapOr("300"),
     "limit=" + q.limit.UnwrapOr("10"), "includeRecommendations=" + q.includeRecommendations.UnwrapOr("true")]
  }

  /** What a summary is computed from, besides the company. */
  datatype View = View(limit: string, audit: bool, health: bool, samples: bool)

  function ViewOf(q: Query): View {
    View(q.limit.UnwrapOr("10"), q.includeAudit != Some("false"), q.includeHealth != Some("false"),
         q.includeSamples == Some("true"))
  }

  /** Left out, the audit list and the health are included, samples are not, and ten is the limit. */
  lemma DefaultView(q: Query)
    requires q == Query(None, None, None, None)
    ensures ViewOf(q) == View("10", true, true, false)
    ensures ViewOf(q.(includeAudit := Some("false"), includeHealth := Some("false"), includeSamples := Some("true")))
         == View("10", false, false, true)
  {
  }

  /** The signal that a summary asks for shares its entry with a plain executive view. */
  lemma SignalSharesEntry(companyId: Id)
    ensures AuditKey(companyId, SIGNAL_QUERY) == AuditKey(companyId, AuditQuery(None, None, None))
  {
    assert AuditParts(companyId, SIGNAL_QUERY) == AuditParts(companyId, AuditQuery(None, None, None));
  }

  // When keys are equal.

  /** A text without the bar that separates the parts of a key, as ids, numbers and truth values are. */
  predicate Plain(s: string) {
    '|' !in s
  }

  predicate PlainQuery(q: Query) {
    && Plain(q.limit.UnwrapOr("")) && Plain(q.includeAudit.UnwrapOr(""))
    && Plain(q.includeHealth.UnwrapOr("")) && Plain(q.includeSamples.UnwrapOr(""))
  }

  predicate PlainAuditQuery(q: AuditQuery) {
    Plain(q.lookback.UnwrapOr("")) && Plain(q.limit.UnwrapOr("")) && Plain(q.includeRecommendations.UnwrapOr(""))
  }

  /** Where the first bar stands; the length of a text without one. */
  function FirstBar(s: string): nat {
    if s == "" || s[0] == '|' then 0 else 1 + FirstBar(s[1..])
  }

  lemma {:induction false} BarAfterPlain(a: string, x: string)
    requires Plain(a)
    ensures FirstBar(a + "|" + x) == |a|
  {
    if a == "" {
      assert (a + "|" + x)[0] == '|';
    } else {
      assert (a + "|" + x)[1..] == a[1..] + "|" + x;
      BarAfterPlain(a[1..], x);
    }
  }

  lemma FirstPart(a: string, x: string, b: string, y: string)
    requires Plain(a) && Plain(b) && a + "|" + x == b + "|" + y
    ensures a == b && x == y
  {
    BarAfterPlain(a, x);
    BarAfterPlain(b, y);
    var s, t := a + "|" + x, b + "|" + y;
    assert a == s[..|a|] == t[..|b|] == b;
    assert x == s[|a| + 1..] == t[|b| + 1..] == y;
  }

  /** Plain parts can be read back from the key. */
  lemma {:induction false} JoinedInjective(ps: seq<string>, qs: seq<string>)
    requires |ps| == |qs| && Joined(ps) == Joined(qs)
    requires forall i :: 0 <= i < |ps| ==> Plain(ps[i]) && Plain(qs[i])
    ensures ps == qs
  {
    if |ps| > 1 {
      FirstPart(ps[0], Joined(ps[1..]), qs[0], Joined(qs[1..]));
      JoinedInjective(ps[1..], qs[1..]);
      assert ps == [ps[0]] + ps[1..] && qs == [qs[0]] + qs[1..];
    }
  }

  /** A named value can be read back from its part. */
  lemma NamedValue(name: string, a: string, b: string)
    requires name + a == name + b
    ensures a == b
  {
    assert a == (name + a)[|name|..] && b == (name + b)[|name|..];
  }

  /** Two keys of the shared store are equal exactly for one scope, one company and the same four values. */
  lemma CommandKeysIff(scope: string, companyId: Id, q: Query, scope': string, companyId': Id, q': Query)
    requires Plain(scope) && Plain(companyId) && PlainQuery(q)
    requires Plain(scope') && Plain(companyId') && PlainQuery(q')
    ensures CommandKey(scope, companyId, q) == CommandKey(scope', companyId', q')
       <==> scope == scope' && companyId == companyId'
            && q.limit.UnwrapOr("10") == q'.limit.UnwrapOr("10")
            && q.includeAudit.UnwrapOr("false") == q'.includeAudit.UnwrapOr("false")
            && q.includeHealth.UnwrapOr("true") == q'.includeHealth.UnwrapOr("true")
            && q.includeSamples.UnwrapOr("false") == q'.includeSamples.UnwrapOr("false")
  {
    hide Joined;
    var ps, qs := CommandParts(scope, companyId, q), CommandParts(scope', companyId', q');
    if CommandKey(scope, companyId, q) == CommandKey(scope', companyId', q') {
      JoinedInjective(ps, qs);
      NamedValue("limit=", q.limit.UnwrapOr("10"), q'.limit.UnwrapOr("10"));
      NamedValue("includeAudit=", q.includeAudit.UnwrapOr("false"), q'.includeAudit.UnwrapOr("false"));
      NamedValue("includeHealth=", q.includeHealth.UnwrapOr("true"), q'.includeHealth.UnwrapOr("true"));
      NamedValue("includeSamples=", q.includeSamples.UnwrapOr("false"), q'.includeSamples.UnwrapOr("false"));
    }
  }

  lemma AuditKeysIff(companyId: Id, q: AuditQuery, companyId': Id, q': AuditQuery)
    requires Plain(companyId) && PlainAuditQuery(q) && Plain(companyId') && PlainAuditQuery(q')
    ensures AuditKey(companyId, q) == AuditKey(companyId', q')
       <==> companyId == companyId'
            && q.lookback.UnwrapOr("300") == q'.lookback.UnwrapOr("300")
            && q.limit.UnwrapOr("10") == q'.limit.UnwrapOr("10")
            && q.includeRecommendations.UnwrapOr("true") == q'.includeRecommendations.UnwrapOr("true")
  {
    hide Joined;
    if AuditKey(companyId, q) == AuditKey(companyId', q') {
      JoinedInjective(AuditParts(companyId, q), AuditParts(companyId', q'));
      NamedValue("lookback=", q.lookback.UnwrapOr("300"), q'.lookback.UnwrapOr("300"));
      NamedValue("limit=", q.limit.UnwrapOr("10"), q'.limit.UnwrapOr("10"));
      NamedValue("includeRecommendations=", q.includeRecommendations.UnwrapOr("true"),
                 q'.includeRecommendations.UnwrapOr("true"));
    }
  }

  /** A query that leaves `includeAudit` out asks for the audit list, but shares its key with one that refuses it. */
  predicate AuditUnclear(q: Query) {
    q.includeAudit == None || q.includeAudit == Some("false")
  }

  /** Queries with one key ask for the same view, but for the audit list when it is unclear. */
  lemma SameKeySameView(scope: string, companyId: Id, q: Query, q': Query)
    requires Plain(scope) && Plain(companyId) && PlainQuery(q) && PlainQuery(q')
    requires CommandKey(scope, companyId, q) == CommandKey(scope, companyId, q')
    ensures ViewOf(q').(audit := ViewOf(q).audit) == ViewOf(q)
    ensures !AuditUnclear(q) ==> ViewOf(q') == ViewOf(q)
  {
    CommandKeysIff(scope, companyId, q, scope, companyId, q');
  }
}
