/**
 * The resolution of the active company of a request: the token's user
 * (src/auth/jwt.strategy.ts), the guard that sets the tenant context
 * (src/common/guards/tenant-context.guard.ts) and the guard that authorises the
 * company (src/common/guards/company-access.guard.ts), which run in that order.
 */
module RequestGuards {
  import opened Entities
  import opened Text
  import opened Wrappers

  datatype Membership = Membership(companyId: Id, role: string)

  datatype User = User(
    companyId: Option<Id>, activeCompanyId: Option<Id>, companyIds: seq<Id>, rolesByCompany: map<Id, string>,
    role: Option<string>)

  /** A value of a route, query, body or header: a text, a list, or anything else. */
  datatype Value = Text(text: string) | List(items: seq<Value>) | OtherValue

  datatype Sources = Sources(param: Value, queryOld: Value, query: Value, body: Value, bodyOld: Value, header: Value)

  datatype Request = Request(sources: Sources, companyId: Option<Id>, user: Option<User>)

  /** A request and the tenant store of its context, if there is one. */
  datatype Exchange = Exchange(request: Request, hasContext: bool, tenantId: Option<Id>)

  const OWNER := "OWNER"

  // The token's user.

  predicate Truthy(s: Option<string>) {
    s.Some? && s.value != ""
  }

  predicate IsMember(ms: seq<Membership>, companyId: Id) {
    exists i :: 0 <= i < |ms| && ms[i].companyId == companyId
  }

  predicate HasOwner(ms: seq<Membership>) {
    exists i :: 0 <= i < |ms| && ms[i].role == OWNER
  }

  /** Memberships as the database holds them: one per company, with a proper id and role. */
  ghost predicate CleanMemberships(ms: seq<Membership>) {
    && (forall i :: 0 <= i < |ms| ==>
          ms[i].companyId != "" && Trim(ms[i].companyId) == ms[i].companyId && ms[i].role != "")
    && (forall i, j :: 0 <= i < j < |ms| ==> ms[i].companyId != ms[j].companyId)
  }

  /** Membership k is the token's company if that is still a membership, else the first owned one, else the first. */
  ghost predicate IsActive(payload: Option<Id>, ms: seq<Membership>, k: nat) {
    && k < |ms|
    && (if Truthy(payload) && IsMember(ms, payload.value) then ms[k].companyId == payload.value
        else if HasOwner(ms) then ms[k].role == OWNER && forall i :: 0 <= i < k ==> ms[i].role != OWNER
        else k == 0)
  }

  /** The user's company and role are those of membership k. */
  ghost predicate ActsIn(u: User, ms: seq<Membership>, k: nat) {
    k < |ms| && u.companyId == Some(ms[k].companyId) && u.role == Some(ms[k].role)
  }

  ghost predicate IsUserOf(u: User, payload: Option<Id>, ms: seq<Membership>) {
    && |u.companyIds| == |ms|
    && (forall i :: 0 <= i < |ms| ==> u.companyIds[i] == ms[i].companyId)
    && (forall i :: 0 <= i < |ms| ==>
          ms[i].companyId in u.rolesByCompany && u.rolesByCompany[ms[i].companyId] == ms[i].role)
    && (forall c :: c in u.rolesByCompany ==> IsMember(ms, c))
    && u.activeCompanyId == u.companyId
    && (ms == [] ==> u.companyId == None && u.role == None)
    && (ms != [] ==> exists k: nat :: IsActive(payload, ms, k) && ActsIn(u, ms, k))
  }

  method FindCompany(ms: seq<Membership>, companyId: Id) returns (k: nat)
    ensures k <= |ms| && (k < |ms| <==> IsMember(ms, companyId)) && (k < |ms| ==> ms[k].companyId == companyId)
  {
    k := 0;
    while k < |ms| && ms[k].companyId != companyId
      invariant 0 <= k <= |ms| && forall i :: 0 <= i < k ==> ms[i].companyId != companyId
    {
      k := k + 1;
    }
  }

  method FindOwner(ms: seq<Membership>) returns (k: nat)
    ensures k <= |ms| && (k < |ms| <==> HasOwner(ms))
    ensures k < |ms| ==> ms[k].role == OWNER && forall i :: 0 <= i < k ==> ms[i].role != OWNER
  {
    k := 0;
    while k < |ms| && ms[k].role != OWNER
      invariant 0 <= k <= |ms| && forall i :: 0 <= i < k ==> ms[i].role != OWNER
    {
      k := k + 1;
    }
  }

  method RoleMap(ms: seq<Membership>) returns (roles: map<Id, string>)
    requires forall i, j :: 0 <= i < j < |ms| ==> ms[i].companyId != ms[j].companyId
    ensures forall i :: 0 <= i < |ms| ==> ms[i].companyId in roles && roles[ms[i].companyId] == ms[i].role
    ensures forall c :: c in roles ==> IsMember(ms, c)
  {
    roles := map[];
    for n := 0 to |ms|
      invariant forall i :: 0 <= i < n ==> ms[i].companyId in roles && roles[ms[i].companyId] == ms[i].role
      invariant forall c :: c in roles ==> IsMember(ms, c)
    {
      roles := roles[ms[n].companyId := ms[n].role];
    }
  }

  method Validate(payload: Option<Id>, ms: seq<Membership>) returns (u: User)
    requires CleanMemberships(ms)
    ensures IsUserOf(u, payload, ms)
  {
    var companyId: Option<Id>, role: Option<string> := None, None;
    var companyIds := seq(|ms|, i requires 0 <= i < |ms| => ms[i].companyId);
    var rolesByCompany := RoleMap(ms);
    ghost var active: nat := 0;
    if Truthy(payload) {
      var k := FindCompany(ms, payload.value);
      if k < |ms| {
        companyId, role, active := Some(ms[k].companyId), Some(ms[k].role), k;
      }
    }
    if companyId.None? && |ms| > 0 {
      var owner := FindOwner(ms);
      var k := if owner < |ms| then owner else 0;
      companyId, role, active := Some(ms[k].companyId), Some(ms[k].role), k;
    }
    u := User(companyId, companyId, companyIds, rolesByCompany, role);
    assert ms != [] ==> IsActive(payload, ms, active) && ActsIn(u, ms, active);
  }

  // The guards, as functions of the exchange.

  /** A list stands for its first value; without one, and for anything that is not a text, there is no id. */
  lemma SourcesMean(text: string, rest: seq<Value>, items: seq<Value>)
    ensures ToCompanyId(List([Text(text)] + rest)) == ToCompanyId(Text(text))
    ensures ToCompanyId(Text(text)) == if Trim(text) == "" then None else Some(Trim(text))
    ensures ToCompanyId(List([])) == None && ToCompanyId(OtherValue) == None
    ensures ToCompanyId(List([List(items)] + rest)) == None
  {
  }

  /** The token's company is the active one; the other counts if the active one is missing or empty. */
  lemma TokenCompanyMeans(u: User)
    ensures TokenCompany(None) == None
    ensures u.activeCompanyId.UnwrapOr("") != "" ==> TokenCompany(Some(u)) == u.activeCompanyId
    ensures u.activeCompanyId.UnwrapOr("") == "" && u.companyId.UnwrapOr("") != "" ==>
      TokenCompany(Some(u)) == u.companyId
    ensures u.activeCompanyId.UnwrapOr("") == "" && u.companyId.UnwrapOr("") == "" ==> TokenCompany(Some(u)) == None
  {
  }

  /** The company id of a source: the text itself or the first text of a list, without outer spaces. */
  function ToCompanyId(v: Value): Option<Id> {
    var resolved := if v.List? then (if |v.items| > 0 then v.items[0] else OtherValue) else v;
    if resolved.Text? then Trimmed(Some(resolved.text)) else None
  }

  function Named(o: Option<Id>): seq<Id> {
    if o.Some? then [o.value] else []
  }

  /** The ids a request names, in the order the guards read them. */
  function Requested(s: Sources): seq<Id> {
    Named(ToCompanyId(s.param)) + Named(ToCompanyId(s.queryOld)) + Named(ToCompanyId(s.query))
    + Named(ToCompanyId(s.body)) + Named(ToCompanyId(s.bodyOld)) + Named(ToCompanyId(s.header))
  }

  predicate Conflicting(ids: seq<Id>) {
    exists i, j :: 0 <= i < |ids| && 0 <= j < |ids| && ids[i] != ids[j]
  }

  function First(ids: seq<Id>): Option<Id> {
    if ids == [] then None else Some(ids[0])
  }

  function FirstTruthy(a: Option<Id>, b: Option<Id>): Option<Id> {
    if Truthy(a) then a else b
  }

  function TokenCompany(u: Option<User>): Option<Id> {
    if u.None? then None else FirstTruthy(u.value.activeCompanyId, FirstTruthy(u.value.companyId, None))
  }

  /** The first guard; none if it refuses. */
  function TenantContextGuard(e: Exchange, skip: bool): Option<Exchange> {
    var ids := Requested(e.request.sources);
    if Conflicting(ids) then None
    else
      var companyId := if skip then None else FirstTruthy(First(ids), TokenCompany(e.request.user));
      var tenantId := if e.hasContext then companyId else e.tenantId;
      Some(e.(request := e.request.(companyId := companyId), tenantId := tenantId))
  }

  predicate Allowed(u: User, companyId: Id) {
    && companyId != ""
    && (u.companyId == Some(companyId) || u.activeCompanyId == Some(companyId) || companyId in u.companyIds)
  }

  function Switched(u: User, companyId: Id): User {
    var named := companyId in u.rolesByCompany && u.rolesByCompany[companyId] != "";
    var role := if named then Some(u.rolesByCompany[companyId]) else u.role;
    u.(companyId := Some(companyId), activeCompanyId := Some(companyId), role := role)
  }

  function AllRequested(r: Request): seq<Id> {
    Named(Trimmed(r.companyId)) + Requested(r.sources)
  }

  /** The second guard; none if it refuses. */
  function CompanyAccessGuard(e: Exchange): Option<Exchange> {
    if e.request.user.None? then Some(e)
    else
      var ids := AllRequested(e.request);
      if Conflicting(ids) then None
      else if ids == [] then Some(e)
      else if !Allowed(e.request.user.value, ids[0]) then None
      else
        var user := Switched(e.request.user.value, ids[0]);
        Some(e.(request := e.request.(companyId := Some(ids[0]), user := Some(user))))
  }

  function Guards(e: Exchange, skip: bool): Option<Exchange> {
    var e1 := TenantContextGuard(e, skip);
    if e1.None? then None else CompanyAccessGuard(e1.value)
  }

  ghost predicate CleanId(id: Id) {
    id != "" && Trim(id) == id
  }

  lemma {:induction false} RequestedClean(s: Sources)
    ensures forall i :: 0 <= i < |Requested(s)| ==> CleanId(Requested(s)[i])
  {
    SourceClean(s.param);
    SourceClean(s.queryOld);
    SourceClean(s.query);
    SourceClean(s.body);
    SourceClean(s.bodyOld);
    SourceClean(s.header);
  }

  lemma {:induction false} SourceClean(v: Value)
    ensures forall i :: 0 <= i < |Named(ToCompanyId(v))| ==> CleanId(Named(ToCompanyId(v))[i])
  {
    if ToCompanyId(v).Some? {
      TrimTwice((if v.List? then v.items[0] else v).text);
    }
  }

  // What holds when both guards pass.

  /** The company an exchange resolves to: the one named, else the token's. */
  function Resolved(e: Exchange): Option<Id> {
    FirstTruthy(First(Requested(e.request.sources)), TokenCompany(e.request.user))
  }

  /** An exchange of a user just validated. */
  ghost predicate Authenticated(e: Exchange, payload: Option<Id>, ms: seq<Membership>) {
    CleanMemberships(ms) && e.request.user.Some? && IsUserOf(e.request.user.value, payload, ms)
  }

  lemma {:induction false} TokenCompanyIsMember(u: User, payload: Option<Id>, ms: seq<Membership>)
    requires CleanMemberships(ms) && IsUserOf(u, payload, ms)
    ensures TokenCompany(Some(u)) == u.companyId
    ensures u.companyId.Some? <==> ms != []
    ensures u.companyId.Some? ==> CleanId(u.companyId.value) && IsMember(ms, u.companyId.value)
  {
    hide Trim, IsActive;
    if ms != [] {
      var k: nat :| IsActive(payload, ms, k) && ActsIn(u, ms, k);
      assert CleanId(ms[k].companyId);
    }
  }

  /** The company set by the first guard, put before the ids it was taken from. */
  lemma {:induction false} PrependChosen(c: Id, named: seq<Id>)
    requires !Conflicting(named) && (named == [] || c == named[0])
    ensures !Conflicting([c] + named) && First([c] + named) == Some(c)
  {
    var ids := [c] + named;
    assert forall i :: 0 < i < |ids| ==> ids[i] == named[i - 1] == c;
  }

  /** What the second guard reads after the first one passed. */
  lemma {:induction false} SecondReading(e: Exchange, e1: Exchange, payload: Option<Id>, ms: seq<Membership>)
    requires Authenticated(e, payload, ms) && TenantContextGuard(e, false) == Some(e1)
    ensures var ids := AllRequested(e1.request);
      && !Conflicting(ids) && First(ids) == e1.request.companyId == Resolved(e)
      && (Resolved(e).Some? ==> CleanId(Resolved(e).value))
  {
    var named := Requested(e.request.sources);
    var resolved := Resolved(e);
    ResolvedClean(e, payload, ms);
    hide Trim, Requested, Conflicting, IsUserOf, CleanMemberships;
    if resolved.Some? {
      assert AllRequested(e1.request) == [resolved.value] + named;
      PrependChosen(resolved.value, named);
    } else {
      assert AllRequested(e1.request) == named;
    }
  }

  /** The resolved company is a proper id: the first one named, or the token's. */
  lemma {:induction false} ResolvedClean(e: Exchange, payload: Option<Id>, ms: seq<Membership>)
    requires Authenticated(e, payload, ms)
    ensures var named, resolved := Requested(e.request.sources), Resolved(e);
      && (resolved.Some? ==> CleanId(resolved.value))
      && resolved == (if named == [] then e.request.user.value.companyId else Some(named[0]))
  {
    TokenCompanyIsMember(e.request.user.value, payload, ms);
    RequestedClean(e.request.sources);
    hide Trim, Requested, IsUserOf, CleanMemberships;
  }

  lemma {:induction false} AllowedIffMember(u: User, payload: Option<Id>, ms: seq<Membership>, companyId: Id)
    requires CleanMemberships(ms) && IsUserOf(u, payload, ms)
    ensures Allowed(u, companyId) <==> IsMember(ms, companyId)
  {
    TokenCompanyIsMember(u, payload, ms);
    if IsMember(ms, companyId) {
      var i :| 0 <= i < |ms| && ms[i].companyId == companyId;
      assert u.companyIds[i] == companyId;
    }
    if companyId in u.companyIds {
      var i :| 0 <= i < |u.companyIds| && u.companyIds[i] == companyId;
      assert ms[i].companyId == companyId;
    }
  }

  /** An exchange without a user, as on a public route, or with one just validated. */
  ghost predicate Checked(e: Exchange, payload: Option<Id>, ms: seq<Membership>) {
    e.request.user.Some? ==> Authenticated(e, payload, ms)
  }

  /** What both guards leave of a request without a user: the company it names, unchecked. */
  lemma AnonymousSettle(e: Exchange, skip: bool)
    requires e.request.user.None?
    ensures Guards(e, skip).Some? <==> !Conflicting(Requested(e.request.sources))
    ensures Guards(e, skip).Some? ==>
      var c := if skip then None else First(Requested(e.request.sources));
      Guards(e, skip).value
      == e.(request := e.request.(companyId := c), tenantId := if e.hasContext then c else e.tenantId)
  {
    RequestedClean(e.request.sources);
    hide Trim, Requested, Conflicting;
  }

  /**
   * The guards pass exactly when the request names no two companies and, if it has a user, none
   * outside the memberships.
   */
  lemma GuardsPassIff(e: Exchange, payload: Option<Id>, ms: seq<Membership>)
    requires Checked(e, payload, ms)
    ensures Guards(e, false).Some?
       <==> !Conflicting(Requested(e.request.sources))
            && (e.request.user.Some? ==> forall c :: c in Requested(e.request.sources) ==> IsMember(ms, c))
  {
    if e.request.user.Some? { UserPassIff(e, payload, ms); } else { AnonymousSettle(e, false); }
  }

  lemma {:induction false} UserPassIff(e: Exchange, payload: Option<Id>, ms: seq<Membership>)
    requires Authenticated(e, payload, ms)
    ensures Guards(e, false).Some?
       <==> !Conflicting(Requested(e.request.sources))
            && forall c :: c in Requested(e.request.sources) ==> IsMember(ms, c)
  {
    var named := Requested(e.request.sources);
    var u := e.request.user.value;
    TokenCompanyIsMember(u, payload, ms);
    ResolvedClean(e, payload, ms);
    if !Conflicting(named) {
      SecondReading(e, TenantContextGuard(e, false).value, payload, ms);
      if Resolved(e).Some? { AllowedIffMember(u, payload, ms, Resolved(e).value); }
      assert forall c :: c in named ==> c == named[0];
      hide Trim, Requested, Conflicting, IsUserOf, CleanMemberships, Allowed;
      assert Guards(e, false).Some? <==> Resolved(e).None? || Allowed(u, Resolved(e).value);
    }
  }

  /** The exchange both guards leave behind. */
  function Settled(e: Exchange): Exchange
    requires e.request.user.Some?
  {
    var c, u := Resolved(e), e.request.user.value;
    var user := if c.Some? then Switched(u, c.value) else u;
    e.(request := e.request.(companyId := c, user := Some(user)), tenantId := if e.hasContext then c else e.tenantId)
  }

  lemma {:induction false} GuardsSettle(e: Exchange, payload: Option<Id>, ms: seq<Membership>)
    requires Authenticated(e, payload, ms) && Guards(e, false).Some?
    ensures Guards(e, false).value == Settled(e)
    ensures Resolved(e).Some? ==> CleanId(Resolved(e).value) && IsMember(ms, Resolved(e).value)
  {
    SecondReading(e, TenantContextGuard(e, false).value, payload, ms);
    if Resolved(e).Some? { AllowedIffMember(e.request.user.value, payload, ms, Resolved(e).value); }
    hide Trim, Requested, Conflicting, IsUserOf, CleanMemberships;
  }

  lemma {:induction false} SwitchedActs(u: User, payload: Option<Id>, ms: seq<Membership>, k: nat)
    requires CleanMemberships(ms) && IsUserOf(u, payload, ms) && k < |ms|
    ensures ActsIn(Switched(u, ms[k].companyId), ms, k)
  {
    hide Trim, IsActive;
    assert u.rolesByCompany[ms[k].companyId] == ms[k].role;
  }

  /** The request, the tenant context if there is one, and the user agree on a membership, or on none without one. */
  ghost predicate AgreeOnMembership(e: Exchange, ms: seq<Membership>) {
    && e.request.user.Some?
    && e.request.user.value.companyId == e.request.companyId
    && e.request.user.value.activeCompanyId == e.request.companyId
    && (e.hasContext ==> e.tenantId == e.request.companyId)
    && (e.request.companyId.None? <==> ms == [])
    && (ms != [] ==> exists k: nat :: ActsIn(e.request.user.value, ms, k))
  }

  /**
   * After both guards the tenant context, the request and the user agree on one company, the one
   * resolved, a membership of the user with that membership's role; without memberships they agree
   * on none. Without a user the context and the request agree on the first company named, which no
   * membership was checked for.
   */
  lemma GuardsAgree(e: Exchange, payload: Option<Id>, ms: seq<Membership>)
    requires Checked(e, payload, ms) && Guards(e, false).Some?
    ensures var e' := Guards(e, false).value;
      && e'.request.companyId == Resolved(e)
      && (e.request.user.Some? ==> AgreeOnMembership(e', ms))
      && (e.request.user.None? ==>
            && e'.request.user.None? && Resolved(e) == First(Requested(e.request.sources))
            && (e.hasContext ==> e'.tenantId == Resolved(e)))
  {
    if e.request.user.Some? {
      UserAgrees(e, payload, ms);
    } else {
      AnonymousSettle(e, false);
      RequestedClean(e.request.sources);
      hide Trim, Requested, Conflicting;
    }
  }

  lemma {:induction false} UserAgrees(e: Exchange, payload: Option<Id>, ms: seq<Membership>)
    requires Authenticated(e, payload, ms) && Guards(e, false).Some?
    ensures Guards(e, false).value.request.companyId == Resolved(e)
    ensures AgreeOnMembership(Guards(e, false).value, ms)
  {
    var u := e.request.user.value;
    GuardsSettle(e, payload, ms);
    ResolvedClean(e, payload, ms);
    TokenCompanyIsMember(u, payload, ms);
    if Resolved(e).Some? {
      var k: nat :| k < |ms| && ms[k].companyId == Resolved(e).value;
      SwitchedActs(u, payload, ms, k);
    }
    assert u.activeCompanyId == u.companyId;
    hide Trim, Requested, Guards, Resolved, IsUserOf, CleanMemberships;
  }

  /** Running the pair again changes nothing. */
  lemma GuardsTwice(e: Exchange, payload: Option<Id>, ms: seq<Membership>)
    requires Checked(e, payload, ms) && Guards(e, false).Some?
    ensures Guards(Guards(e, false).value, false) == Guards(e, false)
  {
    if e.request.user.Some? {
      UserGuardsTwice(e, payload, ms);
    } else {
      AnonymousSettle(e, false);
      AnonymousSettle(Guards(e, false).value, false);
      hide Trim, Requested, Conflicting;
    }
  }

  lemma {:induction false} UserGuardsTwice(e: Exchange, payload: Option<Id>, ms: seq<Membership>)
    requires Authenticated(e, payload, ms) && Guards(e, false).Some?
    ensures Guards(Guards(e, false).value, false) == Guards(e, false)
  {
    var e1, e2 := TenantContextGuard(e, false).value, Settled(e);
    GuardsSettle(e, payload, ms);
    ResolvedClean(e, payload, ms);
    SecondReading(e, e1, payload, ms);
    TokenCompanyIsMember(e.request.user.value, payload, ms);
    hide Trim, Requested, Conflicting, IsUserOf, CleanMemberships;
    assert TenantContextGuard(e2, false) == Some(e2);
    assert AllRequested(e2.request) == AllRequested(e1.request);
  }

  /** What the second guard reads when the first one was told to skip. */
  lemma SkippedReading(e: Exchange)
    requires TenantContextGuard(e, true).Some?
    ensures AllRequested(TenantContextGuard(e, true).value.request) == Requested(e.request.sources)
  {
    hide Requested;
  }

  /**
   * Skipping the company check refuses the same requests. What it drops is the tenant context, which
   * then agrees with the request only if the request names no company or has no user.
   */
  lemma SkipAgreesIff(e: Exchange, payload: Option<Id>, ms: seq<Membership>)
    requires Checked(e, payload, ms)
    ensures Guards(e, true).Some? <==> Guards(e, false).Some?
    ensures Guards(e, true).Some? && e.hasContext ==>
      var named, r := Requested(e.request.sources), Guards(e, true).value;
      && r.tenantId == None
      && (r.tenantId == r.request.companyId <==> named == [] || e.request.user.None?)
      && (named != [] && e.request.user.Some? ==> r == Guards(e, false).value.(tenantId := None))
  {
    if e.request.user.Some? {
      UserSkipAgrees(e, payload, ms);
    } else {
      AnonymousSettle(e, true);
      AnonymousSettle(e, false);
    }
    hide Trim, Requested, Conflicting, Guards;
  }

  lemma UserSkipAgrees(e: Exchange, payload: Option<Id>, ms: seq<Membership>)
    requires Authenticated(e, payload, ms)
    ensures Guards(e, true).Some? <==> Guards(e, false).Some?
    ensures Guards(e, true).Some? && e.hasContext ==>
      var named, r := Requested(e.request.sources), Guards(e, true).value;
      && r.tenantId == None && r.request.companyId == First(named)
      && (r.tenantId == r.request.companyId <==> named == [])
      && (named != [] ==> r == Guards(e, false).value.(tenantId := None))
  {
    var named, u := Requested(e.request.sources), e.request.user.value;
    UserPassIff(e, payload, ms);
    ResolvedClean(e, payload, ms);
    if !Conflicting(named) {
      SkippedReading(e);
      if named != [] { AllowedIffMember(u, payload, ms, named[0]); }
      assert forall c :: c in named ==> c == named[0];
    }
    if Guards(e, false).Some? { GuardsSettle(e, payload, ms); }
    hide Trim, Requested, Conflicting, IsUserOf, CleanMemberships, Allowed;
  }

  /** The request object and the tenant store, which the guards change in place. */
  class RequestContext {
    const sources: Sources
    const hasContext: bool
    var companyId: Option<Id>
    var user: Option<User>
    var tenantId: Option<Id>

    ghost function State(): Exchange
      reads this
    {
      Exchange(Request(sources, companyId, user), hasContext, tenantId)
    }

    constructor (sources: Sources, user: Option<User>, hasContext: bool)
      ensures State() == Exchange(Request(sources, None, user), hasContext, None)
    {
      this.sources, this.hasContext, this.user := sources, hasContext, user;
      companyId, tenantId := None, None;
    }

    method ResolveTenant(skip: bool) returns (passed: bool)
      modifies this
      ensures passed <==> TenantContextGuard(old(State()), skip).Some?
      ensures State() == if passed then TenantContextGuard(old(State()), skip).value else old(State())
    {
      var requested := Requested(sources);
      if Conflicting(requested) { return false; }
      var requestCompanyId := if skip then None else First(requested);
      companyId := if skip then None else FirstTruthy(requestCompanyId, TokenCompany(user));
      if hasContext { tenantId := companyId; }
      passed := true;
    }

    method AuthoriseCompany() returns (passed: bool)
      modifies this
      ensures passed <==> CompanyAccessGuard(old(State())).Some?
      ensures State() == if passed then CompanyAccessGuard(old(State())).value else old(State())
    {
      if user.None? { return true; }
      var requested := Named(Trimmed(companyId)) + Requested(sources);
      if Conflicting(requested) { return false; }
      if requested == [] { return true; }
      var paramCompanyId := requested[0];
      if !Allowed(user.value, paramCompanyId) { return false; }
      companyId := Some(paramCompanyId);
      user := Some(Switched(user.value, paramCompanyId));
      passed := true;
    }

    /** The guards in the order they are registered; a refusal by the second keeps what the first one set. */
    method Authorise(skip: bool) returns (passed: bool)
      modifies this
      ensures passed <==> Guards(old(State()), skip).Some?
      ensures passed ==> State() == Guards(old(State()), skip).value
      ensures !passed ==> State() == TenantContextGuard(old(State()), skip).UnwrapOr(old(State()))
    {
      passed := ResolveTenant(skip);
      if passed { passed := AuthoriseCompany(); }
    }
  }
}
