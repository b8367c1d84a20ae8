/**
 * Compliance checks and the engine that keeps them equal to the current findings
 * (src/modules/compliance-enterprise/compliance-enterprise.service.ts). Each call
 * runs alone. Row ids come from a counter, and the findings of a run are given.
 */
module Compliance {
  import opened Entities
  import opened Pages
  import opened Text
  import opened Wrappers

  datatype Status = OPEN | RESOLVED | IGNORED | IN_PROGRESS

  datatype Severity = INFO | WARNING | CRITICAL

  datatype Check = Check(
    companyId: Id, checkName: string, severity: Severity, status: Status, description: Option<string>,
    resolved: bool, resolvedAt: Option<int>)

  datatype Finding = Finding(
    key: string, checkName: string, severity: Severity, description: string, source: string, metadata: Option<string>)

  datatype Table = Table(checks: map<nat, Check>, nextId: nat)

  const SOURCE_MARK := "[source:"
  const STALE_LIMIT := 1000
  const TOO_MANY := 1001

  function SourceDescription(f: Finding): string {
    SOURCE_MARK + f.source + "] [key:" + f.key + "] " + f.description
    + (if f.metadata.Some? then " metadata=" + f.metadata.value else "")
  }

  lemma SourceDescriptionMarked(f: Finding)
    ensures Contains(SourceDescription(f), SOURCE_MARK)
  {
    assert StartsAt(SourceDescription(f), SOURCE_MARK, 0);
  }

  // The calls, as functions of the table.

  predicate Closed(s: Status) {
    s == RESOLVED || s == IGNORED
  }

  function Insert(t: Table, c: Check): Table {
    Table(t.checks[t.nextId := c], t.nextId + 1)
  }

  function NewCheck(companyId: Id, name: string, severity: Option<Severity>, status: Option<Status>,
          description: Option<string>, now: int): Check {
    var s := status.UnwrapOr(OPEN);
    Check(companyId, Trim(name), severity.UnwrapOr(INFO), s, Trimmed(description), Closed(s),
          if Closed(s) then Some(now) else None)
  }

  /** A change of a check; a description is kept, cleared or replaced. */
  datatype Patch = Patch(severity: Option<Severity>, description: Option<Option<string>>, status: Option<Status>)

  function Patched(c: Check, p: Patch, now: int): Check {
    var c1 := c.(severity := p.severity.UnwrapOr(c.severity),
                 description := if p.description.Some? then Trimmed(p.description.value) else c.description);
    if p.status.None? then c1
    else c1.(status := p.status.value, resolved := Closed(p.status.value),
             resolvedAt := if Closed(p.status.value) then Some(now) else None)
  }

  function Update(t: Table, companyId: Id, id: nat, p: Patch, now: int): Table {
    if id in t.checks && t.checks[id].companyId == companyId
    then t.(checks := t.checks[id := Patched(t.checks[id], p, now)]) else t
  }

  /** An unresolved check says what the finding says. */
  predicate Reports(c: Check, companyId: Id, f: Finding) {
    c.companyId == companyId && !c.resolved && c.checkName == f.checkName && c.description == Some(SourceDescription(f))
  }

  predicate Stands(checks: map<nat, Check>, companyId: Id, f: Finding) {
    exists id :: id in checks && Reports(checks[id], companyId, f)
  }

  function CheckOf(companyId: Id, f: Finding): Check {
    Check(companyId, f.checkName, f.severity, OPEN, Some(SourceDescription(f)), false, None)
  }

  function CreateMissing(t: Table, companyId: Id, findings: seq<Finding>): Table {
    if findings == [] then t
    else
      var t1, f := CreateMissing(t, companyId, findings[..|findings| - 1]), findings[|findings| - 1];
      if Stands(t1.checks, companyId, f) then t1 else Insert(t1, CheckOf(companyId, f))
  }

  predicate Described(findings: seq<Finding>, description: string) {
    exists k :: 0 <= k < |findings| && SourceDescription(findings[k]) == description
  }

  predicate OpenEngineCheck(c: Check, companyId: Id) {
    c.companyId == companyId && !c.resolved && c.description.Some? && Contains(c.description.value, SOURCE_MARK)
  }

  function OpenEngineChecks(checks: map<nat, Check>, companyId: Id): set<nat> {
    set id | id in checks && OpenEngineCheck(checks[id], companyId)
  }

  predicate Stale(c: Check, companyId: Id, findings: seq<Finding>) {
    OpenEngineCheck(c, companyId) && !Described(findings, c.description.value)
  }

  function Resolved(c: Check, now: int): Check {
    c.(status := RESOLVED, resolved := true, resolvedAt := Some(now))
  }

  /** The stale checks of the fetched page are resolved. */
  function ResolveStale(checks: map<nat, Check>, companyId: Id, findings: seq<Finding>, page: seq<nat>,
          now: int): map<nat, Check> {
    map id | id in checks ::
      if id in page && Stale(checks[id], companyId, findings) then Resolved(checks[id], now) else checks[id]
  }

  ghost predicate IsStalePage(checks: map<nat, Check>, companyId: Id, page: seq<nat>) {
    IsPage(Unordered(OpenEngineChecks(checks, companyId)), STALE_LIMIT, page)
  }

  function AfterCreation(t: Table, companyId: Id, findings: seq<Finding>, create: bool): Table {
    if create then CreateMissing(t, companyId, findings) else t
  }

  function EngineRun(t: Table, companyId: Id, findings: seq<Finding>, create: bool, resolve: bool,
          page: seq<nat>, now: int): Table {
    var t1 := AfterCreation(t, companyId, findings, create);
    if resolve then t1.(checks := ResolveStale(t1.checks, companyId, findings, page, now)) else t1
  }

  // Every check on every run.

  /** Resolved, closed by status, and stamped are the same thing. */
  ghost predicate Consistent(c: Check) {
    (c.resolved <==> Closed(c.status)) && (c.resolved <==> c.resolvedAt.Some?)
  }

  ghost predicate FreshIds(t: Table) {
    forall id :: id in t.checks ==> id < t.nextId
  }

  ghost predicate ConsistentTable(t: Table) {
    FreshIds(t) && forall id :: id in t.checks ==> Consistent(t.checks[id])
  }

  datatype Call =
    | Create(companyId: Id, name: string, severity: Option<Severity>, status: Option<Status>,
      description: Option<string>)
    | Change(companyId: Id, id: nat, patch: Patch)
    | Engine(companyId: Id, findings: seq<Finding>, create: bool, resolve: bool, page: seq<nat>)

  function Step(t: Table, c: Call, now: int): Table {
    match c
    case Create(companyId, name, severity, status, description) =>
      Insert(t, NewCheck(companyId, name, severity, status, description, now))
    case Change(companyId, id, patch) => Update(t, companyId, id, patch, now)
    case Engine(companyId, findings, create, resolve, page) =>
      EngineRun(t, companyId, findings, create, resolve, page, now)
  }

  function Run(t: Table, calls: seq<(Call, int)>): Table
    decreases |calls|
  {
    if calls == [] then t
    else Step(Run(t, calls[..|calls| - 1]), calls[|calls| - 1].0, calls[|calls| - 1].1)
  }

  /** Creation only adds checks, under new ids. */
  lemma {:induction false} CreateMissingKeeps(t: Table, companyId: Id, findings: seq<Finding>)
    requires FreshIds(t)
    ensures var t' := CreateMissing(t, companyId, findings);
      && FreshIds(t') && t'.nextId >= t.nextId
      && (forall id :: id in t.checks ==> id in t'.checks && t'.checks[id] == t.checks[id])
      && (ConsistentTable(t) ==> ConsistentTable(t'))
    decreases |findings|
  {
    if findings != [] { CreateMissingKeeps(t, companyId, findings[..|findings| - 1]); }
  }

  lemma {:induction false} StepKeepsConsistent(t: Table, c: Call, now: int)
    requires ConsistentTable(t)
    ensures ConsistentTable(Step(t, c, now))
  {
    if c.Engine? { CreateMissingKeeps(t, c.companyId, c.findings); }
  }

  lemma {:induction false} RunKeepsConsistent(t: Table, calls: seq<(Call, int)>)
    requires ConsistentTable(t)
    ensures ConsistentTable(Run(t, calls))
    decreases |calls|
  {
    if calls != [] {
      RunKeepsConsistent(t, calls[..|calls| - 1]);
      StepKeepsConsistent(Run(t, calls[..|calls| - 1]), calls[|calls| - 1].0, calls[|calls| - 1].1);
    }
  }

  /** A check created by hand is open and informative unless it is told otherwise, and closed checks are stamped. */
  lemma CreatedByHand(t: Table, companyId: Id, name: string, severity: Option<Severity>, status: Option<Status>,
          description: Option<string>, now: int)
    ensures var t' := Step(t, Create(companyId, name, severity, status, description), now);
      && t.nextId in t'.checks && t'.nextId == t.nextId + 1
      && t'.checks.Keys == t.checks.Keys + {t.nextId}
      && var c := t'.checks[t.nextId];
         && c.companyId == companyId
         && c.severity == (if severity.Some? then severity.value else INFO)
         && c.status == (if status.Some? then status.value else OPEN)
         && (c.resolved <==> c.status == RESOLVED || c.status == IGNORED)
         && (c.resolved ==> c.resolvedAt == Some(now)) && (!c.resolved ==> c.resolvedAt == None)
  {
  }

  // What the engine writes.

  /** Where the first bracket closes; the length of a text without one. */
  function FirstBracket(s: string): nat {
    if s == "" || s[0] == ']' then 0 else 1 + FirstBracket(s[1..])
  }

  lemma {:induction false} BracketAfter(a: string, x: string)
    requires ']' !in a
    ensures FirstBracket(a + "]" + x) == |a|
  {
    if a == "" {
      assert (a + "]" + x)[0] == ']';
    } else {
      assert (a + "]" + x)[1..] == a[1..] + "]" + x;
      BracketAfter(a[1..], x);
    }
  }

  lemma BracketSplits(a: string, x: string, b: string, y: string)
    requires ']' !in a && ']' !in b && a + "]" + x == b + "]" + y
    ensures a == b && x == y
  {
    BracketAfter(a, x);
    BracketAfter(b, y);
    assert a == (a + "]" + x)[..|a|] == (b + "]" + y)[..|b|] == b;
    assert x == (a + "]" + x)[|a| + 1..] == (b + "]" + y)[|b| + 1..] == y;
  }

  lemma PrefixDrops(prefix: string, a: string, b: string)
    requires prefix + a == prefix + b
    ensures a == b
  {
    assert a == (prefix + a)[|prefix|..] && b == (prefix + b)[|prefix|..];
  }

  /** What follows the source and the key in a description. */
  function Detail(f: Finding): string {
    " " + f.description + if f.metadata.Some? then " metadata=" + f.metadata.value else ""
  }

  lemma DescriptionParts(f: Finding)
    ensures SourceDescription(f) == "[source:" + (f.source + "]" + (" [key:" + (f.key + "]" + Detail(f))))
  {
  }

  /** Stored descriptions are equal exactly for one source, one key and one detail, if the first two hold no bracket. */
  lemma SameDescription(f: Finding, g: Finding)
    requires ']' !in f.source && ']' !in g.source && ']' !in f.key && ']' !in g.key
    ensures SourceDescription(f) == SourceDescription(g)
       <==> f.source == g.source && f.key == g.key && Detail(f) == Detail(g)
  {
    DescriptionParts(f);
    DescriptionParts(g);
    hide SourceDescription, Detail;
    if SourceDescription(f) == SourceDescription(g) {
      var rest, rest' := " [key:" + (f.key + "]" + Detail(f)), " [key:" + (g.key + "]" + Detail(g));
      PrefixDrops("[source:", f.source + "]" + rest, g.source + "]" + rest');
      BracketSplits(f.source, rest, g.source, rest');
      PrefixDrops(" [key:", f.key + "]" + Detail(f), g.key + "]" + Detail(g));
      BracketSplits(f.key, Detail(f), g.key, Detail(g));
    }
  }

  /** The check says what the finding says, open and as severe. */
  predicate SaysFinding(c: Check, companyId: Id, f: Finding) {
    && c.companyId == companyId && c.checkName == f.checkName && c.severity == f.severity && c.status == OPEN
    && !c.resolved && c.resolvedAt == None && c.description == Some(SourceDescription(f))
  }

  ghost predicate SaysOne(c: Check, companyId: Id, findings: seq<Finding>) {
    exists k :: 0 <= k < |findings| && SaysFinding(c, companyId, findings[k])
  }

  /** Each check that a run adds says what one of its findings says. */
  lemma {:induction false} AddedSayFindings(t: Table, companyId: Id, findings: seq<Finding>, id: nat)
    requires id in CreateMissing(t, companyId, findings).checks && id !in t.checks
    ensures SaysOne(CreateMissing(t, companyId, findings).checks[id], companyId, findings)
    decreases |findings|
  {
    if findings != [] {
      var n := |findings| - 1;
      var t1 := CreateMissing(t, companyId, findings[..n]);
      if id in t1.checks && !(id == t1.nextId && !Stands(t1.checks, companyId, findings[n])) {
        AddedSayFindings(t, companyId, findings[..n], id);
        var k :| 0 <= k < n && SaysFinding(t1.checks[id], companyId, findings[..n][k]);
        assert findings[k] == findings[..n][k];
      } else {
        assert SaysFinding(CreateMissing(t, companyId, findings).checks[id], companyId, findings[n]);
      }
    }
  }

  /** A stale check of the page is closed as resolved at that time, and keeps what it says. */
  lemma StaleIsResolved(checks: map<nat, Check>, companyId: Id, findings: seq<Finding>, page: seq<nat>, now: int,
          id: nat)
    requires id in checks
    ensures var c, c' := checks[id], ResolveStale(checks, companyId, findings, page, now)[id];
      && (id in page && Stale(c, companyId, findings) ==>
            c'.status == RESOLVED && c'.resolved && c'.resolvedAt == Some(now))
      && c'.companyId == c.companyId && c'.checkName == c.checkName && c'.severity == c.severity
      && c'.description == c.description
      && (!(id in page && Stale(c, companyId, findings)) ==> c' == c)
  {
  }

  /** No call of one company touches a check of another. */
  lemma CallKeepsOthers(t: Table, c: Call, now: int, id: nat)
    requires FreshIds(t) && id in t.checks && t.checks[id].companyId != c.companyId
    ensures id in Step(t, c, now).checks && Step(t, c, now).checks[id] == t.checks[id]
  {
    if c.Engine? { CreateMissingKeeps(t, c.companyId, c.findings); }
  }

  // Convergence.

  /** After creation every finding stands. */
  lemma {:induction false} MissingCreated(t: Table, companyId: Id, findings: seq<Finding>)
    requires FreshIds(t)
    ensures forall k :: 0 <= k < |findings| ==>
      Stands(CreateMissing(t, companyId, findings).checks, companyId, findings[k])
    decreases |findings|
  {
    if findings != [] {
      var n := |findings| - 1;
      var t1, t2 := CreateMissing(t, companyId, findings[..n]), CreateMissing(t, companyId, findings);
      MissingCreated(t, companyId, findings[..n]);
      CreateMissingKeeps(t, companyId, findings[..n]);
      if !Stands(t1.checks, companyId, findings[n]) {
        assert Reports(t2.checks[t1.nextId], companyId, findings[n]);
        forall k | 0 <= k < n ensures Stands(t2.checks, companyId, findings[k]) {
          assert findings[..n][k] == findings[k];
          var id :| id in t1.checks && Reports(t1.checks[id], companyId, findings[k]);
          assert id in t2.checks && Reports(t2.checks[id], companyId, findings[k]);
        }
      } else {
        forall k | 0 <= k < |findings| ensures Stands(t2.checks, companyId, findings[k]) {
          if k < n { assert findings[..n][k] == findings[k]; }
        }
      }
    }
  }

  /** What every finding says is still said by an open check after stale checks are resolved. */
  lemma {:induction false} FindingsStand(checks: map<nat, Check>, companyId: Id, findings: seq<Finding>,
          page: seq<nat>, now: int, k: nat)
    requires k < |findings| && Stands(checks, companyId, findings[k])
    ensures Stands(ResolveStale(checks, companyId, findings, page, now), companyId, findings[k])
  {
    var id :| id in checks && Reports(checks[id], companyId, findings[k]);
    assert Described(findings, SourceDescription(findings[k]));
    var checks' := ResolveStale(checks, companyId, findings, page, now);
    assert checks'[id] == checks[id];
  }

  ghost predicate NoneStale(checks: map<nat, Check>, companyId: Id, findings: seq<Finding>) {
    forall id :: id in checks ==> !Stale(checks[id], companyId, findings)
  }

  /** The open engine checks say exactly what the findings say. */
  ghost predicate Converged(checks: map<nat, Check>, companyId: Id, findings: seq<Finding>) {
    && (forall k :: 0 <= k < |findings| ==> Stands(checks, companyId, findings[k]))
    && (forall id :: id in checks && OpenEngineCheck(checks[id], companyId) ==>
          Described(findings, checks[id].description.value))
  }

  /** Converged checks are open under exactly the descriptions of the findings. */
  lemma {:induction false} ConvergedDescriptions(checks: map<nat, Check>, companyId: Id,
          findings: seq<Finding>, description: string)
    requires Converged(checks, companyId, findings)
    ensures Described(findings, description)
       <==> exists id ::
              id in checks && OpenEngineCheck(checks[id], companyId) && checks[id].description == Some(description)
  {
    if Described(findings, description) {
      var k :| 0 <= k < |findings| && SourceDescription(findings[k]) == description;
      SourceDescriptionMarked(findings[k]);
      var id :| id in checks && Reports(checks[id], companyId, findings[k]);
      assert OpenEngineCheck(checks[id], companyId) && checks[id].description == Some(description);
    }
  }

  lemma {:induction false} PageResolvesAll(checks: map<nat, Check>, companyId: Id, findings: seq<Finding>,
          page: seq<nat>, now: int)
    requires IsStalePage(checks, companyId, page)
    requires |OpenEngineChecks(checks, companyId)| <= STALE_LIMIT || NoneStale(checks, companyId, findings)
    ensures NoneStale(ResolveStale(checks, companyId, findings, page, now), companyId, findings)
  {
    var rows := OpenEngineChecks(checks, companyId);
    var checks' := ResolveStale(checks, companyId, findings, page, now);
    forall id | id in checks' ensures !Stale(checks'[id], companyId, findings) {
      if id in rows && |rows| <= STALE_LIMIT {
        assert Unordered(rows).Keys == rows;
        PageIsComplete(Unordered(rows), STALE_LIMIT, page, id);
      }
    }
  }

  /** A run with both options on and at most 1000 open engine checks, or none stale, converges. */
  lemma {:induction false} EngineConverges(t: Table, companyId: Id, findings: seq<Finding>, page: seq<nat>, now: int)
    requires FreshIds(t)
    requires var checks := AfterCreation(t, companyId, findings, true).checks;
      && IsStalePage(checks, companyId, page)
      && (|OpenEngineChecks(checks, companyId)| <= STALE_LIMIT || NoneStale(checks, companyId, findings))
    ensures Converged(EngineRun(t, companyId, findings, true, true, page, now).checks, companyId, findings)
  {
    var checks := AfterCreation(t, companyId, findings, true).checks;
    var checks' := ResolveStale(checks, companyId, findings, page, now);
    MissingCreated(t, companyId, findings);
    forall k | 0 <= k < |findings| ensures Stands(checks', companyId, findings[k]) {
      FindingsStand(checks, companyId, findings, page, now, k);
    }
    PageResolvesAll(checks, companyId, findings, page, now);
  }

  /** A page of rows that leaves one row out. */
  lemma {:induction false} PageWithout(rows: set<nat>, limit: nat, left: nat) returns (page: seq<nat>)
    requires left in rows && limit < |rows|
    ensures IsPage(Unordered(rows), limit, page) && left !in page
    decreases limit
  {
    assert Unordered(rows).Keys == rows;
    if limit == 0 {
      page := [];
    } else {
      var k := AnotherRow(rows, left);
      var rest := rows - {k};
      var init := PageWithout(rest, limit - 1, left);
      assert Unordered(rest).Keys == rest;
      page := init + [k];
      assert forall j :: j in init ==> j in Unordered(rest);
    }
  }

  lemma AnotherRow(rows: set<nat>, left: nat) returns (k: nat)
    requires left in rows && |rows| > 1
    ensures k in rows && k != left
  {
    var others := rows - {left};
    assert |others| == |rows| - 1;
    k :| k in others;
  }

  /** Every page makes a run converge exactly when the open engine checks fit or none of them is stale. */
  lemma {:induction false} EngineConvergesIff(t: Table, companyId: Id, findings: seq<Finding>, now: int)
    requires FreshIds(t)
    ensures var checks := AfterCreation(t, companyId, findings, true).checks;
      (|OpenEngineChecks(checks, companyId)| <= STALE_LIMIT || NoneStale(checks, companyId, findings))
      <==> forall page :: IsStalePage(checks, companyId, page) ==>
             Converged(EngineRun(t, companyId, findings, true, true, page, now).checks, companyId, findings)
  {
    var checks := AfterCreation(t, companyId, findings, true).checks;
    var rows := OpenEngineChecks(checks, companyId);
    if |rows| <= STALE_LIMIT || NoneStale(checks, companyId, findings) {
      forall page | IsStalePage(checks, companyId, page)
        ensures Converged(EngineRun(t, companyId, findings, true, true, page, now).checks, companyId, findings)
      {
        EngineConverges(t, companyId, findings, page, now);
      }
    } else {
      var left :| left in checks && Stale(checks[left], companyId, findings);
      var page := PageWithout(rows, STALE_LIMIT, left);
      var checks' := EngineRun(t, companyId, findings, true, true, page, now).checks;
      assert IsStalePage(checks, companyId, page) && checks'[left] == checks[left];
      assert !Converged(checks', companyId, findings);
    }
  }

  // A run that does not converge.

  function Keyed(k: nat): Finding {
    Finding(seq(k, _ => 'k'), "", INFO, "", "", None)
  }

  function ManyFindings(n: nat): seq<Finding> {
    seq(n, k requires 0 <= k => Keyed(k))
  }

  lemma KeyedLength(k: nat)
    ensures |SourceDescription(Keyed(k))| == |SourceDescription(Keyed(0))| + k
  {
    assert |Keyed(k).key| == k;
  }

  function ManyChecks(companyId: Id, n: nat): (checks: map<nat, Check>)
    ensures forall id: nat :: id in checks <==> id < n
    ensures forall id :: id in checks ==> checks[id] == CheckOf(companyId, Keyed(id))
    ensures |checks.Keys| == n
  {
    if n == 0 then map[]
    else
      var init := ManyChecks(companyId, n - 1);
      var all := init[n - 1 := CheckOf(companyId, Keyed(n - 1))];
      assert n - 1 !in init.Keys && all.Keys == init.Keys + {n - 1};
      assert |all.Keys| == |init.Keys| + 1;
      all
  }

  /** Findings with different keys get one check each. */
  lemma {:induction false} ManyCreated(companyId: Id, n: nat)
    ensures CreateMissing(Table(map[], 0), companyId, ManyFindings(n)) == Table(ManyChecks(companyId, n), n)
  {
    if n > 0 {
      ManyCreated(companyId, n - 1);
      assert ManyFindings(n)[..n - 1] == ManyFindings(n - 1);
      var checks := ManyChecks(companyId, n - 1);
      forall id | id in checks ensures !Reports(checks[id], companyId, Keyed(n - 1)) {
        KeyedLength(id);
        KeyedLength(n - 1);
      }
    }
  }

  /** The table after a run of the engine on so many findings. */
  function ManyRun(companyId: Id, n: nat, now: int): Table {
    Run(Table(map[], 0), [(Engine(companyId, ManyFindings(n), true, false, []), now)])
  }

  lemma ManyRunIs(companyId: Id, n: nat, now: int)
    ensures ManyRun(companyId, n, now) == Table(ManyChecks(companyId, n), n)
  {
    var call := Engine(companyId, ManyFindings(n), true, false, []);
    assert [(call, now)][..0] == [];
    assert Run(Table(map[], 0), []) == Table(map[], 0);
    ManyCreated(companyId, n);
  }

  lemma ManyStale(companyId: Id, n: nat)
    ensures OpenEngineChecks(ManyChecks(companyId, n), companyId) == ManyChecks(companyId, n).Keys
    ensures forall id :: id in ManyChecks(companyId, n) ==> Stale(ManyChecks(companyId, n)[id], companyId, [])
  {
    forall id | id in ManyChecks(companyId, n) ensures Stale(ManyChecks(companyId, n)[id], companyId, []) {
      SourceDescriptionMarked(Keyed(id));
    }
  }

  /** A run that fetches the given page does not converge. */
  ghost predicate LeavesStale(t: Table, companyId: Id, findings: seq<Finding>, page: seq<nat>, now: int) {
    && IsStalePage(AfterCreation(t, companyId, findings, true).checks, companyId, page)
    && !Converged(EngineRun(t, companyId, findings, true, true, page, now).checks, companyId, findings)
  }

  /** After a run on 1001 findings, a run on none can leave an engine check open. */
  lemma UnconvergedIsReached(companyId: Id, now: int)
    ensures exists page :: LeavesStale(ManyRun(companyId, TOO_MANY, now), companyId, [], page, now)
  {
    hide Converged, EngineRun, ManyRun, OpenEngineChecks, Stale, IsStalePage;
    var t := ManyRun(companyId, TOO_MANY, now);
    ManyRunIs(companyId, TOO_MANY, now);
    ManyStale(companyId, TOO_MANY);
    assert 0 in t.checks && Stale(t.checks[0], companyId, []);
    EngineConvergesIff(t, companyId, [], now);
    var page :| IsStalePage(t.checks, companyId, page)
      && !Converged(EngineRun(t, companyId, [], true, true, page, now).checks, companyId, []);
    assert LeavesStale(t, companyId, [], page, now);
  }

  /** Once converged, a run on the same findings changes nothing, whatever it fetches. */
  lemma {:induction false} SecondRunChangesNothing(t: Table, companyId: Id, findings: seq<Finding>,
          create: bool, resolve: bool, page: seq<nat>, now: int)
    requires Converged(t.checks, companyId, findings)
    ensures EngineRun(t, companyId, findings, create, resolve, page, now) == t
  {
    NothingMissing(t, companyId, findings);
    assert ResolveStale(t.checks, companyId, findings, page, now) == t.checks;
  }

  lemma {:induction false} NothingMissing(t: Table, companyId: Id, findings: seq<Finding>)
    requires forall k :: 0 <= k < |findings| ==> Stands(t.checks, companyId, findings[k])
    ensures CreateMissing(t, companyId, findings) == t
    decreases |findings|
  {
    if findings != [] { NothingMissing(t, companyId, findings[..|findings| - 1]); }
  }

  /** A run touches no check that a finding describes, none outside the engine, and none of another company. */
  lemma {:induction false} EngineSpares(t: Table, companyId: Id, findings: seq<Finding>, create: bool,
          resolve: bool, page: seq<nat>, now: int, id: nat)
    requires FreshIds(t) && id in t.checks && !Stale(t.checks[id], companyId, findings)
    ensures var checks := EngineRun(t, companyId, findings, create, resolve, page, now).checks;
      id in checks && checks[id] == t.checks[id]
  {
    CreateMissingKeeps(t, companyId, findings);
  }

  // The service.

  predicate SameReport(f: Finding, g: Finding) {
    f.checkName == g.checkName && SourceDescription(f) == SourceDescription(g)
  }

  /** The first run creates a check for a finding exactly when none stood and no earlier finding says the same. */
  predicate Created(t: Table, companyId: Id, findings: seq<Finding>, k: nat)
    requires k < |findings|
  {
    && !Stands(t.checks, companyId, findings[k])
    && forall j :: 0 <= j < k ==> !SameReport(findings[j], findings[k])
  }

  lemma {:induction false} StandsAfter(t: Table, companyId: Id, findings: seq<Finding>, f: Finding)
    requires FreshIds(t)
    ensures Stands(CreateMissing(t, companyId, findings).checks, companyId, f)
       <==> Stands(t.checks, companyId, f)
            || exists j :: 0 <= j < |findings| && SameReport(findings[j], f)
    decreases |findings|
  {
    if findings != [] {
      var n := |findings| - 1;
      var t1, t2 := CreateMissing(t, companyId, findings[..n]), CreateMissing(t, companyId, findings);
      StandsAfter(t, companyId, findings[..n], f);
      CreateMissingKeeps(t, companyId, findings[..n]);
      if j :| 0 <= j < n && SameReport(findings[j], f) {
        assert findings[..n][j] == findings[j];
      }
      if !Stands(t1.checks, companyId, findings[n]) {
        if Stands(t1.checks, companyId, f) {
          var id :| id in t1.checks && Reports(t1.checks[id], companyId, f);
          assert id in t2.checks && Reports(t2.checks[id], companyId, f);
        }
        if SameReport(findings[n], f) {
          assert Reports(t2.checks[t1.nextId], companyId, f);
        }
      }
    }
  }

  datatype Summary = Summary(
    count: int, open: int, resolved: int, ignored: int, inProgress: int, info: int, warning: int, critical: int,
    riskScore: int)

  function OneIf(b: bool): nat {
    if b then 1 else 0
  }

  /** How many of the checks p holds for. */
  function Count(items: seq<Check>, p: Check -> bool): nat {
    if items == [] then 0
    else Count(items[..|items| - 1], p) + OneIf(p(items[|items| - 1]))
  }

  /** Neither marked resolved nor closed by status. */
  predicate Pending(c: Check) {
    !c.resolved && !Closed(c.status)
  }

  function Solved(): Check -> bool {
    (c: Check) => c.resolved || c.status == RESOLVED
  }

  function Unsolved(status: Status): Check -> bool {
    (c: Check) => !c.resolved && c.status == status
  }

  function PendingAt(severity: Severity): Check -> bool {
    (c: Check) => Pending(c) && c.severity == severity
  }

  /** The counters after a list of checks: four groups by state, and the pending ones again by severity. */
  ghost predicate Tallied(s: Summary, items: seq<Check>) {
    && s.resolved == Count(items, Solved()) && s.ignored == Count(items, Unsolved(IGNORED))
    && s.inProgress == Count(items, Unsolved(IN_PROGRESS)) && s.open == Count(items, Unsolved(OPEN))
    && s.info == Count(items, PendingAt(INFO)) && s.warning == Count(items, PendingAt(WARNING))
    && s.critical == Count(items, PendingAt(CRITICAL))
    && s.open + s.inProgress == s.info + s.warning + s.critical
    && s.open + s.inProgress + s.ignored + s.resolved == s.count == |items|
  }

  function Penalty(s: Summary): int {
    18 * s.critical + 8 * s.warning + 2 * s.info
  }

  lemma CountAppend(items: seq<Check>, c: Check, p: Check -> bool)
    ensures Count(items + [c], p) == Count(items, p) + OneIf(p(c))
  {
    assert (items + [c])[..|items|] == items;
  }

  /** Two conditions that agree on the checks count the same. */
  lemma {:induction false} CountAgrees(items: seq<Check>, p: Check -> bool, q: Check -> bool)
    requires forall c :: c in items ==> (p(c) <==> q(c))
    ensures Count(items, p) == Count(items, q)
  {
    if items != [] { CountAgrees(items[..|items| - 1], p, q); }
  }

  lemma {:induction false} CountPositive(items: seq<Check>, p: Check -> bool)
    ensures Count(items, p) > 0 <==> exists c :: c in items && p(c)
  {
    if items != [] {
      var init, last := items[..|items| - 1], items[|items| - 1];
      CountPositive(init, p);
      assert forall c :: c in items <==> c in init || c == last;
    }
  }

  /** One check counts in its group, and by severity if it is pending. */
  ghost predicate Adds(s: Summary, item: Check, r: Summary) {
    && r.count == s.count && r.riskScore == s.riskScore
    && r.resolved == s.resolved + OneIf(Solved()(item)) && r.ignored == s.ignored + OneIf(Unsolved(IGNORED)(item))
    && r.inProgress == s.inProgress + OneIf(Unsolved(IN_PROGRESS)(item))
    && r.open == s.open + OneIf(Unsolved(OPEN)(item))
    && r.info == s.info + OneIf(PendingAt(INFO)(item)) && r.warning == s.warning + OneIf(PendingAt(WARNING)(item))
    && r.critical == s.critical + OneIf(PendingAt(CRITICAL)(item))
  }

  method TallyCheck(s: Summary, item: Check) returns (r: Summary, penalty: int)
    ensures Adds(s, item, r)
    ensures penalty == Penalty(r) - Penalty(s)
  {
    r, penalty := s, 0;
    if item.resolved || item.status == RESOLVED { r := r.(resolved := r.resolved + 1); }
    else if item.status == IGNORED { r := r.(ignored := r.ignored + 1); }
    else if item.status == IN_PROGRESS { r := r.(inProgress := r.inProgress + 1); }
    else { r := r.(open := r.open + 1); }
    if !item.resolved && item.status != RESOLVED && item.status != IGNORED {
      if item.severity == CRITICAL { r, penalty := r.(critical := r.critical + 1), 18; }
      else if item.severity == WARNING { r, penalty := r.(warning := r.warning + 1), 8; }
      else { r, penalty := r.(info := r.info + 1), 2; }
    }
  }

  lemma TalliedStep(s: Summary, items: seq<Check>, item: Check, r: Summary)
    requires Tallied(s, items) && Adds(s, item, r)
    ensures Tallied(r.(count := |items| + 1), items + [item])
  {
    CountAppend(items, item, Solved());
    forall status
      ensures Count(items + [item], Unsolved(status)) == Count(items, Unsolved(status)) + OneIf(Unsolved(status)(item))
    {
      CountAppend(items, item, Unsolved(status));
    }
    forall sev
      ensures Count(items + [item], PendingAt(sev)) == Count(items, PendingAt(sev)) + OneIf(PendingAt(sev)(item))
    {
      CountAppend(items, item, PendingAt(sev));
    }
  }

  /** Each check is in one group; the score is full exactly when nothing is open or in progress. */
  method BuildChecksSummary(items: seq<Check>) returns (s: Summary)
    ensures Tallied(s, items)
    ensures 0 <= s.riskScore <= 100 && (s.riskScore == 100 <==> s.open + s.inProgress == 0)
    ensures s.riskScore > 0 <==> Penalty(s) < 100
    ensures s.riskScore > 0 ==> s.riskScore == 100 - Penalty(s)
  {
    s := Summary(|items|, 0, 0, 0, 0, 0, 0, 0, 100);
    var penalty := 0;
    for i := 0 to |items|
      invariant Tallied(s.(count := i), items[..i]) && s.count == |items| && penalty == Penalty(s)
    {
      assert items[..i + 1] == items[..i] + [items[i]];
      ghost var before := s.(count := i);
      var added;
      s, added := TallyCheck(s, items[i]);
      TalliedStep(before, items[..i], items[i], s.(count := i));
      penalty := penalty + added;
    }
    assert items[..|items|] == items;
    var left := 100 - penalty;
    s := s.(riskScore := if left < 0 then 0 else if left > 100 then 100 else left);
  }

  /** A check is counted as ignored exactly when it has that status and is not marked resolved. */
  lemma IgnoredIsCountedIff(s: Summary, items: seq<Check>)
    requires Tallied(s, items)
    ensures s.ignored > 0 <==> exists c :: c in items && c.status == IGNORED && !c.resolved
  {
    CountPositive(items, Unsolved(IGNORED));
  }

  /** On the checks this service writes nothing counts as ignored, and resolved takes all closed ones. */
  lemma SummaryOfRun(t: Table, calls: seq<(Call, int)>, items: seq<Check>, s: Summary)
    requires ConsistentTable(t) && Tallied(s, items)
    requires forall c :: c in items ==> c in Run(t, calls).checks.Values
    ensures s.ignored == 0
    ensures s.resolved == Count(items, (c: Check) => Closed(c.status))
    ensures s.open == Count(items, (c: Check) => c.status == OPEN)
    ensures s.inProgress == Count(items, (c: Check) => c.status == IN_PROGRESS)
  {
    RunKeepsConsistent(t, calls);
    assert forall c :: c in items ==> Consistent(c);
    CountPositive(items, Unsolved(IGNORED));
    CountAgrees(items, Solved(), (c: Check) => Closed(c.status));
    CountAgrees(items, Unsolved(OPEN), (c: Check) => c.status == OPEN);
    CountAgrees(items, Unsolved(IN_PROGRESS), (c: Check) => c.status == IN_PROGRESS);
  }

  /** The findings among the first n that a run creates checks for, in order. */
  function Firsts(t: Table, companyId: Id, findings: seq<Finding>, n: nat): seq<Finding>
    requires n <= |findings|
  {
    if n == 0 then []
    else
      Firsts(t, companyId, findings, n - 1)
      + if Created(t, companyId, findings, n - 1) then [findings[n - 1]] else []
  }

  lemma {:induction false} FirstIffMissing(t: Table, companyId: Id, findings: seq<Finding>, k: nat)
    requires FreshIds(t) && k < |findings|
    ensures Created(t, companyId, findings, k)
       <==> !Stands(CreateMissing(t, companyId, findings[..k]).checks, companyId, findings[k])
  {
    StandsAfter(t, companyId, findings[..k], findings[k]);
    if !Created(t, companyId, findings, k) && !Stands(t.checks, companyId, findings[k]) {
      var j :| 0 <= j < k && SameReport(findings[j], findings[k]);
      assert findings[..k][j] == findings[j];
    }
  }

  lemma {:induction false} CreationStep(t: Table, companyId: Id, findings: seq<Finding>, k: nat)
    requires FreshIds(t) && k < |findings|
    ensures var t1 := CreateMissing(t, companyId, findings[..k]);
      && CreateMissing(t, companyId, findings[..k + 1])
         == (if Stands(t1.checks, companyId, findings[k]) then t1 else Insert(t1, CheckOf(companyId, findings[k])))
      && (Created(t, companyId, findings, k) <==> !Stands(t1.checks, companyId, findings[k]))
  {
    assert findings[..k + 1][..k] == findings[..k];
    FirstIffMissing(t, companyId, findings, k);
  }

  /** The first k findings are created or skipped. */
  ghost predicate CreatedSoFar(t: Table, companyId: Id, findings: seq<Finding>, k: nat, now: Table,
          created: seq<Finding>, skipped: seq<Finding>)
    requires k <= |findings|
  {
    && now == CreateMissing(t, companyId, findings[..k])
    && multiset(created) + multiset(skipped) == multiset(findings[..k])
    && created == Firsts(t, companyId, findings, k)
  }

  lemma {:induction false} CreatedSoFarStep(t: Table, companyId: Id, findings: seq<Finding>, k: nat,
          now: Table, created: seq<Finding>, skipped: seq<Finding>)
    requires FreshIds(t) && k < |findings| && CreatedSoFar(t, companyId, findings, k, now, created, skipped)
    ensures !Stands(now.checks, companyId, findings[k]) ==>
      CreatedSoFar(t, companyId, findings, k + 1, Insert(now, CheckOf(companyId, findings[k])),
                   created + [findings[k]], skipped)
    ensures Stands(now.checks, companyId, findings[k]) ==>
      CreatedSoFar(t, companyId, findings, k + 1, now, created, skipped + [findings[k]])
  {
    var f := findings[k];
    CreationStep(t, companyId, findings, k);
    assert multiset(findings[..k + 1]) == multiset(findings[..k]) + multiset{f} by {
      assert findings[..k + 1] == findings[..k] + [f];
    }
    assert multiset(created + [f]) == multiset(created) + multiset{f};
    assert multiset(skipped + [f]) == multiset(skipped) + multiset{f};
  }

  lemma NoPage(checks: map<nat, Check>, companyId: Id, findings: seq<Finding>, now: int)
    ensures ResolveStale(checks, companyId, findings, [], now) == checks
  {
  }

  lemma {:induction false} ResolutionStep(checks: map<nat, Check>, companyId: Id, findings: seq<Finding>,
          page: seq<nat>, now: int, k: nat)
    requires IsStalePage(checks, companyId, page) && k < |page|
    ensures var id, before := page[k], ResolveStale(checks, companyId, findings, page[..k], now);
      && id in before && before[id] == checks[id] && OpenEngineCheck(checks[id], companyId)
      && ResolveStale(checks, companyId, findings, page[..k + 1], now)
         == if Stale(checks[id], companyId, findings) then before[id := Resolved(checks[id], now)] else before
  {
    assert page[..k + 1] == page[..k] + [page[k]];
    assert page[k] in Unordered(OpenEngineChecks(checks, companyId));
    assert page[k] !in page[..k];
  }

  class ComplianceService {
    var companies: set<Id>
    var checks: map<nat, Check>
    var nextId: nat

    constructor (companies: set<Id>)
      ensures State() == Table(map[], 0) && ConsistentTable(State())
    {
      this.companies, checks, nextId := companies, map[], 0;
    }

    ghost function State(): Table
      reads this
    {
      Table(checks, nextId)
    }

    method CreateCheck(companyId: Id, name: string, severity: Option<Severity>, status: Option<Status>,
            description: Option<string>, now: int)
      returns (found: bool)
      modifies this`checks, this`nextId
      ensures found <==> companyId in companies
      ensures State() ==
        if found then Step(old(State()), Create(companyId, name, severity, status, description), now) else old(State())
    {
      if companyId !in companies { return false; }
      var s := status.UnwrapOr(OPEN);
      var resolved := s == RESOLVED || s == IGNORED;
      checks := checks[nextId :=
        Check(companyId, Trim(name), severity.UnwrapOr(INFO), s, Trimmed(description), resolved,
              if resolved then Some(now) else None)];
      nextId := nextId + 1;
      found := true;
    }

    method UpdateCheck(companyId: Id, checkId: nat, dto: Patch, now: int) returns (found: bool)
      modifies this`checks
      ensures found <==> checkId in old(checks) && old(checks)[checkId].companyId == companyId
      ensures State() == Step(old(State()), Change(companyId, checkId, dto), now)
    {
      if checkId !in checks || checks[checkId].companyId != companyId { return false; }
      var c := checks[checkId];
      if dto.severity.Some? { c := c.(severity := dto.severity.value); }
      if dto.description.Some? { c := c.(description := Trimmed(dto.description.value)); }
      if dto.status.Some? {
        var resolved := dto.status.value == RESOLVED || dto.status.value == IGNORED;
        c := c.(status := dto.status.value, resolved := resolved, resolvedAt := if resolved then Some(now) else None);
      }
      checks := checks[checkId := c];
      found := true;
    }

    method CreateIfMissing(companyId: Id, finding: Finding) returns (isNew: bool)
      modifies this`checks, this`nextId
      ensures isNew <==> !Stands(old(checks), companyId, finding)
      ensures State() == if isNew then Insert(old(State()), CheckOf(companyId, finding)) else old(State())
    {
      if Stands(checks, companyId, finding) { return false; }
      checks := checks[nextId := CheckOf(companyId, finding)];
      nextId := nextId + 1;
      isNew := true;
    }

    /** The first loop of the engine: a finding is created or skipped. */
    method CreateChecks(companyId: Id, findings: seq<Finding>) returns (created: seq<Finding>, skipped: seq<Finding>)
      requires FreshIds(State())
      modifies this`checks, this`nextId
      ensures State() == CreateMissing(old(State()), companyId, findings)
      ensures multiset(created) + multiset(skipped) == multiset(findings)
      ensures created == Firsts(old(State()), companyId, findings, |findings|)
    {
      created, skipped := [], [];
      ghost var t := State();
      for k := 0 to |findings|
        invariant CreatedSoFar(t, companyId, findings, k, State(), created, skipped)
      {
        var finding := findings[k];
        CreatedSoFarStep(t, companyId, findings, k, State(), created, skipped);
        var isNew := CreateIfMissing(companyId, finding);
        if isNew { created := created + [finding]; } else { skipped := skipped + [finding]; }
      }
      assert findings[..|findings|] == findings;
    }

    method ResolveIfStale(companyId: Id, findings: seq<Finding>, id: nat, now: int)
      requires id in checks && OpenEngineCheck(checks[id], companyId)
      modifies this`checks
      ensures checks ==
        if Stale(old(checks)[id], companyId, findings) then old(checks)[id := Resolved(old(checks)[id], now)]
        else old(checks)
    {
      if !Described(findings, checks[id].description.value) {
        checks := checks[id := Resolved(checks[id], now)];
      }
    }

    /** The second loop: the stale checks among at most 1000 open engine checks are resolved. */
    method ResolveStaleChecks(companyId: Id, findings: seq<Finding>, now: int) returns (page: seq<nat>)
      modifies this`checks
      ensures IsStalePage(old(checks), companyId, page)
      ensures checks == ResolveStale(old(checks), companyId, findings, page, now)
    {
      page := FetchPage(Unordered(OpenEngineChecks(checks, companyId)), STALE_LIMIT);
      ghost var before := checks;
      NoPage(before, companyId, findings, now);
      for k := 0 to |page|
        invariant checks == ResolveStale(before, companyId, findings, page[..k], now)
      {
        ResolutionStep(before, companyId, findings, page, now, k);
        ResolveIfStale(companyId, findings, page[k], now);
      }
      assert page[..|page|] == page;
    }

    method RunEngine(companyId: Id, findings: seq<Finding>, createChecks: bool, resolveStale: bool, now: int)
      returns (found: bool, created: seq<Finding>, skipped: seq<Finding>, page: seq<nat>)
      requires FreshIds(State())
      modifies this`checks, this`nextId
      ensures found <==> companyId in companies
      ensures !found ==> State() == old(State())
      ensures found ==> State() == EngineRun(old(State()), companyId, findings, createChecks, resolveStale, page, now)
      ensures found && createChecks ==> multiset(created) + multiset(skipped) == multiset(findings)
      ensures found && createChecks ==> created == Firsts(old(State()), companyId, findings, |findings|)
      ensures found && createChecks && resolveStale
           && |OpenEngineChecks(CreateMissing(old(State()), companyId, findings).checks, companyId)| <= STALE_LIMIT
           ==> Converged(checks, companyId, findings)
    {
      created, skipped, page := [], [], [];
      if companyId !in companies { return false, created, skipped, page; }
      ghost var t := State();
      if createChecks { created, skipped := CreateChecks(companyId, findings); }
      if resolveStale { page := ResolveStaleChecks(companyId, findings, now); }
      if createChecks && resolveStale
         && |OpenEngineChecks(CreateMissing(t, companyId, findings).checks, companyId)| <= STALE_LIMIT {
        EngineConverges(t, companyId, findings, page, now);
      }
      found := true;
    }
  }
}
