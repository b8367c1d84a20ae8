/**
 * Imports of statements and runs of the compliance engine that overlap, as jobs that check for a
 * row and then create it (src/modules/banking/import.service.ts,
 * src/modules/compliance-enterprise/compliance-enterprise.service.ts). No row is removed or
 * resolved meanwhile. A job may stop anywhere, as an import does at an entry it cannot write.
 */
module OverlappingRuns {
  import opened Entities
  import opened OfxImport
  import opened Wrappers
  import Compliance
  import Jobs = CheckThenCreate

  // Imports: a row is known by its company, account and FITID.

  type RowKey = (Id, Id, string)

  datatype File = File(companyId: Id, accountId: Id, lines: seq<Line>)

  function RowKeys(rows: seq<Row>): seq<RowKey> {
    seq(|rows|, i requires 0 <= i < |rows| => (rows[i].companyId, rows[i].accountId, rows[i].fitid))
  }

  predicate AllWritable(lines: seq<Line>) {
    forall k :: 0 <= k < |lines| ==> Writable(lines[k])
  }

  function FileKeys(file: File): seq<RowKey>
    requires AllWritable(file.lines)
  {
    seq(|file.lines|, k requires 0 <= k < |file.lines| =>
      assert Writable(file.lines[k]); (file.companyId, file.accountId, file.lines[k].fitid))
  }

  function ImportJobs(files: seq<File>): seq<Jobs.Job<RowKey>>
    requires forall i :: 0 <= i < |files| ==> AllWritable(files[i].lines)
  {
    seq(|files|, i requires 0 <= i < |files| => Jobs.Job(FileKeys(files[i]), 0, false))
  }

  lemma HasFitidIff(rows: seq<Row>, companyId: Id, accountId: Id, fitid: string)
    ensures HasFitid(rows, companyId, accountId, fitid) <==> (companyId, accountId, fitid) in RowKeys(rows)
  {
    if i :| 0 <= i < |rows| && Holds(rows[i], companyId, accountId, fitid) {
      assert RowKeys(rows)[i] == (companyId, accountId, fitid);
    }
    if (companyId, accountId, fitid) in RowKeys(rows) {
      var i :| 0 <= i < |rows| && RowKeys(rows)[i] == (companyId, accountId, fitid);
      assert Holds(rows[i], companyId, accountId, fitid);
    }
  }

  lemma UniqueIff(rows: seq<Row>)
    ensures UniqueFitids(rows) <==> Jobs.Unique(RowKeys(rows))
  {
    forall i, j | 0 <= i < j < |rows|
      ensures RowKeys(rows)[i] != RowKeys(rows)[j]
         <==> !Holds(rows[j], rows[i].companyId, rows[i].accountId, rows[i].fitid)
    {
    }
  }

  /** An import that nothing overlaps is a job that nothing overlaps. */
  lemma {:induction false} ImportIsAlone(rows: seq<Row>, file: File)
    requires AllWritable(file.lines)
    ensures RowKeys(Import(rows, file.companyId, file.accountId, file.lines).rows)
         == Jobs.Alone(RowKeys(rows), FileKeys(file))
    ensures !Import(rows, file.companyId, file.accountId, file.lines).failed
    decreases |file.lines|
  {
    if file.lines != [] {
      var n := |file.lines| - 1;
      var init, line := file.(lines := file.lines[..n]), file.lines[n];
      ImportIsAlone(rows, init);
      assert Writable(line);
      assert FileKeys(file)[..n] == FileKeys(init);
      var before := Import(rows, file.companyId, file.accountId, init.lines).rows;
      HasFitidIff(before, file.companyId, file.accountId, line.fitid);
      var row := RowOf(|before|, file.companyId, file.accountId, line);
      assert RowKeys(before + [row]) == RowKeys(before) + [(file.companyId, file.accountId, line.fitid)];
    } else {
      assert FileKeys(file) == [];
    }
  }

  /** Two of the files are for one account and name a FITID that it does not hold. */
  ghost predicate ShareNewFitid(rows: seq<Row>, files: seq<File>) {
    exists i, j, fitid :: 0 <= i < j < |files| && Share(rows, files[i], files[j], fitid)
  }

  predicate Share(rows: seq<Row>, f: File, g: File, fitid: string) {
    && f.companyId == g.companyId && f.accountId == g.accountId
    && NamedIn(f, fitid) && NamedIn(g, fitid)
    && !HasFitid(rows, f.companyId, f.accountId, fitid)
  }

  predicate NamedIn(file: File, fitid: string) {
    exists k :: 0 <= k < |file.lines| && Names(file.lines[k], fitid)
  }

  lemma HoldsIff(file: File, companyId: Id, accountId: Id, fitid: string)
    requires AllWritable(file.lines)
    ensures Jobs.Holds(Jobs.Job(FileKeys(file), 0, false), (companyId, accountId, fitid))
       <==> file.companyId == companyId && file.accountId == accountId && NamedIn(file, fitid)
  {
    var job, key := Jobs.Job(FileKeys(file), 0, false), (companyId, accountId, fitid);
    if Jobs.Holds(job, key) {
      var k :| 0 <= k < |job.keys| && job.keys[k] == key;
      assert Writable(file.lines[k]) && Names(file.lines[k], fitid);
    }
    if file.companyId == companyId && file.accountId == accountId && NamedIn(file, fitid) {
      var k :| 0 <= k < |file.lines| && Names(file.lines[k], fitid);
      assert job.keys[k] == key;
    }
  }

  /**
   * However imports of the files overlap, FITIDs stay unique per account, exactly when no two files
   * name a new FITID of one account.
   */
  lemma OverlappingImportsIff(rows: seq<Row>, files: seq<File>)
    requires UniqueFitids(rows) && forall i :: 0 <= i < |files| ==> AllWritable(files[i].lines)
    ensures Jobs.StaysUnique(Jobs.State(RowKeys(rows), ImportJobs(files))) <==> !ShareNewFitid(rows, files)
  {
    var s := Jobs.State(RowKeys(rows), ImportJobs(files));
    UniqueIff(rows);
    Jobs.StaysUniqueIff(s);
    forall i, j, key: RowKey | 0 <= i < j < |files|
      ensures Jobs.Holds(s.jobs[i], key) && Jobs.Holds(s.jobs[j], key) && key !in s.rows
         <==> Share(rows, files[i], files[j], key.2) && key.0 == files[i].companyId && key.1 == files[i].accountId
    {
      HoldsIff(files[i], key.0, key.1, key.2);
      HoldsIff(files[j], key.0, key.1, key.2);
      HasFitidIff(rows, key.0, key.1, key.2);
    }
    hide Share, UniqueFitids;
    if ShareNewFitid(rows, files) {
      var i, j, fitid :| 0 <= i < j < |files| && Share(rows, files[i], files[j], fitid);
      var key := (files[i].companyId, files[i].accountId, fitid);
      assert Jobs.Holds(s.jobs[i], key) && Jobs.Holds(s.jobs[j], key) && key !in s.rows;
      assert !Jobs.Apart(s);
    }
  }

  // Engine runs: an open check is known by its company, name and description.

  type CheckKey = (Id, string, Option<string>)

  datatype EngineRun = EngineRun(companyId: Id, findings: seq<Compliance.Finding>)

  function KeyOf(companyId: Id, f: Compliance.Finding): CheckKey {
    (companyId, f.checkName, Some(Compliance.SourceDescription(f)))
  }

  /** The keys of the open checks with ids below n. */
  function OpenKeys(checks: map<nat, Compliance.Check>, n: nat): seq<CheckKey> {
    if n == 0 then []
    else if n - 1 in checks && !checks[n - 1].resolved
    then OpenKeys(checks, n - 1) + [(checks[n - 1].companyId, checks[n - 1].checkName, checks[n - 1].description)]
    else OpenKeys(checks, n - 1)
  }

  function RunKeys(run: EngineRun): seq<CheckKey> {
    seq(|run.findings|, k requires 0 <= k < |run.findings| => KeyOf(run.companyId, run.findings[k]))
  }

  function EngineJobs(runs: seq<EngineRun>): seq<Jobs.Job<CheckKey>> {
    seq(|runs|, i requires 0 <= i < |runs| => Jobs.Job(RunKeys(runs[i]), 0, false))
  }

  lemma {:induction false} OpenKeysIff(checks: map<nat, Compliance.Check>, n: nat, key: CheckKey)
    ensures key in OpenKeys(checks, n)
       <==> exists id :: id in checks && id < n && !checks[id].resolved
                         && (checks[id].companyId, checks[id].checkName, checks[id].description) == key
  {
    if n > 0 { OpenKeysIff(checks, n - 1, key); }
  }

  lemma StandsIff(t: Compliance.Table, companyId: Id, f: Compliance.Finding)
    requires Compliance.FreshIds(t)
    ensures Compliance.Stands(t.checks, companyId, f) <==> KeyOf(companyId, f) in OpenKeys(t.checks, t.nextId)
  {
    OpenKeysIff(t.checks, t.nextId, KeyOf(companyId, f));
    hide Compliance.SourceDescription, OpenKeys;
    if id :| id in t.checks && Compliance.Reports(t.checks[id], companyId, f) {
      assert id < t.nextId;
    }
    if id :| id in t.checks && id < t.nextId && !t.checks[id].resolved
             && (t.checks[id].companyId, t.checks[id].checkName, t.checks[id].description) == KeyOf(companyId, f) {
      assert Compliance.Reports(t.checks[id], companyId, f);
    }
  }

  lemma {:induction false} OpenKeysBelow(checks: map<nat, Compliance.Check>, id: nat, c: Compliance.Check, n: nat)
    requires n <= id
    ensures OpenKeys(checks[id := c], n) == OpenKeys(checks, n)
  {
    if n > 0 { OpenKeysBelow(checks, id, c, n - 1); }
  }

  /** The first loop of an engine run that nothing overlaps is a job that nothing overlaps. */
  lemma {:induction false} EngineRunIsAlone(t: Compliance.Table, run: EngineRun)
    requires Compliance.FreshIds(t)
    ensures var t' := Compliance.CreateMissing(t, run.companyId, run.findings);
      OpenKeys(t'.checks, t'.nextId) == Jobs.Alone(OpenKeys(t.checks, t.nextId), RunKeys(run))
    decreases |run.findings|
  {
    if run.findings != [] {
      var n := |run.findings| - 1;
      var init, f := run.(findings := run.findings[..n]), run.findings[n];
      var before := Compliance.CreateMissing(t, run.companyId, init.findings);
      EngineRunIsAlone(t, init);
      Compliance.CreateMissingKeeps(t, run.companyId, init.findings);
      StandsIff(before, run.companyId, f);
      OpenKeysBelow(before.checks, before.nextId, Compliance.CheckOf(run.companyId, f), before.nextId);
      assert RunKeys(run)[..n] == RunKeys(init);
      hide Compliance.SourceDescription, Compliance.Stands;
    } else {
      assert RunKeys(run) == [];
    }
  }

  /** Two of the runs are of one company and have findings that say the same, which no open check says. */
  ghost predicate ShareNewFinding(t: Compliance.Table, runs: seq<EngineRun>) {
    exists i, j, p, q ::
      && 0 <= i < j < |runs| && 0 <= p < |runs[i].findings| && 0 <= q < |runs[j].findings|
      && SayTheSame(t, runs[i], p, runs[j], q)
  }

  predicate SayTheSame(t: Compliance.Table, r: EngineRun, p: nat, u: EngineRun, q: nat)
    requires p < |r.findings| && q < |u.findings|
  {
    && r.companyId == u.companyId && Compliance.SameReport(r.findings[p], u.findings[q])
    && !Compliance.Stands(t.checks, r.companyId, r.findings[p])
  }

  /**
   * However engine runs on the given findings overlap, no two open checks come to say the same,
   * exactly when no two of them are of one company and share a finding that no open check reports.
   */
  lemma OverlappingEnginesIff(t: Compliance.Table, runs: seq<EngineRun>)
    requires Compliance.FreshIds(t) && Jobs.Unique(OpenKeys(t.checks, t.nextId))
    ensures Jobs.StaysUnique(Jobs.State(OpenKeys(t.checks, t.nextId), EngineJobs(runs)))
       <==> !ShareNewFinding(t, runs)
  {
    var s := Jobs.State(OpenKeys(t.checks, t.nextId), EngineJobs(runs));
    Jobs.StaysUniqueIff(s);
    if ShareNewFinding(t, runs) {
      var i, j, p, q :| 0 <= i < j < |runs| && 0 <= p < |runs[i].findings| && 0 <= q < |runs[j].findings|
        && SayTheSame(t, runs[i], p, runs[j], q);
      var key := KeyOf(runs[i].companyId, runs[i].findings[p]);
      StandsIff(t, runs[i].companyId, runs[i].findings[p]);
      assert s.jobs[i].keys[p] == key && s.jobs[j].keys[q] == key;
      assert Jobs.Holds(s.jobs[i], key) && Jobs.Holds(s.jobs[j], key);
      assert !Jobs.Apart(s);
    } else {
      forall i, j, key | 0 <= i < j < |s.jobs| && Jobs.Holds(s.jobs[i], key) && Jobs.Holds(s.jobs[j], key)
        ensures key in s.rows
      {
        var p :| 0 <= p < |s.jobs[i].keys| && s.jobs[i].keys[p] == key;
        var q :| 0 <= q < |s.jobs[j].keys| && s.jobs[j].keys[q] == key;
        StandsIff(t, runs[i].companyId, runs[i].findings[p]);
        assert !SayTheSame(t, runs[i], p, runs[j], q);
      }
    }
  }
}
