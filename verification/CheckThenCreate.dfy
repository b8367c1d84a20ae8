/**
 * Jobs that walk a list of keys, look each one up and create a row for it if there is none, the
 * look-up and the creation being two statements outside any database transaction. Any number of
 * jobs run at once. A row is its key.
 */
module CheckThenCreate {

  /** A job's keys, the next one, and whether the look-up of that one found nothing. */
  datatype Job<K> = Job(keys: seq<K>, at: nat, missed: bool)

  datatype State<K> = State(rows: seq<K>, jobs: seq<Job<K>>)

  function Moved<K(==)>(rows: seq<K>, job: Job<K>): Job<K> {
    if job.at >= |job.keys| then job
    else if job.missed || job.keys[job.at] in rows then Job(job.keys, job.at + 1, false)
    else job.(missed := true)
  }

  function Rows<K>(rows: seq<K>, job: Job<K>): seq<K> {
    if job.at < |job.keys| && job.missed then rows + [job.keys[job.at]] else rows
  }

  /** The next statement of job j. */
  function After<K(==)>(s: State<K>, j: nat): State<K> {
    if j >= |s.jobs| then s
    else State(Rows(s.rows, s.jobs[j]), s.jobs[j := Moved(s.rows, s.jobs[j])])
  }

  function Run<K(==)>(s: State<K>, js: seq<nat>): State<K>
    decreases |js|
  {
    if js == [] then s else Run(After(s, js[0]), js[1..])
  }

  ghost predicate Unique<K>(rows: seq<K>) {
    forall i, j :: 0 <= i < j < |rows| ==> rows[i] != rows[j]
  }

  ghost predicate Holds<K>(job: Job<K>, k: K) {
    exists p :: job.at <= p < |job.keys| && job.keys[p] == k
  }

  predicate Pending<K>(job: Job<K>) {
    job.missed && job.at < |job.keys|
  }

  /** The row a job is about to create is not there by now. */
  ghost predicate NoneStale<K>(s: State<K>) {
    forall j :: 0 <= j < |s.jobs| && Pending(s.jobs[j]) ==> s.jobs[j].keys[s.jobs[j].at] !in s.rows
  }

  /** No key without a row is before two jobs. */
  ghost predicate Apart<K(!new)>(s: State<K>) {
    forall i, j, k :: 0 <= i < j < |s.jobs| && Holds(s.jobs[i], k) && Holds(s.jobs[j], k) ==> k in s.rows
  }

  ghost predicate StaysUnique<K(!new)>(s: State<K>) {
    forall js :: Unique(Run(s, js).rows)
  }

  // Jobs that keep apart.

  lemma StepKeepsApart<K(!new)>(s: State<K>, j: nat)
    requires j < |s.jobs| && Unique(s.rows) && NoneStale(s) && Apart(s)
    ensures var s' := After(s, j); Unique(s'.rows) && NoneStale(s') && Apart(s')
  {
    var s' := After(s, j);
    forall i, k | 0 <= i < |s.jobs| && Holds(s'.jobs[i], k) ensures Holds(s.jobs[i], k) {
      var p :| s'.jobs[i].at <= p < |s'.jobs[i].keys| && s'.jobs[i].keys[p] == k;
      assert s.jobs[i].at <= p && s.jobs[i].keys[p] == k;
    }
    forall i | 0 <= i < |s.jobs| && Pending(s'.jobs[i]) ensures s'.jobs[i].keys[s'.jobs[i].at] !in s'.rows {
      if i != j && Pending(s.jobs[j]) {
        var mine, other := s.jobs[j].keys[s.jobs[j].at], s.jobs[i].keys[s.jobs[i].at];
        assert Holds(s.jobs[j], mine) && Holds(s.jobs[i], other);
        assert other !in s.rows;
      }
    }
  }

  lemma {:induction false} ApartStaysUnique<K(!new)>(s: State<K>, js: seq<nat>)
    requires Unique(s.rows) && NoneStale(s) && Apart(s)
    ensures Unique(Run(s, js).rows)
    decreases |js|
  {
    if js != [] {
      if js[0] < |s.jobs| { StepKeepsApart(s, js[0]); }
      ApartStaysUnique(After(s, js[0]), js[1..]);
    }
  }

  // Jobs that do not.

  lemma {:induction false} RunConcat<K>(s: State<K>, js: seq<nat>, rest: seq<nat>)
    ensures Run(s, js + rest) == Run(Run(s, js), rest)
    decreases |js|
  {
    if js == [] {
      assert js + rest == rest;
    } else {
      assert (js + rest)[1..] == js[1..] + rest;
      RunConcat(After(s, js[0]), js[1..], rest);
    }
  }

  /** Job i alone comes to the point of creating a key it holds, and creates no such row on its way. */
  lemma {:induction false} ReachMiss<K>(s: State<K>, i: nat, k: K) returns (js: seq<nat>)
    requires i < |s.jobs| && Holds(s.jobs[i], k) && k !in s.rows
    ensures var s' := Run(s, js);
      && |s'.jobs| == |s.jobs| && (forall j :: 0 <= j < |s.jobs| && j != i ==> s'.jobs[j] == s.jobs[j])
      && k !in s'.rows && Pending(s'.jobs[i]) && s'.jobs[i].keys[s'.jobs[i].at] == k
    decreases |s.jobs[i].keys| - s.jobs[i].at, !s.jobs[i].missed
  {
    var job := s.jobs[i];
    if Pending(job) && job.keys[job.at] == k {
      js := [];
    } else {
      var s1 := After(s, i);
      assert Holds(s1.jobs[i], k) by {
        var p :| job.at <= p < |job.keys| && job.keys[p] == k;
        assert s1.jobs[i].at <= p && s1.jobs[i].keys[p] == k;
      }
      var rest := ReachMiss(s1, i, k);
      js := [i] + rest;
      assert js[1..] == rest;
    }
  }

  /** Two jobs that hold a key without a row can both create it. */
  lemma TwoHoldersRepeat<K(!new)>(s: State<K>, i: nat, j: nat, k: K)
    requires i < j < |s.jobs| && Holds(s.jobs[i], k) && Holds(s.jobs[j], k) && k !in s.rows
    ensures !StaysUnique(s)
  {
    var first := ReachMiss(s, i, k);
    var s1 := Run(s, first);
    var second := ReachMiss(s1, j, k);
    var s2 := Run(s1, second);
    var s3 := After(s2, i);
    var s4 := After(s3, j);
    assert s4.rows == s2.rows + [k] + [k];
    assert s4.rows[|s2.rows|] == s4.rows[|s2.rows| + 1] == k;
    assert Run(s2, [i, j]) == s4 by {
      assert [i, j][1..] == [j];
      assert Run(s3, [j]) == Run(s4, []);
    }
    RunConcat(s1, second, [i, j]);
    RunConcat(s, first, second + [i, j]);
    assert !Unique(Run(s, first + (second + [i, j])).rows);
  }

  lemma StaleRepeats<K(!new)>(s: State<K>, j: nat)
    requires j < |s.jobs| && Pending(s.jobs[j]) && s.jobs[j].keys[s.jobs[j].at] in s.rows
    ensures !StaysUnique(s)
  {
    var k := s.jobs[j].keys[s.jobs[j].at];
    var p :| 0 <= p < |s.rows| && s.rows[p] == k;
    var rows := Run(s, [j]).rows;
    assert Run(s, [j]) == Run(After(s, j), []);
    assert rows[p] == rows[|s.rows|] == k;
  }

  /**
   * However the jobs interleave no key gets two rows, exactly when no job is about to create a row
   * that is there and no key without a row is before two jobs.
   */
  lemma StaysUniqueIff<K(!new)>(s: State<K>)
    requires Unique(s.rows)
    ensures StaysUnique(s) <==> NoneStale(s) && Apart(s)
  {
    if NoneStale(s) && Apart(s) {
      forall js ensures Unique(Run(s, js).rows) { ApartStaysUnique(s, js); }
    } else if !NoneStale(s) {
      var j :| 0 <= j < |s.jobs| && Pending(s.jobs[j]) && s.jobs[j].keys[s.jobs[j].at] in s.rows;
      StaleRepeats(s, j);
    } else {
      var i, j, k :| 0 <= i < j < |s.jobs| && Holds(s.jobs[i], k) && Holds(s.jobs[j], k) && k !in s.rows;
      TwoHoldersRepeat(s, i, j, k);
    }
  }

  // How often a key can be created.

  function Copies<K(==)>(rows: seq<K>, k: K): nat {
    if rows == [] then 0 else Copies(rows[..|rows| - 1], k) + if rows[|rows| - 1] == k then 1 else 0
  }

  /** Whether the job can still create a row for the key. */
  ghost predicate MayCreate<K>(rows: seq<K>, job: Job<K>, k: K) {
    (Pending(job) && job.keys[job.at] == k) || (k !in rows && Holds(job, k))
  }

  ghost function Creators<K>(rows: seq<K>, jobs: seq<Job<K>>, k: K): nat {
    if jobs == [] then 0
    else Creators(rows, jobs[..|jobs| - 1], k) + if MayCreate(rows, jobs[|jobs| - 1], k) then 1 else 0
  }

  lemma CopiesAppend<K>(rows: seq<K>, row: K, k: K)
    ensures Copies(rows + [row], k) == Copies(rows, k) + if row == k then 1 else 0
  {
    assert (rows + [row])[..|rows|] == rows;
  }

  /** Replacing one job by one that may create no more, over rows that only grew. */
  lemma {:induction false} CreatorsDrop<K>(rows: seq<K>, rows': seq<K>, jobs: seq<Job<K>>, j: nat, job: Job<K>, k: K)
    requires rows <= rows' && j < |jobs|
    requires MayCreate(rows', job, k) ==> MayCreate(rows, jobs[j], k)
    ensures Creators(rows', jobs[j := job], k)
         <= Creators(rows, jobs, k) - if MayCreate(rows, jobs[j], k) && !MayCreate(rows', job, k) then 1 else 0
  {
    var n := |jobs| - 1;
    if j == n {
      assert jobs[j := job][..n] == jobs[..n];
      CreatorsShrink(rows, rows', jobs[..n], k);
    } else {
      assert jobs[j := job][..n] == jobs[..n][j := job];
      CreatorsDrop(rows, rows', jobs[..n], j, job, k);
    }
  }

  lemma {:induction false} CreatorsShrink<K>(rows: seq<K>, rows': seq<K>, jobs: seq<Job<K>>, k: K)
    requires rows <= rows'
    ensures Creators(rows', jobs, k) <= Creators(rows, jobs, k)
  {
    if jobs != [] { CreatorsShrink(rows, rows', jobs[..|jobs| - 1], k); }
  }

  lemma StepKeepsCopies<K>(s: State<K>, j: nat, k: K)
    requires j < |s.jobs|
    ensures var s' := After(s, j);
      Copies(s'.rows, k) + Creators(s'.rows, s'.jobs, k) <= Copies(s.rows, k) + Creators(s.rows, s.jobs, k)
  {
    var job, s' := s.jobs[j], After(s, j);
    var job' := s'.jobs[j];
    if k !in s'.rows && Holds(job', k) {
      var p :| job'.at <= p < |job'.keys| && job'.keys[p] == k;
      assert job.keys[p] == k;
    }
    if Pending(job) { CopiesAppend(s.rows, job.keys[job.at], k); }
    if Pending(job') && job'.keys[job'.at] == k { assert Holds(job, k); }
    if Pending(job) && job.keys[job.at] == k { assert s'.rows[|s.rows|] == k; }
    CreatorsDrop(s.rows, s'.rows, s.jobs, j, job', k);
  }

  /** However the jobs interleave, a key gets at most one row from each job that holds it. */
  lemma {:induction false} CopiesAreBounded<K>(s: State<K>, js: seq<nat>, k: K)
    ensures Copies(Run(s, js).rows, k) <= Copies(s.rows, k) + Creators(s.rows, s.jobs, k)
    decreases |js|
  {
    if js != [] {
      if js[0] < |s.jobs| { StepKeepsCopies(s, js[0], k); }
      CopiesAreBounded(After(s, js[0]), js[1..], k);
    }
  }

  // Nothing is lost.

  /** Every key that a job is past has a row. */
  ghost predicate PassedRowed<K>(s: State<K>) {
    forall j, p :: 0 <= j < |s.jobs| && 0 <= p < s.jobs[j].at && p < |s.jobs[j].keys| ==> s.jobs[j].keys[p] in s.rows
  }

  lemma {:induction false} RunKeepsRowed<K>(s: State<K>, js: seq<nat>)
    requires PassedRowed(s)
    ensures PassedRowed(Run(s, js))
    decreases |js|
  {
    if js != [] {
      var s' := After(s, js[0]);
      if js[0] < |s.jobs| {
        var job := s.jobs[js[0]];
        assert forall k :: k in s.rows ==> k in s'.rows;
        if Pending(job) { assert s'.rows[|s.rows|] == job.keys[job.at]; }
      }
      RunKeepsRowed(s', js[1..]);
    }
  }

  // A job that nothing overlaps.

  function Alone<K(==)>(rows: seq<K>, keys: seq<K>): seq<K>
    decreases |keys|
  {
    if keys == [] then rows
    else
      var before, k := Alone(rows, keys[..|keys| - 1]), keys[|keys| - 1];
      if k in before then before else before + [k]
  }

  /** The steps a job takes for one key, and the rows they leave. */
  lemma OneKey<K>(s: State<K>) returns (js: seq<nat>)
    requires |s.jobs| == 1 && s.jobs[0].at < |s.jobs[0].keys| && !s.jobs[0].missed
    ensures var job := s.jobs[0]; var k := job.keys[job.at];
      Run(s, js) == State(if k in s.rows then s.rows else s.rows + [k], [Job(job.keys, job.at + 1, false)])
  {
    var job := s.jobs[0];
    var s1 := After(s, 0);
    if job.keys[job.at] in s.rows {
      js := [0];
      assert Run(s, js) == Run(s1, []);
      assert s1.jobs == [Job(job.keys, job.at + 1, false)];
    } else {
      js := [0, 0];
      assert js[1..] == [0];
      assert Run(s, js) == Run(s1, [0]) == Run(After(s1, 0), []);
      assert After(s1, 0).jobs == [Job(job.keys, job.at + 1, false)];
    }
  }

  lemma {:induction false} AloneUpTo<K>(rows: seq<K>, keys: seq<K>, n: nat) returns (js: seq<nat>)
    requires n <= |keys|
    ensures Run(State(rows, [Job(keys, 0, false)]), js) == State(Alone(rows, keys[..n]), [Job(keys, n, false)])
  {
    if n == 0 {
      js := [];
    } else {
      var init := AloneUpTo(rows, keys, n - 1);
      var s := Run(State(rows, [Job(keys, 0, false)]), init);
      var last := OneKey(s);
      js := init + last;
      RunConcat(State(rows, [Job(keys, 0, false)]), init, last);
      assert keys[..n][..n - 1] == keys[..n - 1];
    }
  }
}
