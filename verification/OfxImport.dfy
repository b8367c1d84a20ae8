/**
 * The two importers of bank statements and the balance their rows add up to
 * (src/modules/banking/import.service.ts, src/modules/banking/banking.service.ts,
 * src/modules/banking-enterprise/banking-enterprise.service.ts). Amounts are in
 * cents. A row is found by its FITID or by its id; ids of the first importer
 * are fresh, ids of the second are the FITIDs themselves.
 */
module OfxImport {
  import opened Entities
  import opened Wrappers

  datatype RowId = Fresh(n: nat) | Fitid(fitid: string)

  datatype Row = Row(id: RowId, companyId: Id, accountId: Id, fitid: string, amount: nat, kind: TransactionType,
    occurredAt: int)

  /** A statement entry: incomplete, or with an amount and a date that may not parse. */
  datatype Line = Incomplete | Line(fitid: string, amount: Option<int>, postedAt: Option<int>)

  datatype Progress = Progress(rows: seq<Row>, imported: nat, failed: bool)

  predicate HasFitid(rows: seq<Row>, companyId: Id, accountId: Id, fitid: string) {
    exists i :: 0 <= i < |rows| && Holds(rows[i], companyId, accountId, fitid)
  }

  predicate Holds(r: Row, companyId: Id, accountId: Id, fitid: string) {
    r.companyId == companyId && r.accountId == accountId && r.fitid == fitid
  }

  predicate Names(line: Line, fitid: string) {
    line.Line? && line.fitid == fitid
  }

  predicate Writable(line: Line) {
    line.Line? && line.amount.Some? && line.postedAt.Some?
  }

  // The first importer: row by row, stopping at the first entry it cannot write.

  /** Zero counts as a debit here. */
  function RowOf(n: nat, companyId: Id, accountId: Id, line: Line): Row
    requires Writable(line)
  {
    var amount := line.amount.value;
    Row(Fresh(n), companyId, accountId, line.fitid, Abs(amount),
        if amount > 0 then CREDIT else DEBIT, line.postedAt.value)
  }

  function ImportLine(p: Progress, companyId: Id, accountId: Id, line: Line): Progress {
    if p.failed then p
    else if line.Incomplete? then p.(failed := true)
    else if HasFitid(p.rows, companyId, accountId, line.fitid) then p
    else if !Writable(line) then p.(failed := true)
    else Progress(p.rows + [RowOf(|p.rows|, companyId, accountId, line)], p.imported + 1, false)
  }

  function Import(rows: seq<Row>, companyId: Id, accountId: Id, lines: seq<Line>): Progress
    decreases |lines|
  {
    if lines == [] then Progress(rows, 0, false)
    else ImportLine(Import(rows, companyId, accountId, lines[..|lines| - 1]), companyId, accountId, lines[|lines| - 1])
  }

  lemma {:induction false} HasFitidAppend(rows: seq<Row>, r: Row, companyId: Id, accountId: Id, fitid: string)
    ensures HasFitid(rows + [r], companyId, accountId, fitid)
       <==> HasFitid(rows, companyId, accountId, fitid) || Holds(r, companyId, accountId, fitid)
  {
    var rows' := rows + [r];
    if HasFitid(rows, companyId, accountId, fitid) {
      var i :| 0 <= i < |rows| && Holds(rows[i], companyId, accountId, fitid);
      assert Holds(rows'[i], companyId, accountId, fitid);
    }
    if Holds(r, companyId, accountId, fitid) { assert Holds(rows'[|rows|], companyId, accountId, fitid); }
  }

  /** An import only appends rows. */
  lemma {:induction false} ImportAppends(rows: seq<Row>, companyId: Id, accountId: Id, lines: seq<Line>, k: nat)
    requires k <= |lines|
    ensures Import(rows, companyId, accountId, lines[..k]).rows <= Import(rows, companyId, accountId, lines).rows
    ensures Import(rows, companyId, accountId, lines[..k]).failed ==>
      Import(rows, companyId, accountId, lines[..k]) == Import(rows, companyId, accountId, lines)
    decreases |lines|
  {
    if k == |lines| {
      assert lines[..k] == lines;
    } else {
      var init := lines[..|lines| - 1];
      assert init[..k] == lines[..k];
      ImportAppends(rows, companyId, accountId, init, k);
    }
  }

  lemma {:induction false} FitidStays(rows: seq<Row>, rows': seq<Row>, companyId: Id, accountId: Id, fitid: string)
    requires rows <= rows' && HasFitid(rows, companyId, accountId, fitid)
    ensures HasFitid(rows', companyId, accountId, fitid)
  {
    var i :| 0 <= i < |rows| && Holds(rows[i], companyId, accountId, fitid);
    assert rows'[i] == rows[i];
  }

  /** Over what an earlier attempt already read, a later attempt writes nothing and stops in the same place. */
  lemma {:induction false} RereadWritesNothing(rows: seq<Row>, companyId: Id, accountId: Id, lines: seq<Line>, k: nat)
    requires k <= |lines|
    ensures var done := Import(rows, companyId, accountId, lines).rows;
      Import(done, companyId, accountId, lines[..k])
      == Progress(done, 0, Import(rows, companyId, accountId, lines[..k]).failed)
    decreases k
  {
    if k > 0 {
      var done := Import(rows, companyId, accountId, lines).rows;
      var before := Import(rows, companyId, accountId, lines[..k - 1]);
      var after := Import(rows, companyId, accountId, lines[..k]);
      var line := lines[k - 1];
      assert lines[..k][..k - 1] == lines[..k - 1];
      RereadWritesNothing(rows, companyId, accountId, lines, k - 1);
      ImportAppends(rows, companyId, accountId, lines, k - 1);
      ImportAppends(rows, companyId, accountId, lines, k);
      if !before.failed && line.Line? {
        if HasFitid(before.rows, companyId, accountId, line.fitid) {
          FitidStays(before.rows, done, companyId, accountId, line.fitid);
        } else if Writable(line) {
          HasFitidAppend(before.rows, RowOf(|before.rows|, companyId, accountId, line),
                         companyId, accountId, line.fitid);
          FitidStays(after.rows, done, companyId, accountId, line.fitid);
        }
      }
    }
  }

  /** Importing any prefix, as a run that failed midway does, and then the whole file equals importing the file once. */
  lemma {:induction false} ImportResumes(rows: seq<Row>, companyId: Id, accountId: Id, lines: seq<Line>, k: nat)
    requires k <= |lines|
    ensures var first := Import(rows, companyId, accountId, lines[..k]);
      var second := Import(first.rows, companyId, accountId, lines);
      var once := Import(rows, companyId, accountId, lines);
      second.rows == once.rows && second.failed == once.failed && first.imported + second.imported == once.imported
    decreases |lines|
  {
    var n := |lines| - 1;
    if k == |lines| {
      assert lines[..k] == lines;
      RereadWritesNothing(rows, companyId, accountId, lines, k);
    } else {
      assert lines[..n][..k] == lines[..k];
      ImportResumes(rows, companyId, accountId, lines[..n], k);
    }
  }

  /** Importing a file again changes nothing. */
  lemma {:induction false} ImportTwice(rows: seq<Row>, companyId: Id, accountId: Id, lines: seq<Line>)
    ensures var once := Import(rows, companyId, accountId, lines);
      Import(once.rows, companyId, accountId, lines) == Progress(once.rows, 0, once.failed)
  {
    assert lines[..|lines|] == lines;
    RereadWritesNothing(rows, companyId, accountId, lines, |lines|);
  }

  // Uniqueness.

  ghost predicate UniqueFitids(rows: seq<Row>) {
    forall i, j :: 0 <= i < j < |rows| ==> !Holds(rows[j], rows[i].companyId, rows[i].accountId, rows[i].fitid)
  }

  lemma {:induction false} ImportKeepsUnique(rows: seq<Row>, companyId: Id, accountId: Id, lines: seq<Line>)
    requires UniqueFitids(rows)
    ensures UniqueFitids(Import(rows, companyId, accountId, lines).rows)
    decreases |lines|
  {
    if lines != [] { ImportKeepsUnique(rows, companyId, accountId, lines[..|lines| - 1]); }
  }

  /** What a row says of an entry: its FITID, size, side and date; which side zero takes depends on the importer. */
  predicate Reads(r: Row, companyId: Id, accountId: Id, line: Line, zeroKind: TransactionType) {
    && line.Line? && line.amount.Some? && line.postedAt.Some?
    && r.companyId == companyId && r.accountId == accountId && r.fitid == line.fitid
    && r.amount == (if line.amount.value < 0 then -line.amount.value else line.amount.value)
    && r.kind == (if line.amount.value > 0 then CREDIT else if line.amount.value < 0 then DEBIT else zeroKind)
    && r.occurredAt == line.postedAt.value
  }

  ghost predicate ReadsOne(r: Row, companyId: Id, accountId: Id, lines: seq<Line>, zeroKind: TransactionType) {
    exists k :: 0 <= k < |lines| && Reads(r, companyId, accountId, lines[k], zeroKind)
  }

  /** Every row an import adds says what some entry of the file says; the others stay where they were. */
  lemma {:induction false} ImportedRowsRead(rows: seq<Row>, companyId: Id, accountId: Id, lines: seq<Line>)
    ensures var after := Import(rows, companyId, accountId, lines).rows;
      && |rows| <= |after| && after[..|rows|] == rows
      && forall i :: |rows| <= i < |after| ==> ReadsOne(after[i], companyId, accountId, lines, DEBIT)
    decreases |lines|
  {
    if lines != [] {
      var init, line := lines[..|lines| - 1], lines[|lines| - 1];
      var before := Import(rows, companyId, accountId, init).rows;
      var after := Import(rows, companyId, accountId, lines).rows;
      ImportedRowsRead(rows, companyId, accountId, init);
      forall i | |rows| <= i < |after| ensures ReadsOne(after[i], companyId, accountId, lines, DEBIT) {
        if i < |before| {
          var k :| 0 <= k < |init| && Reads(before[i], companyId, accountId, init[k], DEBIT);
          assert Reads(after[i], companyId, accountId, lines[k], DEBIT);
        } else {
          assert Reads(after[i], companyId, accountId, lines[|lines| - 1], DEBIT);
        }
      }
    }
  }

  /** The count is that of the rows added, and an import stops at the first entry that is incomplete. */
  lemma {:induction false} ImportCounts(rows: seq<Row>, companyId: Id, accountId: Id, lines: seq<Line>)
    ensures var p := Import(rows, companyId, accountId, lines); |p.rows| == |rows| + p.imported
    ensures (exists k :: 0 <= k < |lines| && lines[k] == Incomplete) ==>
      Import(rows, companyId, accountId, lines).failed
    ensures (forall k :: 0 <= k < |lines| ==> Writable(lines[k])) ==> !Import(rows, companyId, accountId, lines).failed
    decreases |lines|
  {
    if lines != [] {
      var init := lines[..|lines| - 1];
      ImportCounts(rows, companyId, accountId, init);
      assert forall k :: 0 <= k < |init| ==> lines[k] == init[k];
    }
  }

  // The balance.

  /** What the rows of one kind add up to on an account. */
  function Sums(rows: seq<Row>, companyId: Id, accountId: Id, kind: TransactionType): nat {
    if rows == [] then 0
    else
      var r := rows[|rows| - 1];
      Sums(rows[..|rows| - 1], companyId, accountId, kind)
      + (if r.companyId == companyId && r.accountId == accountId && r.kind == kind then r.amount else 0)
  }

  /** Credits less debits of one account. */
  function LedgerBalance(rows: seq<Row>, companyId: Id, accountId: Id): int {
    Sums(rows, companyId, accountId, CREDIT) - Sums(rows, companyId, accountId, DEBIT)
  }

  /** The signed amount shown for a row. */
  function SignedAmount(r: Row): int {
    if r.kind == DEBIT then -(r.amount as int) else r.amount
  }

  lemma {:induction false} BalanceAppend(rows: seq<Row>, r: Row, companyId: Id, accountId: Id)
    ensures LedgerBalance(rows + [r], companyId, accountId) == LedgerBalance(rows, companyId, accountId)
      + if r.companyId == companyId && r.accountId == accountId then SignedAmount(r) else 0
  {
    assert (rows + [r])[..|rows|] == rows;
  }

  /** Entry k is the first of its FITID, in the account's rows and in the file. */
  predicate FirstSeen(rows: seq<Row>, companyId: Id, accountId: Id, lines: seq<Line>, k: nat)
    requires k < |lines| && lines[k].Line?
  {
    && !HasFitid(rows, companyId, accountId, lines[k].fitid)
    && forall j :: 0 <= j < k ==> !Names(lines[j], lines[k].fitid)
  }

  /** Signed sum of the first-seen entries among the first n. */
  function NewAmounts(rows: seq<Row>, companyId: Id, accountId: Id, lines: seq<Line>, n: nat): int
    requires n <= |lines| && forall k :: 0 <= k < n ==> Writable(lines[k])
  {
    if n == 0 then 0
    else
      assert Writable(lines[n - 1]);
      NewAmounts(rows, companyId, accountId, lines, n - 1)
      + if FirstSeen(rows, companyId, accountId, lines, n - 1) then lines[n - 1].amount.value else 0
  }

  lemma {:induction false} SeenAfter(rows: seq<Row>, companyId: Id, accountId: Id, lines: seq<Line>, n: nat,
          fitid: string)
    requires n <= |lines| && forall k :: 0 <= k < n ==> Writable(lines[k])
    ensures !Import(rows, companyId, accountId, lines[..n]).failed
    ensures HasFitid(Import(rows, companyId, accountId, lines[..n]).rows, companyId, accountId, fitid)
       <==> HasFitid(rows, companyId, accountId, fitid) || exists j :: 0 <= j < n && Names(lines[j], fitid)
  {
    if n > 0 {
      assert lines[..n][..n - 1] == lines[..n - 1];
      SeenAfter(rows, companyId, accountId, lines, n - 1, fitid);
      SeenAfter(rows, companyId, accountId, lines, n - 1, lines[n - 1].fitid);
      var before := Import(rows, companyId, accountId, lines[..n - 1]);
      if !HasFitid(before.rows, companyId, accountId, lines[n - 1].fitid) {
        HasFitidAppend(before.rows, RowOf(|before.rows|, companyId, accountId, lines[n - 1]),
                       companyId, accountId, fitid);
      }
    }
  }

  /** The balance grows by the signed sum of the first-seen FITIDs. */
  lemma {:induction false} BalanceGrows(rows: seq<Row>, companyId: Id, accountId: Id, lines: seq<Line>, n: nat)
    requires n <= |lines| && forall k :: 0 <= k < n ==> Writable(lines[k])
    ensures LedgerBalance(Import(rows, companyId, accountId, lines[..n]).rows, companyId, accountId)
         == LedgerBalance(rows, companyId, accountId) + NewAmounts(rows, companyId, accountId, lines, n)
  {
    if n > 0 {
      assert lines[..n][..n - 1] == lines[..n - 1];
      BalanceGrows(rows, companyId, accountId, lines, n - 1);
      SeenAfter(rows, companyId, accountId, lines, n - 1, lines[n - 1].fitid);
      var before := Import(rows, companyId, accountId, lines[..n - 1]);
      if !HasFitid(before.rows, companyId, accountId, lines[n - 1].fitid) {
        BalanceAppend(before.rows, RowOf(|before.rows|, companyId, accountId, lines[n - 1]), companyId, accountId);
      }
    }
  }

  lemma {:induction false} OtherBalancesStay(rows: seq<Row>, companyId: Id, accountId: Id, lines: seq<Line>,
          otherCompany: Id, other: Id)
    requires (otherCompany, other) != (companyId, accountId)
    ensures LedgerBalance(Import(rows, companyId, accountId, lines).rows, otherCompany, other)
         == LedgerBalance(rows, otherCompany, other)
    decreases |lines|
  {
    if lines != [] {
      var init, line := lines[..|lines| - 1], lines[|lines| - 1];
      var before := Import(rows, companyId, accountId, init);
      OtherBalancesStay(rows, companyId, accountId, init, otherCompany, other);
      if Writable(line) {
        BalanceAppend(before.rows, RowOf(|before.rows|, companyId, accountId, line), otherCompany, other);
      }
    }
  }

  // The second importer: one transaction, keyed by id.

  predicate HasId(rows: seq<Row>, id: RowId) {
    exists i :: 0 <= i < |rows| && rows[i].id == id
  }

  /** Zero counts as a credit here. */
  function UpsertRow(companyId: Id, accountId: Id, line: Line): Row
    requires Writable(line)
  {
    var amount := line.amount.value;
    Row(Fitid(line.fitid), companyId, accountId, line.fitid, Abs(amount),
        if amount < 0 then DEBIT else CREDIT, line.postedAt.value)
  }

  function UpsertLine(rows: seq<Row>, companyId: Id, accountId: Id, line: Line): seq<Row>
    requires Writable(line)
  {
    if HasId(rows, Fitid(line.fitid)) then rows else rows + [UpsertRow(companyId, accountId, line)]
  }

  function Upsert(rows: seq<Row>, companyId: Id, accountId: Id, lines: seq<Line>): seq<Row>
    requires forall k :: 0 <= k < |lines| ==> Writable(lines[k])
    decreases |lines|
  {
    if lines == [] then rows
    else UpsertLine(Upsert(rows, companyId, accountId, lines[..|lines| - 1]), companyId, accountId, lines[|lines| - 1])
  }

  /** A file with an entry that cannot be written rolls back. */
  function UpsertFile(rows: seq<Row>, companyId: Id, accountId: Id, lines: seq<Line>): seq<Row> {
    if forall k :: 0 <= k < |lines| ==> Writable(lines[k]) then Upsert(rows, companyId, accountId, lines) else rows
  }

  /** Every row an upsert adds says what some entry of the file says, under the FITID for an id. */
  lemma {:induction false} UpsertedRowsRead(rows: seq<Row>, companyId: Id, accountId: Id, lines: seq<Line>)
    requires forall k :: 0 <= k < |lines| ==> Writable(lines[k])
    ensures var after := Upsert(rows, companyId, accountId, lines);
      && |rows| <= |after| && after[..|rows|] == rows
      && forall i :: |rows| <= i < |after| ==>
           ReadsOne(after[i], companyId, accountId, lines, CREDIT) && after[i].id == Fitid(after[i].fitid)
    decreases |lines|
  {
    if lines != [] {
      var init, line := lines[..|lines| - 1], lines[|lines| - 1];
      var before, after := Upsert(rows, companyId, accountId, init), Upsert(rows, companyId, accountId, lines);
      UpsertedRowsRead(rows, companyId, accountId, init);
      forall i | |rows| <= i < |after| ensures ReadsOne(after[i], companyId, accountId, lines, CREDIT) {
        if i < |before| {
          var k :| 0 <= k < |init| && Reads(before[i], companyId, accountId, init[k], CREDIT);
          assert Reads(after[i], companyId, accountId, lines[k], CREDIT);
        } else {
          assert Reads(after[i], companyId, accountId, lines[|lines| - 1], CREDIT);
        }
      }
    }
  }

  /** A row with a FITID for an id carries that FITID. */
  ghost predicate IdsAreFitids(rows: seq<Row>) {
    forall i :: 0 <= i < |rows| && rows[i].id.Fitid? ==> rows[i].id.fitid == rows[i].fitid
  }

  lemma {:induction false} HasIdAppend(rows: seq<Row>, r: Row, id: RowId)
    ensures HasId(rows + [r], id) <==> HasId(rows, id) || r.id == id
  {
    var rows' := rows + [r];
    if HasId(rows, id) { var i :| 0 <= i < |rows| && rows[i].id == id; assert rows'[i].id == id; }
    if r.id == id { assert rows'[|rows|].id == id; }
  }

  lemma {:induction false} UpsertCovers(rows: seq<Row>, companyId: Id, accountId: Id, lines: seq<Line>, id: RowId)
    requires forall k :: 0 <= k < |lines| ==> Writable(lines[k])
    ensures rows <= Upsert(rows, companyId, accountId, lines)
    ensures HasId(Upsert(rows, companyId, accountId, lines), id)
       <==> HasId(rows, id) || (id.Fitid? && exists k :: 0 <= k < |lines| && Names(lines[k], id.fitid))
    decreases |lines|
  {
    if lines != [] {
      var init, line := lines[..|lines| - 1], lines[|lines| - 1];
      var before := Upsert(rows, companyId, accountId, init);
      UpsertCovers(rows, companyId, accountId, init, id);
      UpsertCovers(rows, companyId, accountId, init, Fitid(line.fitid));
      HasIdAppend(before, UpsertRow(companyId, accountId, line), id);
    }
  }

  /** Entry k is the first of its FITID, in the ids of all rows and in the file. */
  predicate FirstId(rows: seq<Row>, lines: seq<Line>, k: nat)
    requires k < |lines| && lines[k].Line?
  {
    && !HasId(rows, Fitid(lines[k].fitid))
    && forall j :: 0 <= j < k ==> !Names(lines[j], lines[k].fitid)
  }

  /** Signed sum of the entries whose FITID is new as an id. */
  function NewIdAmounts(rows: seq<Row>, lines: seq<Line>, n: nat): int
    requires n <= |lines| && forall k :: 0 <= k < n ==> Writable(lines[k])
  {
    if n == 0 then 0
    else
      assert Writable(lines[n - 1]);
      NewIdAmounts(rows, lines, n - 1) + if FirstId(rows, lines, n - 1) then lines[n - 1].amount.value else 0
  }

  /** The balance grows by the signed sum of the FITIDs that no row of any account has for an id. */
  lemma {:induction false} UpsertBalanceGrows(rows: seq<Row>, companyId: Id, accountId: Id, lines: seq<Line>, n: nat)
    requires n <= |lines| && forall k :: 0 <= k < n ==> Writable(lines[k])
    ensures LedgerBalance(Upsert(rows, companyId, accountId, lines[..n]), companyId, accountId)
         == LedgerBalance(rows, companyId, accountId) + NewIdAmounts(rows, lines, n)
  {
    if n > 0 {
      var line, before := lines[n - 1], Upsert(rows, companyId, accountId, lines[..n - 1]);
      assert lines[..n][..n - 1] == lines[..n - 1];
      UpsertBalanceGrows(rows, companyId, accountId, lines, n - 1);
      UpsertCovers(rows, companyId, accountId, lines[..n - 1], Fitid(line.fitid));
      assert forall j :: 0 <= j < n - 1 ==> lines[..n - 1][j] == lines[j];
      if !HasId(before, Fitid(line.fitid)) {
        BalanceAppend(before, UpsertRow(companyId, accountId, line), companyId, accountId);
      }
    }
  }

  /** Importing a file again changes nothing here either. */
  lemma {:induction false} UpsertTwice(rows: seq<Row>, companyId: Id, accountId: Id, lines: seq<Line>)
    ensures UpsertFile(UpsertFile(rows, companyId, accountId, lines), companyId, accountId, lines)
         == UpsertFile(rows, companyId, accountId, lines)
  {
    if forall k :: 0 <= k < |lines| ==> Writable(lines[k]) {
      var once := Upsert(rows, companyId, accountId, lines);
      forall k | 0 <= k < |lines| ensures HasId(once, Fitid(lines[k].fitid)) {
        UpsertCovers(rows, companyId, accountId, lines, Fitid(lines[k].fitid));
      }
      CoveredUpsert(once, companyId, accountId, lines);
    }
  }

  lemma {:induction false} CoveredUpsert(rows: seq<Row>, companyId: Id, accountId: Id, lines: seq<Line>)
    requires forall k :: 0 <= k < |lines| ==> Writable(lines[k]) && HasId(rows, Fitid(lines[k].fitid))
    ensures Upsert(rows, companyId, accountId, lines) == rows
    decreases |lines|
  {
    if lines != [] { CoveredUpsert(rows, companyId, accountId, lines[..|lines| - 1]); }
  }

  /**
   * The second importer never duplicates a transaction of an account exactly when the
   * account holds none of the file's FITIDs under another id, as the first importer's rows do.
   */
  lemma {:induction false} UpsertKeepsUniqueIff(rows: seq<Row>, companyId: Id, accountId: Id, lines: seq<Line>)
    requires UniqueFitids(rows) && IdsAreFitids(rows)
    requires forall k :: 0 <= k < |lines| ==> Writable(lines[k])
    ensures UniqueFitids(Upsert(rows, companyId, accountId, lines))
       <==> forall k :: 0 <= k < |lines| && HasFitid(rows, companyId, accountId, lines[k].fitid) ==>
              HasId(rows, Fitid(lines[k].fitid))
    ensures IdsAreFitids(Upsert(rows, companyId, accountId, lines))
    decreases |lines|
  {
    if lines != [] {
      var n := |lines| - 1;
      var init, line := lines[..n], lines[n];
      var before := Upsert(rows, companyId, accountId, init);
      UpsertKeepsUniqueIff(rows, companyId, accountId, init);
      UpsertCovers(rows, companyId, accountId, init, Fitid(line.fitid));
      if !HasId(before, Fitid(line.fitid)) {
        AppendUniqueIff(before, UpsertRow(companyId, accountId, line));
        UpsertHolds(rows, companyId, accountId, init, line.fitid);
      }
      assert forall k :: 0 <= k < n ==> init[k] == lines[k];
    }
  }

  lemma {:induction false} AppendUniqueIff(rows: seq<Row>, r: Row)
    ensures UniqueFitids(rows + [r]) <==> UniqueFitids(rows) && !HasFitid(rows, r.companyId, r.accountId, r.fitid)
  {
    var rows' := rows + [r];
    assert rows'[|rows|] == r && forall i :: 0 <= i < |rows| ==> rows'[i] == rows[i];
    if HasFitid(rows, r.companyId, r.accountId, r.fitid) {
      var i :| 0 <= i < |rows| && Holds(rows[i], r.companyId, r.accountId, r.fitid);
      assert Holds(rows'[|rows|], rows'[i].companyId, rows'[i].accountId, rows'[i].fitid);
    }
    if UniqueFitids(rows') {
      assert UniqueFitids(rows) by {
        forall i, j | 0 <= i < j < |rows| ensures !Holds(rows[j], rows[i].companyId, rows[i].accountId, rows[i].fitid) {
          assert !Holds(rows'[j], rows'[i].companyId, rows'[i].accountId, rows'[i].fitid);
        }
      }
    }
  }

  /** A FITID not yet in the file's part read so far is held exactly if it was held before. */
  lemma {:induction false} UpsertHolds(rows: seq<Row>, companyId: Id, accountId: Id, lines: seq<Line>, fitid: string)
    requires forall k :: 0 <= k < |lines| ==> Writable(lines[k]) && !Names(lines[k], fitid)
    ensures HasFitid(Upsert(rows, companyId, accountId, lines), companyId, accountId, fitid)
       <==> HasFitid(rows, companyId, accountId, fitid)
    decreases |lines|
  {
    if lines != [] {
      var init, line := lines[..|lines| - 1], lines[|lines| - 1];
      UpsertHolds(rows, companyId, accountId, init, fitid);
      HasFitidAppend(Upsert(rows, companyId, accountId, init), UpsertRow(companyId, accountId, line),
                     companyId, accountId, fitid);
    }
  }

  predicate Recorded(rows: seq<Row>, companyId: Id, accountId: Id, line: Line) {
    line.Line? && HasFitid(rows, companyId, accountId, line.fitid)
  }

  /** Some other account holds the FITID as an id, and this account does not hold it at all. */
  predicate TakenElsewhere(rows: seq<Row>, companyId: Id, accountId: Id, line: Line) {
    line.Line? && HasId(rows, Fitid(line.fitid)) && !HasFitid(rows, companyId, accountId, line.fitid)
  }

  /** The second importer records every entry in the account exactly when no FITID is taken by another account. */
  lemma {:induction false} UpsertRecordsAllIff(rows: seq<Row>, companyId: Id, accountId: Id, lines: seq<Line>)
    requires forall k :: 0 <= k < |lines| ==> Writable(lines[k])
    ensures (forall k :: 0 <= k < |lines| ==>
               Recorded(Upsert(rows, companyId, accountId, lines), companyId, accountId, lines[k]))
       <==> forall k :: 0 <= k < |lines| ==> !TakenElsewhere(rows, companyId, accountId, lines[k])
  {
    forall k | 0 <= k < |lines|
      ensures Recorded(Upsert(rows, companyId, accountId, lines), companyId, accountId, lines[k])
         <==> !TakenElsewhere(rows, companyId, accountId, lines[k])
    {
      assert Writable(lines[k]) && Names(lines[k], lines[k].fitid);
      RecordedIff(rows, companyId, accountId, lines, lines[k].fitid);
    }
  }

  lemma {:induction false} RecordedIff(rows: seq<Row>, companyId: Id, accountId: Id, lines: seq<Line>, fitid: string)
    requires forall k :: 0 <= k < |lines| ==> Writable(lines[k])
    ensures HasFitid(Upsert(rows, companyId, accountId, lines), companyId, accountId, fitid)
       <==> HasFitid(rows, companyId, accountId, fitid)
            || (!HasId(rows, Fitid(fitid)) && exists k :: 0 <= k < |lines| && Names(lines[k], fitid))
    decreases |lines|
  {
    if lines != [] {
      var n := |lines| - 1;
      var init, line := lines[..n], lines[n];
      var before := Upsert(rows, companyId, accountId, init);
      RecordedIff(rows, companyId, accountId, init, fitid);
      UpsertCovers(rows, companyId, accountId, init, Fitid(line.fitid));
      HasFitidAppend(before, UpsertRow(companyId, accountId, line), companyId, accountId, fitid);
      assert forall k :: 0 <= k < n ==> init[k] == lines[k];
    }
  }

  /** An entry written by the first importer and then by the second one is held twice. */
  lemma DuplicateIsReached(companyId: Id, accountId: Id, line: Line)
    requires Writable(line)
    ensures !UniqueFitids(Upsert(Import([], companyId, accountId, [line]).rows, companyId, accountId, [line]))
  {
    var row := RowOf(0, companyId, accountId, line);
    assert [line][..0] == [];
    assert Import([], companyId, accountId, []).rows == [];
    assert Import([], companyId, accountId, [line]).rows == [row];
    assert Holds([row][0], companyId, accountId, [line][0].fitid);
    UpsertKeepsUniqueIff([row], companyId, accountId, [line]);
  }

  /** An entry that the second importer wrote for one account is dropped from any other account's file. */
  lemma DroppedEntryIsReached(companyId: Id, accountId: Id, other: Id, line: Line)
    requires Writable(line) && other != accountId
    ensures var rows := Upsert([], companyId, other, [line]);
      Upsert(rows, companyId, accountId, [line]) == rows && !Recorded(rows, companyId, accountId, line)
  {
    assert [line][..0] == [];
    assert Upsert([], companyId, other, []) == [];
    var row := UpsertRow(companyId, other, line);
    assert Upsert([], companyId, other, [line]) == [row];
    assert Upsert([row], companyId, accountId, []) == [row];
    assert [row][0].id == Fitid(line.fitid);
  }

  class StatementImporter {
    var accounts: map<Id, Id>
    var rows: seq<Row>

    method ImportLineOnce(companyId: Id, accountId: Id, line: Line) returns (status: Progress)
      modifies this`rows
      ensures status == ImportLine(Progress(old(rows), 0, false), companyId, accountId, line)
      ensures rows == status.rows
    {
      if line.Incomplete? { return Progress(rows, 0, true); }
      var alreadyExists := HasFitid(rows, companyId, accountId, line.fitid);
      if alreadyExists { return Progress(rows, 0, false); }
      if !Writable(line) { return Progress(rows, 0, true); }
      rows := rows + [RowOf(|rows|, companyId, accountId, line)];
      status := Progress(rows, 1, false);
    }

    /** A failure midway keeps the rows written so far. */
    method ImportOfx(companyId: Id, accountId: Id, lines: seq<Line>) returns (ok: bool, imported: nat)
      modifies this`rows
      ensures Progress(rows, imported, !ok) == Import(old(rows), companyId, accountId, lines)
      ensures UniqueFitids(old(rows)) ==> UniqueFitids(rows)
    {
      imported := 0;
      ghost var before := rows;
      var k := 0;
      while k < |lines|
        invariant 0 <= k <= |lines|
        invariant Progress(rows, imported, false) == Import(before, companyId, accountId, lines[..k])
      {
        assert lines[..k + 1][..k] == lines[..k];
        var status := ImportLineOnce(companyId, accountId, lines[k]);
        if status.failed {
          ImportAppends(before, companyId, accountId, lines, k + 1);
          if UniqueFitids(before) { ImportKeepsUnique(before, companyId, accountId, lines); }
          return false, imported;
        }
        imported := imported + status.imported;
        k := k + 1;
      }
      assert lines[..k] == lines;
      if UniqueFitids(before) { ImportKeepsUnique(before, companyId, accountId, lines); }
      ok := true;
    }

    /** All or nothing: the rows are put back when an entry cannot be written. */
    method UpsertOfx(companyId: Id, accountId: Id, lines: seq<Line>) returns (ok: bool)
      modifies this`rows
      ensures ok <==>
        && accountId in accounts && accounts[accountId] == companyId
        && forall k :: 0 <= k < |lines| ==> Writable(lines[k])
      ensures rows == if ok then Upsert(old(rows), companyId, accountId, lines) else old(rows)
    {
      if accountId !in accounts || accounts[accountId] != companyId { return false; }
      var saved := rows;
      var k := 0;
      while k < |lines|
        invariant 0 <= k <= |lines|
        invariant forall j :: 0 <= j < k ==> Writable(lines[j])
        invariant rows == Upsert(saved, companyId, accountId, lines[..k])
      {
        if !Writable(lines[k]) {
          rows := saved;
          return false;
        }
        assert lines[..k + 1][..k] == lines[..k];
        if !HasId(rows, Fitid(lines[k].fitid)) {
          rows := rows + [UpsertRow(companyId, accountId, lines[k])];
        }
        k := k + 1;
      }
      assert lines[..k] == lines;
      ok := true;
    }

    /** The balance of an account from its rows. */
    method GetAccountBalance(companyId: Id, accountId: Id) returns (balance: Option<int>)
      ensures balance.Some? <==> accountId in accounts && accounts[accountId] == companyId
      ensures balance.Some? ==> balance.value == SignedSum(rows, companyId, accountId)
    {
      if accountId !in accounts || accounts[accountId] != companyId { return None; }
      var credits: int := Sums(rows, companyId, accountId, CREDIT);
      var debits: int := Sums(rows, companyId, accountId, DEBIT);
      BalanceIsSignedSum(rows, companyId, accountId);
      balance := Some(credits - debits);
    }
  }

  /** Sum of the signed amounts shown for the rows of an account. */
  function SignedSum(rows: seq<Row>, companyId: Id, accountId: Id): int {
    if rows == [] then 0
    else
      var r := rows[|rows| - 1];
      SignedSum(rows[..|rows| - 1], companyId, accountId)
      + (if r.companyId == companyId && r.accountId == accountId then SignedAmount(r) else 0)
  }

  lemma {:induction false} BalanceIsSignedSum(rows: seq<Row>, companyId: Id, accountId: Id)
    ensures LedgerBalance(rows, companyId, accountId) == SignedSum(rows, companyId, accountId)
  {
    if rows != [] {
      BalanceIsSignedSum(rows[..|rows| - 1], companyId, accountId);
      BalanceAppend(rows[..|rows| - 1], rows[|rows| - 1], companyId, accountId);
      assert rows[..|rows| - 1] + [rows[|rows| - 1]] == rows;
    }
  }
}
