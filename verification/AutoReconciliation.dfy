/**
 * The bank reconciliation service: its tables, its calls, and the automatic
 * reconciliation built on them
 * (src/modules/banking-enterprise/banking-enterprise.service.ts).
 */
module AutoReconciliation {
  import opened CandidateScoring
  import opened Cardinality
  import opened Entities
  import opened Pages
  import opened ReconciliationBook
  import opened Text
  import opened Wrappers

  const CANDIDATE_LIMIT := 50
  const PAGE_LIMIT_DEFAULT := 100
  const PAGE_LIMIT_MAX := 500

  datatype Params = Params(limit: nat, tolerance: Tolerance)

  /** Zero stands for a limit that was not given. */
  function PageLimit(p: Params): (n: nat)
    ensures p.limit == 0 ==> n == 100
    ensures 1 <= p.limit <= 500 ==> n == p.limit
    ensures p.limit > 500 ==> n == 500
  {
    if p.limit == 0 then PAGE_LIMIT_DEFAULT else if p.limit > PAGE_LIMIT_MAX then PAGE_LIMIT_MAX else p.limit
  }

  datatype Candidate = Candidate(target: Target, score: real, date: int)

  datatype Outcome =
    | Matched(t: Id, target: Target, score: real)
    | Skipped(t: Id, bestScore: Option<real>)
    | Failed(t: Id, target: Target, score: real, error: Error)

  predicate AmountInRange(amount: int, around: int, cents: nat) {
    (if around < cents then 0 else around - cents) <= amount <= around + cents
  }

  /** The filter of the candidate query. */
  predicate Eligible(b: Book, t: Id, target: Target, tolerance: Tolerance) {
    && t in b.transactions
    && !b.transactions[t].reconciled
    && KindFits(b.transactions[t].kind, target)
    && match target {
         case InvoiceTarget(i) =>
           && i in b.invoices && !b.invoices[i].reconciled && !b.invoices[i].deleted
           && AmountInRange(b.invoices[i].amount, b.transactions[t].amount, tolerance.cents)
         case ObligationTarget(o) =>
           && o in b.obligations
           && b.obligations[o].status in {ObligationStatus.PENDING, ObligationStatus.OVERDUE, ObligationStatus.PARTIAL}
           && AmountInRange(b.obligations[o].amount, b.transactions[t].amount, tolerance.cents)
       }
  }

  function EligibleTargets(b: Book, t: Id, tolerance: Tolerance): set<Target> {
    (set i | i in b.invoices && Eligible(b, t, InvoiceTarget(i), tolerance) :: InvoiceTarget(i))
    + (set o | o in b.obligations && Eligible(b, t, ObligationTarget(o), tolerance) :: ObligationTarget(o))
  }

  function TargetDate(b: Book, target: Target): int {
    match target
    case InvoiceTarget(i) => if i in b.invoices then b.invoices[i].issuedAt else 0
    case ObligationTarget(o) => if o in b.obligations then b.obligations[o].dueDate else 0
  }

  function TargetAmount(b: Book, target: Target): int {
    match target
    case InvoiceTarget(i) => if i in b.invoices then b.invoices[i].amount else 0
    case ObligationTarget(o) => if o in b.obligations then b.obligations[o].amount else 0
  }

  function TargetDescription(b: Book, target: Target): string {
    match target
    case InvoiceTarget(i) => if i in b.invoices then b.invoices[i].description else ""
    case ObligationTarget(o) => if o in b.obligations then b.obligations[o].name else ""
  }

  /**
   * A score from the differences of amount and date and the two descriptions.
   * What an automatic run does is proved for every such function.
   */
  type Scorer = (nat, nat, string, string) -> real

  /** The service's own scoring; lower-casing belongs to the runtime. */
  function ServiceScorer(lower: string -> string, tolerance: Tolerance): Scorer {
    (amountDiff: nat, dateDiff: nat, a: string, b: string) =>
      CandidateScore(amountDiff, dateDiff, DescriptionScore(lower(a), lower(b)), tolerance)
  }

  function Score(b: Book, t: Id, target: Target, scorer: Scorer): real
    requires t in b.transactions
  {
    var row := b.transactions[t];
    scorer(Abs(row.amount - TargetAmount(b, target)), Abs(row.occurredAt - TargetDate(b, target)),
           row.description, TargetDescription(b, target))
  }

  function Scored(b: Book, t: Id, target: Target, scorer: Scorer): Candidate
    requires t in b.transactions
  {
    Candidate(target, Score(b, t, target, scorer), TargetDate(b, target))
  }

  /** By score, and among equal scores by date, both descending. */
  predicate Ranked(cs: seq<Candidate>) {
    forall i, j :: 0 <= i < j < |cs| ==> Precedes(cs[i], cs[j])
  }

  predicate NewestFirst(cs: seq<Candidate>) {
    forall i, j :: 0 <= i < j < |cs| ==> cs[i].date >= cs[j].date
  }

  /** The place of c, newer than the rest, among candidates already ranked. */
  function Insert(c: Candidate, cs: seq<Candidate>): (r: seq<Candidate>)
    ensures multiset(r) == multiset{c} + multiset(cs)
  {
    if cs == [] || c.score >= cs[0].score then [c] + cs
    else
      assert cs == [cs[0]] + cs[1..];
      [cs[0]] + Insert(c, cs[1..])
  }

  /** The stable sort by descending score. */
  function SortByScore(cs: seq<Candidate>): (r: seq<Candidate>)
    ensures multiset(r) == multiset(cs)
  {
    if cs == [] then []
    else
      assert cs == [cs[0]] + cs[1..];
      Insert(cs[0], SortByScore(cs[1..]))
  }

  predicate Precedes(c: Candidate, d: Candidate) {
    c.score > d.score || (c.score == d.score && c.date >= d.date)
  }

  lemma {:induction false} InsertRanked(c: Candidate, cs: seq<Candidate>)
    requires Ranked(cs) && forall d :: d in cs ==> c.date >= d.date
    ensures Ranked(Insert(c, cs))
  {
    if cs != [] && c.score < cs[0].score {
      InsertRanked(c, cs[1..]);
      var rest := Insert(c, cs[1..]);
      forall d | d in rest ensures Precedes(cs[0], d) {
        assert d in multiset(rest);
      }
    }
  }

  /** A list read newest first comes out ranked. */
  lemma {:induction false} SortRanks(cs: seq<Candidate>)
    requires NewestFirst(cs)
    ensures Ranked(SortByScore(cs))
  {
    if cs != [] {
      var sorted := SortByScore(cs[1..]);
      SortRanks(cs[1..]);
      forall d | d in sorted ensures cs[0].date >= d.date {
        assert d in multiset(sorted);
      }
      InsertRanked(cs[0], sorted);
    }
  }

  function CandidateDates(b: Book, t: Id, tolerance: Tolerance): map<Target, int> {
    map target | target in EligibleTargets(b, t, tolerance) :: TargetDate(b, target)
  }

  /** The candidates of transaction t: the newest eligible targets, best first. */
  ghost predicate IsCandidateList(b: Book, t: Id, tolerance: Tolerance, scorer: Scorer, cs: seq<Candidate>)
    requires t in b.transactions
  {
    && Ranked(cs)
    && (forall c :: c in cs ==>
          && Eligible(b, t, c.target, tolerance)
          && c.score == Score(b, t, c.target, scorer)
          && c.date == TargetDate(b, c.target))
    && exists page :: IsPage(CandidateDates(b, t, tolerance), CANDIDATE_LIMIT, page) && |page| == |cs|
         && forall target :: target in page ==> exists c :: c in cs && c.target == target
  }

  lemma EligibleIsListed(b: Book, t: Id, target: Target, tolerance: Tolerance)
    ensures target in EligibleTargets(b, t, tolerance) <==> Eligible(b, t, target, tolerance)
  {
  }

  /** A candidate list holds fifty targets, or all the eligible ones if there are fewer. */
  lemma ListHasFifty(b: Book, t: Id, tolerance: Tolerance, scorer: Scorer, cs: seq<Candidate>)
    requires t in b.transactions && IsCandidateList(b, t, tolerance, scorer, cs)
    ensures |cs| == var n := |EligibleTargets(b, t, tolerance)|; if n <= 50 then n else 50
  {
    hide EligibleTargets, Ranked, Score, TargetDate;
    var dates := CandidateDates(b, t, tolerance);
    assert dates.Keys == EligibleTargets(b, t, tolerance);
    assert |dates| == |dates.Keys|;
  }

  lemma {:induction false} SortedPageIsCandidateList(b: Book, t: Id, tolerance: Tolerance, scorer: Scorer,
                                  page: seq<Target>, cs: seq<Candidate>)
    requires t in b.transactions && IsPage(CandidateDates(b, t, tolerance), CANDIDATE_LIMIT, page) && |cs| == |page|
    requires forall k :: 0 <= k < |page| ==> cs[k] == Scored(b, t, page[k], scorer)
    ensures IsCandidateList(b, t, tolerance, scorer, SortByScore(cs))
  {
    var sorted := SortByScore(cs);
    assert |sorted| == |multiset(sorted)| == |multiset(cs)| == |cs|;
    assert NewestFirst(cs);
    SortRanks(cs);
    forall c | c in sorted
      ensures Eligible(b, t, c.target, tolerance) && c == Scored(b, t, c.target, scorer)
    {
      assert c in multiset(sorted);
      var k :| 0 <= k < |cs| && cs[k] == c;
      assert page[k] in CandidateDates(b, t, tolerance);
      EligibleIsListed(b, t, page[k], tolerance);
    }
    forall target | target in page ensures exists c :: c in sorted && c.target == target {
      var k :| 0 <= k < |page| && page[k] == target;
      assert cs[k] in multiset(cs) && cs[k] in sorted;
    }
  }

  /** With no truncation, no eligible target scores above the first candidate. */
  lemma {:induction false} FirstCandidateIsBest(b: Book, t: Id, tolerance: Tolerance, scorer: Scorer,
          cs: seq<Candidate>, target: Target)
    requires t in b.transactions && IsCandidateList(b, t, tolerance, scorer, cs)
    requires |EligibleTargets(b, t, tolerance)| <= CANDIDATE_LIMIT && Eligible(b, t, target, tolerance)
    ensures cs != [] && Score(b, t, target, scorer) <= cs[0].score
  {
    var dates := CandidateDates(b, t, tolerance);
    var page :| IsPage(dates, CANDIDATE_LIMIT, page) && |page| == |cs|
      && forall x :: x in page ==> exists c :: c in cs && c.target == x;
    EligibleIsListed(b, t, target, tolerance);
    assert dates.Keys == EligibleTargets(b, t, tolerance);
    PageIsComplete(dates, CANDIDATE_LIMIT, page, target);
    var c :| c in cs && c.target == target;
  }

  // What an automatic run does.

  /** The target is eligible for transaction t and of automatic score. */
  ghost predicate Qualifies(b: Book, t: Id, target: Target, p: Params, scorer: Scorer) {
    Eligible(b, t, target, p.tolerance) && Score(b, t, target, scorer) >= AUTO_SCORE
  }

  /** Transaction t has no eligible target of automatic score. */
  ghost predicate Exhausted(b: Book, t: Id, p: Params, scorer: Scorer) {
    forall target :: !Qualifies(b, t, target, p, scorer)
  }

  function Replay(b: Book, rs: seq<Outcome>): Book
    decreases |rs|
  {
    if rs == [] then b
    else Replayed(Replay(b, rs[..|rs| - 1]), rs[|rs| - 1])
  }

  function Replayed(b: Book, r: Outcome): Book {
    match r
    case Matched(t, target, _) => After(b, ReconcileCall(t, target, false))
    case Skipped(_, _) => b
    case Failed(_, _, _, _) => b
  }

  function PendingDates(b: Book): map<Id, int> {
    map t | t in b.transactions && !b.transactions[t].reconciled :: b.transactions[t].occurredAt
  }

  /** What one result says about the state before the run and the state after it. */
  ghost predicate ResultFits(b: Book, r: Outcome, p: Params, scorer: Scorer, b': Book) {
    match r
    case Matched(t, target, score) =>
      && Qualifies(b, t, target, p, scorer) && score == Score(b, t, target, scorer)
      && b'.LinkedTo(t, target) && b'.Marked(target)
    case Skipped(t, _) =>
      && t in b'.transactions && t in b.transactions && b'.transactions[t] == b.transactions[t]
      && (|EligibleTargets(b, t, p.tolerance)| <= CANDIDATE_LIMIT ==> Exhausted(b', t, p, scorer))
    case Failed(_, _, _, _) => false
  }

  /** No target of the earlier state is gained, and none changes its score. */
  ghost predicate OnlyShrinks(b: Book, b': Book, p: Params, scorer: Scorer) {
    && b.transactions.Keys == b'.transactions.Keys
    && forall t, target :: Eligible(b', t, target, p.tolerance) ==>
         Eligible(b, t, target, p.tolerance)
         && Score(b', t, target, scorer) == Score(b, t, target, scorer)
  }

  /** Transaction t is pending, as it was before the run. */
  predicate Untouched(b: Book, now: Book, t: Id) {
    && t in b.transactions && t in now.transactions
    && !now.transactions[t].reconciled && now.transactions[t] == b.transactions[t]
  }

  ghost predicate ResultsFit(b: Book, ids: seq<Id>, rs: seq<Outcome>, p: Params, scorer: Scorer, now: Book)
    requires |rs| <= |ids|
  {
    forall k :: 0 <= k < |rs| ==> rs[k].t == ids[k] && ResultFits(b, rs[k], p, scorer, now)
  }

  predicate TargetsDistinct(rs: seq<Outcome>) {
    forall j, k :: 0 <= j < k < |rs| && rs[j].Matched? && rs[k].Matched? ==> rs[j].target != rs[k].target
  }

  predicate UntouchedFrom(b: Book, now: Book, ids: seq<Id>, n: nat) {
    forall k :: n <= k < |ids| ==> Untouched(b, now, ids[k])
  }

  /** The book after some results: consistent, and with nothing gained. */
  ghost predicate KeepsBook(b: Book, now: Book, p: Params, scorer: Scorer) {
    Consistent(now) && OnlyShrinks(b, now, p, scorer) && (NoOrphans(b) ==> NoOrphans(now))
  }

  /** Progress of a run over the listed transactions, one result each. */
  ghost predicate AutoProgress(b: Book, ids: seq<Id>, p: Params, scorer: Scorer, rs: seq<Outcome>, now: Book) {
    && |rs| <= |ids|
    && now == Replay(b, rs)
    && KeepsBook(b, now, p, scorer)
    && ResultsFit(b, ids, rs, p, scorer, now)
    && TargetsDistinct(rs)
    && UntouchedFrom(b, now, ids, |rs|)
  }

  predicate Distinct(ids: seq<Id>) {
    forall i, j :: 0 <= i < j < |ids| ==> ids[i] != ids[j]
  }

  /** The whole run. */
  ghost predicate AutoOutcome(b: Book, p: Params, scorer: Scorer, rs: seq<Outcome>, b': Book) {
    exists ids :: IsPage(PendingDates(b), PageLimit(p), ids) && |rs| == |ids| && AutoProgress(b, ids, p, scorer, rs, b')
  }

  /** What the loop reports for one transaction with the given candidates. */
  function Decision(b: Book, t: Id, cs: seq<Candidate>): Outcome {
    if cs == [] then Skipped(t, None)
    else if cs[0].score < AUTO_SCORE then Skipped(t, Some(cs[0].score))
    else
      match Reconcile(b, t, cs[0].target, false)
      case Ok(_) => Matched(t, cs[0].target, cs[0].score)
      case Err(e) => Failed(t, cs[0].target, cs[0].score, e)
  }

  ghost predicate Decided(b: Book, t: Id, p: Params, scorer: Scorer, r: Outcome) {
    t in b.transactions && exists cs :: IsCandidateList(b, t, p.tolerance, scorer, cs) && r == Decision(b, t, cs)
  }

  /** A run from any book: each result is decided in the book the results before it left. */
  ghost predicate AutoRun(b: Book, ids: seq<Id>, p: Params, scorer: Scorer, rs: seq<Outcome>, now: Book) {
    && |rs| <= |ids| && now == Replay(b, rs) && now.transactions.Keys == b.transactions.Keys
    && forall k :: 0 <= k < |rs| ==> Decided(Replay(b, rs[..k]), ids[k], p, scorer, rs[k])
  }

  /** The whole run, from any book. */
  ghost predicate AnyOutcome(b: Book, p: Params, scorer: Scorer, rs: seq<Outcome>, b': Book) {
    exists ids :: IsPage(PendingDates(b), PageLimit(p), ids) && |rs| == |ids| && AutoRun(b, ids, p, scorer, rs, b')
  }

  lemma {:induction false} ReplayAppend(b: Book, rs: seq<Outcome>, r: Outcome)
    ensures Replay(b, rs + [r]) == Replayed(Replay(b, rs), r)
  {
    assert (rs + [r])[..|rs|] == rs;
  }

  lemma {:induction false} RunStep(b: Book, ids: seq<Id>, p: Params, scorer: Scorer, rs: seq<Outcome>, now: Book,
          r: Outcome)
    requires AutoRun(b, ids, p, scorer, rs, now) && |rs| < |ids| && Decided(now, ids[|rs|], p, scorer, r)
    ensures AutoRun(b, ids, p, scorer, rs + [r], Replayed(now, r))
  {
    ReplayAppend(b, rs, r);
    hide Decided, Replay;
    forall k | 0 <= k < |rs| + 1 ensures Decided(Replay(b, (rs + [r])[..k]), ids[k], p, scorer, (rs + [r])[k]) {
      assert (rs + [r])[..k] == rs[..k];
      if k == |rs| { assert rs[..k] == rs; }
    }
  }

  lemma {:induction false} EligibleReconciles(b: Book, t: Id, target: Target, tolerance: Tolerance)
    requires Consistent(b) && Eligible(b, t, target, tolerance)
    ensures Reconcile(b, t, target, false).Ok?
    ensures !b.Marked(target)
  {
    forall u | u in b.transactions && u != t ensures !b.LinkedTo(u, target) {
      assert RowConsistent(b, u);
    }
  }

  /** The fields of a target that are scored. */
  ghost predicate SameTarget(b: Book, b': Book, x: Target) {
    && TargetDate(b, x) == TargetDate(b', x)
    && TargetAmount(b, x) == TargetAmount(b', x)
    && TargetDescription(b, x) == TargetDescription(b', x)
  }

  lemma {:induction false} MatchKeepsScores(b: Book, t: Id, target: Target, u: Id, x: Target, scorer: Scorer)
    requires Reconcile(b, t, target, false).Ok? && u in b.transactions
    ensures Score(Reconcile(b, t, target, false).value, u, x, scorer) == Score(b, u, x, scorer)
  {
    assert SameTarget(b, Reconcile(b, t, target, false).value, x);
  }

  lemma {:induction false} MatchShrinksEligible(b: Book, t: Id, target: Target, u: Id, x: Target, tolerance: Tolerance)
    requires Reconcile(b, t, target, false).Ok?
    requires Eligible(Reconcile(b, t, target, false).value, u, x, tolerance)
    ensures Eligible(b, u, x, tolerance) && u != t && x != target
  {
    assert !Eligible(Reconcile(b, t, target, false).value, u, target, tolerance);
  }

  lemma {:induction false} MatchShrinks(b: Book, t: Id, target: Target, p: Params, scorer: Scorer)
    requires Reconcile(b, t, target, false).Ok?
    ensures OnlyShrinks(b, Reconcile(b, t, target, false).value, p, scorer)
  {
    var b' := Reconcile(b, t, target, false).value;
    forall u, x | Eligible(b', u, x, p.tolerance)
      ensures Eligible(b, u, x, p.tolerance) && Score(b', u, x, scorer) == Score(b, u, x, scorer)
    {
      MatchShrinksEligible(b, t, target, u, x, p.tolerance);
      MatchKeepsScores(b, t, target, u, x, scorer);
    }
  }

  lemma {:induction false} ShrinksTransitive(a: Book, b: Book, c: Book, p: Params, scorer: Scorer)
    requires OnlyShrinks(a, b, p, scorer) && OnlyShrinks(b, c, p, scorer)
    ensures OnlyShrinks(a, c, p, scorer)
  {
    forall t, x | Eligible(c, t, x, p.tolerance)
      ensures Eligible(a, t, x, p.tolerance) && Score(c, t, x, scorer) == Score(a, t, x, scorer)
    {
      assert Eligible(b, t, x, p.tolerance);
    }
  }

  lemma {:induction false} ShrinksKeepsExhausted(b: Book, b': Book, t: Id, p: Params, scorer: Scorer)
    requires OnlyShrinks(b, b', p, scorer) && Exhausted(b, t, p, scorer)
    ensures Exhausted(b', t, p, scorer)
  {
    forall target ensures !Qualifies(b', t, target, p, scorer) {
      assert !Qualifies(b, t, target, p, scorer);
    }
  }

  lemma ReconcileKeepsLink(now: Book, t: Id, target: Target, u: Id, x: Target)
    requires Reconcile(now, t, target, false).Ok? && u != t
    requires now.LinkedTo(u, x) && now.Marked(x)
    ensures Reconcile(now, t, target, false).value.LinkedTo(u, x)
    ensures Reconcile(now, t, target, false).value.Marked(x)
  {
  }

  /** A result keeps fitting when another transaction is matched to another target. */
  lemma {:induction false} ResultStillFits(b: Book, r: Outcome, p: Params, scorer: Scorer, now: Book, t: Id,
          target: Target)
    requires ResultFits(b, r, p, scorer, now) && r.t != t
    requires Reconcile(now, t, target, false).Ok?
    ensures ResultFits(b, r, p, scorer, Reconcile(now, t, target, false).value)
  {
    var next := Reconcile(now, t, target, false).value;
    match r
    case Matched(u, x, _) => ReconcileKeepsLink(now, t, target, u, x);
    case Skipped(u, _) =>
      assert next.transactions[u] == now.transactions[u];
      if |EligibleTargets(b, u, p.tolerance)| <= CANDIDATE_LIMIT {
        MatchShrinks(now, t, target, p, scorer);
        ShrinksKeepsExhausted(now, next, u, p, scorer);
      }
  }

  /** What a match does to the book itself. */
  lemma {:induction false} MatchKeepsBook(b: Book, now: Book, t: Id, target: Target, p: Params, scorer: Scorer)
    requires KeepsBook(b, now, p, scorer) && Eligible(now, t, target, p.tolerance)
    ensures Reconcile(now, t, target, false).Ok? && !now.Marked(target)
    ensures KeepsBook(b, Reconcile(now, t, target, false).value, p, scorer)
  {
    EligibleReconciles(now, t, target, p.tolerance);
    ReconcileKeepsConsistent(now, t, target, false);
    MatchShrinks(now, t, target, p, scorer);
    ShrinksTransitive(b, now, Reconcile(now, t, target, false).value, p, scorer);
    assert RowConsistent(now, t);
    if NoOrphans(b) { ReconcileOrphansIff(now, t, target, false); }
  }

  lemma {:induction false} MatchKeepsResults(b: Book, ids: seq<Id>, p: Params, scorer: Scorer, rs: seq<Outcome>,
                                             now: Book, target: Target, score: real)
    requires |rs| < |ids| && Distinct(ids) && ResultsFit(b, ids, rs, p, scorer, now)
    requires Reconcile(now, ids[|rs|], target, false).Ok?
    requires Qualifies(b, ids[|rs|], target, p, scorer) && score == Score(b, ids[|rs|], target, scorer)
    ensures ResultsFit(b, ids, rs + [Matched(ids[|rs|], target, score)], p, scorer,
                       Reconcile(now, ids[|rs|], target, false).value)
  {
    var t := ids[|rs|];
    var next := Reconcile(now, t, target, false).value;
    forall k | 0 <= k < |rs| ensures ResultFits(b, rs[k], p, scorer, next) {
      ResultStillFits(b, rs[k], p, scorer, now, t, target);
    }
    assert ResultFits(b, Matched(t, target, score), p, scorer, next);
  }

  lemma {:induction false} MatchKeepsDistinct(b: Book, ids: seq<Id>, p: Params, scorer: Scorer, rs: seq<Outcome>,
                                              now: Book, r: Outcome)
    requires |rs| <= |ids| && ResultsFit(b, ids, rs, p, scorer, now) && TargetsDistinct(rs)
    requires r.Matched? && !now.Marked(r.target)
    ensures TargetsDistinct(rs + [r])
  {
    forall j | 0 <= j < |rs| && rs[j].Matched? ensures rs[j].target != r.target {
      assert ResultFits(b, rs[j], p, scorer, now);
    }
  }

  lemma {:induction false} MatchKeepsUntouched(b: Book, ids: seq<Id>, now: Book, n: nat, target: Target)
    requires n < |ids| && Distinct(ids) && UntouchedFrom(b, now, ids, n)
    requires Reconcile(now, ids[n], target, false).Ok?
    ensures UntouchedFrom(b, Reconcile(now, ids[n], target, false).value, ids, n + 1)
  {
    forall k | n + 1 <= k < |ids| ensures Untouched(b, Reconcile(now, ids[n], target, false).value, ids[k]) {
      assert Untouched(b, now, ids[k]);
    }
  }

  lemma {:induction false} MatchStep(b: Book, ids: seq<Id>, p: Params, scorer: Scorer, rs: seq<Outcome>,
          now: Book, c: Candidate)
    requires AutoProgress(b, ids, p, scorer, rs, now) && |rs| < |ids| && Distinct(ids)
    requires Qualifies(now, ids[|rs|], c.target, p, scorer)
    requires c.score == Score(now, ids[|rs|], c.target, scorer)
    ensures Reconcile(now, ids[|rs|], c.target, false).Ok?
    ensures AutoProgress(b, ids, p, scorer, rs + [Matched(ids[|rs|], c.target, c.score)],
                         Reconcile(now, ids[|rs|], c.target, false).value)
  {
    var t := ids[|rs|];
    var r := Matched(t, c.target, c.score);
    MatchKeepsBook(b, now, t, c.target, p, scorer);
    MatchKeepsResults(b, ids, p, scorer, rs, now, c.target, c.score);
    MatchKeepsDistinct(b, ids, p, scorer, rs, now, r);
    MatchKeepsUntouched(b, ids, now, |rs|, c.target);
    assert (rs + [r])[..|rs|] == rs;
  }

  /** A best candidate below the automatic score, untruncated, means that nothing qualifies. */
  lemma {:induction false} LowBestExhausts(b: Book, now: Book, t: Id, p: Params, scorer: Scorer, cs: seq<Candidate>)
    requires t in now.transactions && OnlyShrinks(b, now, p, scorer)
    requires IsCandidateList(now, t, p.tolerance, scorer, cs) && (cs == [] || cs[0].score < AUTO_SCORE)
    requires |EligibleTargets(b, t, p.tolerance)| <= CANDIDATE_LIMIT
    ensures Exhausted(now, t, p, scorer)
  {
    forall target | target in EligibleTargets(now, t, p.tolerance)
      ensures target in EligibleTargets(b, t, p.tolerance)
    {
      EligibleIsListed(now, t, target, p.tolerance);
      EligibleIsListed(b, t, target, p.tolerance);
    }
    SubsetCard(EligibleTargets(now, t, p.tolerance), EligibleTargets(b, t, p.tolerance));
    forall target ensures !Qualifies(now, t, target, p, scorer) {
      if Eligible(now, t, target, p.tolerance) {
        FirstCandidateIsBest(now, t, p.tolerance, scorer, cs, target);
      }
    }
  }

  lemma {:induction false} SkipStep(b: Book, ids: seq<Id>, p: Params, scorer: Scorer, rs: seq<Outcome>, now: Book,
                                    cs: seq<Candidate>, best: Option<real>)
    requires AutoProgress(b, ids, p, scorer, rs, now) && |rs| < |ids|
    requires ids[|rs|] in now.transactions && IsCandidateList(now, ids[|rs|], p.tolerance, scorer, cs)
    requires cs == [] || cs[0].score < AUTO_SCORE
    ensures AutoProgress(b, ids, p, scorer, rs + [Skipped(ids[|rs|], best)], now)
  {
    var t := ids[|rs|];
    if |EligibleTargets(b, t, p.tolerance)| <= CANDIDATE_LIMIT {
      LowBestExhausts(b, now, t, p, scorer, cs);
    }
    assert Untouched(b, now, t);
    assert ResultFits(b, Skipped(t, best), p, scorer, now);
    assert (rs + [Skipped(t, best)])[..|rs|] == rs;
  }

  lemma {:induction false} StartProgress(b: Book, ids: seq<Id>, p: Params, scorer: Scorer)
    requires Consistent(b) && IsPage(PendingDates(b), PageLimit(p), ids)
    ensures AutoProgress(b, ids, p, scorer, [], b)
  {
    forall k | 0 <= k < |ids| ensures Untouched(b, b, ids[k]) {
      assert ids[k] in PendingDates(b);
    }
  }

  /** A decision from a consistent book is a match or a skip, and keeps the progress. */
  lemma {:induction false} ProgressStep(b: Book, ids: seq<Id>, p: Params, scorer: Scorer, rs: seq<Outcome>, now: Book,
          r: Outcome)
    requires AutoProgress(b, ids, p, scorer, rs, now) && |rs| < |ids| && Distinct(ids)
    requires Decided(now, ids[|rs|], p, scorer, r)
    ensures AutoProgress(b, ids, p, scorer, rs + [r], Replayed(now, r))
  {
    var t := ids[|rs|];
    var cs: seq<Candidate> :| IsCandidateList(now, t, p.tolerance, scorer, cs) && r == Decision(now, t, cs);
    if cs == [] || cs[0].score < AUTO_SCORE {
      SkipStep(b, ids, p, scorer, rs, now, cs, if cs == [] then None else Some(cs[0].score));
    } else {
      assert cs[0] in cs;
      hide AutoProgress;
      MatchStep(b, ids, p, scorer, rs, now, cs[0]);
    }
  }

  /** Every pending transaction is listed, and no candidate query is truncated. */
  ghost predicate Covered(b: Book, p: Params) {
    && |PendingDates(b)| <= PageLimit(p)
    && forall t :: t in PendingDates(b) ==> |EligibleTargets(b, t, p.tolerance)| <= CANDIDATE_LIMIT
  }

  /** After a covered run nothing that could be matched automatically is left. */
  lemma {:induction false} CoveredRunExhausts(b: Book, p: Params, scorer: Scorer, rs: seq<Outcome>, b': Book, t: Id)
    requires Covered(b, p) && AutoOutcome(b, p, scorer, rs, b')
    ensures Exhausted(b', t, p, scorer)
  {
    var ids :| IsPage(PendingDates(b), PageLimit(p), ids) && |rs| == |ids| && AutoProgress(b, ids, p, scorer, rs, b');
    if t in PendingDates(b) {
      PageIsComplete(PendingDates(b), PageLimit(p), ids, t);
      var k :| 0 <= k < |ids| && ids[k] == t;
      assert ResultFits(b, rs[k], p, scorer, b');
      if rs[k].Matched? { assert RowConsistent(b', t); }
    } else {
      assert forall target :: !Eligible(b, t, target, p.tolerance);
    }
  }

  lemma {:induction false} ReplayNothing(b: Book, rs: seq<Outcome>)
    requires forall k :: 0 <= k < |rs| ==> !rs[k].Matched?
    ensures Replay(b, rs) == b
    decreases |rs|
  {
    if rs != [] { ReplayNothing(b, rs[..|rs| - 1]); }
  }

  /** An immediate second run with the same parameters changes nothing and matches nothing. */
  lemma {:induction false} SecondRunChangesNothing(b: Book, p: Params, scorer: Scorer,
                                rs1: seq<Outcome>, b1: Book, rs2: seq<Outcome>, b2: Book)
    requires Covered(b, p) && AutoOutcome(b, p, scorer, rs1, b1) && AutoOutcome(b1, p, scorer, rs2, b2)
    ensures b2 == b1
    ensures forall k :: 0 <= k < |rs2| ==> rs2[k].Skipped?
  {
    var ids :| IsPage(PendingDates(b1), PageLimit(p), ids) && |rs2| == |ids|
      && AutoProgress(b1, ids, p, scorer, rs2, b2);
    forall k | 0 <= k < |rs2| ensures rs2[k].Skipped? {
      assert ResultFits(b1, rs2[k], p, scorer, b2);
      CoveredRunExhausts(b, p, scorer, rs1, b1, rs2[k].t);
    }
    ReplayNothing(b1, rs2);
  }

  // What a run matches and what it leaves, in terms of the rows.

  /** A free row of the right kind whose amount is within so many cents of the transaction's. */
  predicate Payable(b: Book, t: Id, x: Target, cents: nat) {
    && t in b.transactions && !b.transactions[t].reconciled
    && match x
       case InvoiceTarget(i) =>
         && b.transactions[t].kind == CREDIT && i in b.invoices
         && !b.invoices[i].reconciled && !b.invoices[i].deleted && b.invoices[i].amount >= 0
         && Abs(b.invoices[i].amount - b.transactions[t].amount) <= cents
       case ObligationTarget(o) =>
         && b.transactions[t].kind == DEBIT && o in b.obligations
         && b.obligations[o].status != ObligationStatus.PAID && b.obligations[o].status != ObligationStatus.CANCELLED
         && b.obligations[o].amount >= 0
         && Abs(b.obligations[o].amount - b.transactions[t].amount) <= cents
  }

  /** The candidate query finds exactly the payable rows. */
  lemma EligibleIff(b: Book, t: Id, x: Target, tolerance: Tolerance)
    ensures Eligible(b, t, x, tolerance) <==> Payable(b, t, x, tolerance.cents)
  {
  }

  /** The milliseconds between a transaction and the date of an invoice, or the due date of an obligation. */
  function Distance(b: Book, t: Id, x: Target): nat
    requires t in b.transactions
  {
    match x
    case InvoiceTarget(i) => if i in b.invoices then Abs(b.transactions[t].occurredAt - b.invoices[i].issuedAt) else 0
    case ObligationTarget(o) =>
      if o in b.obligations then Abs(b.transactions[t].occurredAt - b.obligations[o].dueDate) else 0
  }

  /** How well the descriptions agree: an invoice's own, or an obligation's name. */
  function Likeness(b: Book, t: Id, x: Target, lower: string -> string): int
    requires t in b.transactions
  {
    var description := lower(b.transactions[t].description);
    match x
    case InvoiceTarget(i) =>
      if i in b.invoices then DescriptionScore(description, lower(b.invoices[i].description)) else 0
    case ObligationTarget(o) =>
      if o in b.obligations then DescriptionScore(description, lower(b.obligations[o].name)) else 0
  }

  /**
   * Among the payable targets that describe the transaction equally well, none in reach of the dates
   * is nearer by a hundredth of a day.
   */
  ghost predicate Nearest(b: Book, t: Id, x: Target, tolerance: Tolerance, lower: string -> string) {
    && Payable(b, t, x, tolerance.cents)
    && forall y :: Payable(b, t, y, tolerance.cents) && Likeness(b, t, y, lower) == Likeness(b, t, x, lower) ==>
         || Distance(b, t, x) < Distance(b, t, y) + 864_000
         || Distance(b, t, y) > tolerance.days * 86_400_000
         || Distance(b, t, y) > 1_727_568_000
  }

  lemma ServiceScore(b: Book, t: Id, x: Target, tolerance: Tolerance, lower: string -> string)
    requires Payable(b, t, x, tolerance.cents)
    ensures var diff := Abs(b.transactions[t].amount - TargetAmount(b, x));
      && diff <= tolerance.cents && Likeness(b, t, x, lower) in {0, 5, 10, 15, 20}
      && Score(b, t, x, ServiceScorer(lower, tolerance))
         == CandidateScore(diff, Distance(b, t, x), Likeness(b, t, x, lower), tolerance)
  {
    hide CandidateScore, DescriptionScore;
    ScoreBounds(0, 0, lower(b.transactions[t].description), lower(TargetDescription(b, x)), tolerance);
  }

  lemma BestIsNearest(b: Book, t: Id, x: Target, y: Target, tolerance: Tolerance, lower: string -> string)
    requires Payable(b, t, x, tolerance.cents) && Payable(b, t, y, tolerance.cents)
    requires Likeness(b, t, y, lower) == Likeness(b, t, x, lower)
    requires Score(b, t, x, ServiceScorer(lower, tolerance)) >= Score(b, t, y, ServiceScorer(lower, tolerance))
    ensures Distance(b, t, x) < Distance(b, t, y) + 864_000
         || Distance(b, t, y) > tolerance.days * 86_400_000 || Distance(b, t, y) > 1_727_568_000
  {
    ServiceScore(b, t, x, tolerance, lower);
    ServiceScore(b, t, y, tolerance, lower);
    hide CandidateScore, Score, ServiceScorer, Payable, Likeness;
    if Distance(b, t, y) <= tolerance.days * 86_400_000 && Distance(b, t, y) <= 1_727_568_000
       && Distance(b, t, y) + 864_000 <= Distance(b, t, x) {
      FartherScoresLess(Abs(b.transactions[t].amount - TargetAmount(b, x)), Distance(b, t, x),
                        Abs(b.transactions[t].amount - TargetAmount(b, y)), Distance(b, t, y),
                        Likeness(b, t, x, lower), tolerance);
    }
  }

  /** What is matched, if the candidate query was not truncated, is a nearest target. */
  lemma DecidedIsNearest(b: Book, t: Id, p: Params, lower: string -> string, r: Outcome)
    requires Decided(b, t, p, ServiceScorer(lower, p.tolerance), r) && r.Matched?
    requires |EligibleTargets(b, t, p.tolerance)| <= CANDIDATE_LIMIT
    ensures Nearest(b, t, r.target, p.tolerance, lower)
  {
    var scorer := ServiceScorer(lower, p.tolerance);
    var cs: seq<Candidate> :| IsCandidateList(b, t, p.tolerance, scorer, cs) && r == Decision(b, t, cs);
    assert cs[0] in cs && cs[0].target == r.target;
    hide Score, ServiceScorer, Payable, Likeness, Eligible, EligibleTargets, IsCandidateList, Distance;
    CandidateIsScored(b, t, p.tolerance, scorer, cs, cs[0]);
    EligibleIff(b, t, r.target, p.tolerance);
    forall y | Payable(b, t, y, p.tolerance.cents) && Likeness(b, t, y, lower) == Likeness(b, t, r.target, lower)
      ensures Distance(b, t, r.target) < Distance(b, t, y) + 864_000
           || Distance(b, t, y) > p.tolerance.days * 86_400_000 || Distance(b, t, y) > 1_727_568_000
    {
      EligibleIff(b, t, y, p.tolerance);
      FirstCandidateIsBest(b, t, p.tolerance, scorer, cs, y);
      BestIsNearest(b, t, r.target, y, p.tolerance, lower);
    }
  }

  lemma CandidateIsScored(b: Book, t: Id, tolerance: Tolerance, scorer: Scorer, cs: seq<Candidate>, c: Candidate)
    requires t in b.transactions && IsCandidateList(b, t, tolerance, scorer, cs) && c in cs
    ensures Eligible(b, t, c.target, tolerance) && c.score == Score(b, t, c.target, scorer)
  {
  }

  /** Each match of a run, in the book it was made in, is of a nearest target. */
  ghost predicate MatchesNearest(b: Book, rs: seq<Outcome>, p: Params, lower: string -> string) {
    forall k :: 0 <= k < |rs| && rs[k].Matched?
      && |EligibleTargets(Replay(b, rs[..k]), rs[k].t, p.tolerance)| <= CANDIDATE_LIMIT
      ==> Nearest(Replay(b, rs[..k]), rs[k].t, rs[k].target, p.tolerance, lower)
  }

  lemma RunMatchesNearest(b: Book, p: Params, lower: string -> string, rs: seq<Outcome>, b': Book)
    requires AnyOutcome(b, p, ServiceScorer(lower, p.tolerance), rs, b')
    ensures MatchesNearest(b, rs, p, lower)
  {
    var scorer := ServiceScorer(lower, p.tolerance);
    var ids :| IsPage(PendingDates(b), PageLimit(p), ids) && |rs| == |ids| && AutoRun(b, ids, p, scorer, rs, b');
    hide Nearest, EligibleTargets, IsPage, ServiceScorer;
    forall k | 0 <= k < |rs| && rs[k].Matched?
      && |EligibleTargets(Replay(b, rs[..k]), rs[k].t, p.tolerance)| <= CANDIDATE_LIMIT
      ensures Nearest(Replay(b, rs[..k]), rs[k].t, rs[k].target, p.tolerance, lower)
    {
      DecidedNames(Replay(b, rs[..k]), ids[k], p, scorer, rs[k]);
      DecidedIsNearest(Replay(b, rs[..k]), ids[k], p, lower, rs[k]);
    }
  }

  lemma DecidedNames(b: Book, t: Id, p: Params, scorer: Scorer, r: Outcome)
    requires Decided(b, t, p, scorer, r)
    ensures r.t == t
  {
  }

  /**
   * After a covered run no pending transaction has a payable target that it shares two words with or that
   * contains its description, nor one in reach of the dates and at most 10.005 days away, 15.005 with one word.
   */
  lemma NothingObviousLeft(b: Book, p: Params, lower: string -> string, rs: seq<Outcome>, b': Book, t: Id, x: Target)
    requires Covered(b, p) && AutoOutcome(b, p, ServiceScorer(lower, p.tolerance), rs, b')
    requires Payable(b', t, x, p.tolerance.cents)
    ensures Likeness(b', t, x, lower) < 10
    ensures Distance(b', t, x) <= p.tolerance.days * 86_400_000 ==>
      Distance(b', t, x) as real / 86_400_000.0 > 10.005 + Likeness(b', t, x, lower) as real
  {
    var scorer := ServiceScorer(lower, p.tolerance);
    CoveredRunExhausts(b, p, scorer, rs, b', t);
    EligibleIff(b', t, x, p.tolerance);
    assert !Qualifies(b', t, x, p, scorer);
    ServiceScore(b', t, x, p.tolerance, lower);
    InReach(Distance(b', t, x), p.tolerance);
    var other := if x.InvoiceTarget? then b'.invoices[x.id].description else b'.obligations[x.id].name;
    AutomaticMatchCondition(Abs(b'.transactions[t].amount - TargetAmount(b', x)), Distance(b', t, x),
                            lower(b'.transactions[t].description), lower(other), p.tolerance);
  }

  class BankingService {
    const toLower: string -> string
    var transactions: map<Id, Transaction>
    var invoices: map<Id, Invoice>
    var obligations: map<Id, Obligation>

    constructor (lower: string -> string, b: Book)
      ensures Contents() == b && toLower == lower
    {
      toLower := lower;
      transactions, invoices, obligations := b.transactions, b.invoices, b.obligations;
    }

    function Contents(): Book
      reads this
    {
      Book(transactions, invoices, obligations)
    }

    method CreateTransaction(t: Id, kind: TransactionType, amount: int, description: string, occurredAt: int)
      returns (r: Result<(), Error>)
      modifies this`transactions
      ensures Contents() == After(old(Contents()), CreateCall(t, kind, amount, description, occurredAt))
      ensures r.Ok? <==> Apply(old(Contents()), CreateCall(t, kind, amount, description, occurredAt)).Ok?
    {
      if t in transactions { return Err(UniqueViolation); }
      transactions := transactions[t := Transaction(kind, amount, Trim(description), occurredAt, false, None, None)];
      return Ok(());
    }

    method UpdateTransaction(t: Id, change: Change) returns (r: Result<(), Error>)
      modifies this`transactions
      ensures Contents() == After(old(Contents()), UpdateCall(t, change))
      ensures r.Ok? <==> Apply(old(Contents()), UpdateCall(t, change)).Ok?
    {
      if t !in transactions { return Err(NotFound); }
      var current := transactions[t];
      if current.reconciled { return Err(Conflict); }
      var data := current;
      if change.kind.Some? { data := data.(kind := change.kind.value); }
      if change.amount.Some? { data := data.(amount := change.amount.value); }
      if change.description.Some? { data := data.(description := Trim(change.description.value)); }
      if change.occurredAt.Some? { data := data.(occurredAt := change.occurredAt.value); }
      transactions := transactions[t := data];
      return Ok(());
    }

    /** The writes are one database transaction: a violated unique index rolls all of them back. */
    method ManualReconcile(t: Id, target: Target, force: bool) returns (r: Result<(), Error>)
      modifies this
      ensures Contents() == After(old(Contents()), ReconcileCall(t, target, force))
      ensures r.Ok? == Apply(old(Contents()), ReconcileCall(t, target, force)).Ok?
      ensures r.Err? ==> r.error == Apply(old(Contents()), ReconcileCall(t, target, force)).error
    {
      if t !in transactions { return Err(NotFound); }
      var row := transactions[t];
      if row.reconciled && !force { return Err(Conflict); }
      if target.InvoiceTarget? && row.kind != CREDIT { return Err(BadRequest); }
      if target.ObligationTarget? && row.kind != DEBIT { return Err(BadRequest); }
      if !Contents().Exists(target) { return Err(NotFound); }
      var alreadyLinked := HeldByAnother(Contents(), t, target);
      if alreadyLinked && !force { return Err(Conflict); }
      if alreadyLinked { return Err(UniqueViolation); }
      if target.InvoiceTarget? {
        invoices := invoices[target.id := invoices[target.id].(reconciled := true, status := InvoiceStatus.PAID)];
      } else {
        obligations := obligations[target.id := obligations[target.id].(status := ObligationStatus.PAID)];
      }
      transactions := transactions[t := row.(
        reconciled := true,
        invoiceId := if target.InvoiceTarget? then Some(target.id) else None,
        taxObligationId := if target.ObligationTarget? then Some(target.id) else None)];
      return Ok(());
    }

    /** The writes are one database transaction: an update of a row that is not there rolls all of them back. */
    method UndoReconciliation(t: Id) returns (r: Result<(), Error>)
      modifies this
      ensures Contents() == After(old(Contents()), UndoCall(t))
      ensures r.Ok? == Apply(old(Contents()), UndoCall(t)).Ok?
      ensures r.Err? ==> r.error == Apply(old(Contents()), UndoCall(t)).error
    {
      if t !in transactions { return Err(NotFound); }
      var row := transactions[t];
      if !row.reconciled { return Err(Conflict); }
      if Dangling(Contents(), row) { return Err(NotFound); }
      if row.invoiceId.Some? {
        var i := row.invoiceId.value;
        invoices := invoices[i := invoices[i].(reconciled := false, status := InvoiceStatus.NORMAL)];
      }
      if row.taxObligationId.Some? {
        var o := row.taxObligationId.value;
        obligations := obligations[o := obligations[o].(status := ObligationStatus.PENDING)];
      }
      transactions := transactions[t := row.(reconciled := false, invoiceId := None, taxObligationId := None)];
      return Ok(());
    }

    method CalculateCandidateScore(t: Id, target: Target, tolerance: Tolerance) returns (c: Candidate)
      requires t in transactions
      ensures c == Scored(Contents(), t, target, ServiceScorer(toLower, tolerance))
    {
      var b := Contents();
      var row := transactions[t];
      var description := CalculateDescriptionScore(toLower(row.description), toLower(TargetDescription(b, target)));
      var score := CandidateScore(
        Abs(row.amount - TargetAmount(b, target)), Abs(row.occurredAt - TargetDate(b, target)), description, tolerance);
      return Candidate(target, score, TargetDate(b, target));
    }

    method CandidatesForTransaction(t: Id, tolerance: Tolerance) returns (r: Result<seq<Candidate>, Error>)
      ensures t !in transactions ==> r == Err(NotFound)
      ensures t in transactions ==>
        r.Ok? && IsCandidateList(Contents(), t, tolerance, ServiceScorer(toLower, tolerance), r.value)
    {
      if t !in transactions { return Err(NotFound); }
      var b := Contents();
      var dates := CandidateDates(b, t, tolerance);
      var page := FetchPage(dates, CANDIDATE_LIMIT);
      ghost var scorer := ServiceScorer(toLower, tolerance);
      var candidates := [];
      for i := 0 to |page|
        invariant |candidates| == i
        invariant forall k :: 0 <= k < i ==> candidates[k] == Scored(b, t, page[k], scorer)
      {
        var c := CalculateCandidateScore(t, page[i], tolerance);
        candidates := candidates + [c];
      }
      SortedPageIsCandidateList(b, t, tolerance, scorer, page, candidates);
      var sorted := SortByScore(candidates);
      return Ok(sorted);
    }

    /** The attempt on the best candidate of one transaction, or the reason there is none. */
    method Attempt(t: Id, p: Params) returns (r: Outcome)
      requires t in transactions
      modifies this
      ensures Decided(old(Contents()), t, p, ServiceScorer(toLower, p.tolerance), r)
      ensures Contents() == Replayed(old(Contents()), r)
    {
      var listed := CandidatesForTransaction(t, p.tolerance);
      var candidates := listed.value;
      ghost var b := Contents();
      assert IsCandidateList(b, t, p.tolerance, ServiceScorer(toLower, p.tolerance), candidates);
      hide IsCandidateList;
      if |candidates| == 0 || candidates[0].score < AUTO_SCORE {
        r := Skipped(t, if |candidates| == 0 then None else Some(candidates[0].score));
      } else {
        var c := candidates[0];
        var matched := ManualReconcile(t, c.target, false);
        r := if matched.Ok? then Matched(t, c.target, c.score) else Failed(t, c.target, c.score, matched.error);
      }
      assert r == Decision(b, t, candidates);
    }

    /**
     * Tries each listed pending transaction against its best candidate. From a
     * consistent book no attempt fails.
     */
    method AutoReconcile(p: Params) returns (results: seq<Outcome>)
      modifies this
      ensures AnyOutcome(old(Contents()), p, ServiceScorer(toLower, p.tolerance), results, Contents())
      ensures Consistent(old(Contents())) ==>
        AutoOutcome(old(Contents()), p, ServiceScorer(toLower, p.tolerance), results, Contents())
      ensures MatchesNearest(old(Contents()), results, p, toLower)
    {
      ghost var before := Contents();
      ghost var scorer := ServiceScorer(toLower, p.tolerance);
      var ids := FetchPage(PendingDates(Contents()), PageLimit(p));
      results := [];
      if Consistent(before) { StartProgress(before, ids, p, scorer); }
      for i := 0 to |ids|
        invariant |results| == i && AutoRun(before, ids, p, scorer, results, Contents())
        invariant Consistent(before) ==> AutoProgress(before, ids, p, scorer, results, Contents())
      {
        ghost var now := Contents();
        assert ids[i] in PendingDates(before) && ids[i] in now.transactions;
        var r := Attempt(ids[i], p);
        RunStep(before, ids, p, scorer, results, now, r);
        if Consistent(before) { ProgressStep(before, ids, p, scorer, results, now, r); }
        results := results + [r];
      }
      RunMatchesNearest(before, p, toLower, results, Contents());
    }
  }
}
