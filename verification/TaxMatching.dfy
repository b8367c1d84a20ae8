/**
 * The automatic matcher of tax obligations against bank transactions
 * (src/modules/finance/finance.service.ts). The matcher is greedy: it walks the
 * PENDING obligations by due date and lets the database pick any transaction
 * that fits. What is proved holds whatever the database picks.
 */
module TaxMatching {
  import opened Cardinality
  import opened Entities
  import opened MapSums
  import opened Wrappers

  /** Amounts are integer cents, dates integer milliseconds. */
  datatype Obligation = Obligation(dueDate: int, amount: int, status: ObligationStatus)

  datatype Transaction = Transaction(
    amount: int, reconciled: bool, occurredAt: int, taxObligationId: Option<Id>)

  datatype Match = Match(obligationId: Id, transactionId: Id)

  /** The filter of the query for a matching transaction. */
  predicate Eligible(t: Transaction, o: Obligation) {
    && t.amount == -o.amount
    && !t.reconciled
    && o.dueDate - 15 * DAY_MS <= t.occurredAt <= o.dueDate + 5 * DAY_MS
  }

  /** One company's rows, and the calendar that gives the UTC month of a timestamp. */
  datatype Tables = Tables(
    obligations: map<Id, Obligation>,
    transactions: map<Id, Transaction>,
    locks: set<Period>,
    periodOf: int -> Period)
  {
    /** An obligation the matcher may settle. */
    predicate Open(o: Id) {
      && o in obligations
      && obligations[o].status == PENDING
      && periodOf(obligations[o].dueDate) !in locks
    }

    predicate Fits(o: Id, t: Id) {
      o in obligations && t in transactions && Eligible(transactions[t], obligations[o])
    }

    /** No transaction is already linked to an obligation that is still pending. */
    ghost predicate PendingUnlinked() {
      forall t, o :: t in transactions && transactions[t].taxObligationId == Some(o) && o in obligations
        ==> obligations[o].status != PENDING
    }
  }

  /** A set of pairs that could be settled together in the given state. */
  ghost predicate Feasible(s: Tables, g: map<Id, Id>) {
    && (forall o :: o in g ==> s.Open(o) && s.Fits(o, g[o]))
    && (forall o, p :: o in g && p in g && o != p ==> g[o] != g[p])
  }

  /** The state after settling exactly the pairs of g. */
  ghost predicate Settled(s: Tables, g: map<Id, Id>, s': Tables) {
    && s'.locks == s.locks && s'.periodOf == s.periodOf
    && s'.obligations.Keys == s.obligations.Keys
    && s'.transactions.Keys == s.transactions.Keys
    && (forall o :: o in s.obligations ==>
          s'.obligations[o] == if o in g then s.obligations[o].(status := PAID) else s.obligations[o])
    && (forall o :: o in g && g[o] in s.transactions ==>
          s'.transactions[g[o]] ==
          s.transactions[g[o]].(reconciled := true, taxObligationId := Some(o)))
    && (forall t :: t in s.transactions && t !in g.Values ==> s'.transactions[t] == s.transactions[t])
  }

  /** No open obligation has a free transaction that fits. */
  ghost predicate Maximal(s: Tables) {
    forall o, t :: s.Open(o) ==> !s.Fits(o, t)
  }

  function ObligationIds(ms: seq<Match>): seq<Id> {
    if ms == [] then [] else ObligationIds(ms[..|ms| - 1]) + [ms[|ms| - 1].obligationId]
  }

  function AsMap(ms: seq<Match>): map<Id, Id> {
    if ms == [] then map[]
    else AsMap(ms[..|ms| - 1])[ms[|ms| - 1].obligationId := ms[|ms| - 1].transactionId]
  }

  lemma {:induction false} AsMapIff(ms: seq<Match>, o: Id)
    ensures o in AsMap(ms) <==> exists i :: 0 <= i < |ms| && ms[i].obligationId == o
  {
    if ms != [] {
      var init := ms[..|ms| - 1];
      AsMapIff(init, o);
      assert forall i :: 0 <= i < |init| ==> ms[i] == init[i];
    }
  }

  lemma AsMapAppend(ms: seq<Match>, m: Match)
    ensures AsMap(ms + [m]) == AsMap(ms)[m.obligationId := m.transactionId]
    ensures ObligationIds(ms + [m]) == ObligationIds(ms) + [m.obligationId]
  {
    assert (ms + [m])[..|ms|] == ms;
  }

  function SettlePair(s: Tables, o: Id, t: Id): Tables
    requires o in s.obligations && t in s.transactions
  {
    s.(obligations := s.obligations[o := s.obligations[o].(status := PAID)],
       transactions := s.transactions[t := s.transactions[t].(reconciled := true, taxObligationId := Some(o))])
  }

  /** Settling one more pair that fits keeps the pairs settled so far feasible in the initial state. */
  lemma SettlePairStep(s: Tables, g: map<Id, Id>, now: Tables, o: Id, t: Id)
    requires Feasible(s, g) && Settled(s, g, now)
    requires now.Open(o) && now.Fits(o, t)
    ensures o !in g
    ensures Feasible(s, g[o := t]) && Settled(s, g[o := t], SettlePair(now, o, t))
  {
    var h := g[o := t];
    assert h.Values == g.Values + {t} by {
      forall v | v in g.Values ensures v in h.Values {
        var p :| p in g && g[p] == v;
        assert h[p] == v;
      }
      assert h[o] == t;
    }
  }

  /** None of the first n obligations of the list is both open and has a fitting transaction. */
  ghost predicate Exhausted(s: Tables, ids: seq<Id>, n: nat)
    requires n <= |ids|
  {
    forall k, t :: 0 <= k < n && s.Open(ids[k]) ==> !s.Fits(ids[k], t)
  }

  /** The obligations of the list from the n-th on are still pending. */
  ghost predicate AwaitingFrom(s: Tables, ids: seq<Id>, n: nat)
    requires n <= |ids|
  {
    forall k :: n <= k < |ids| ==> ids[k] in s.obligations && s.obligations[ids[k]].status == PENDING
  }

  ghost predicate Distinct(ids: seq<Id>) {
    forall i, j :: 0 <= i < j < |ids| ==> ids[i] != ids[j]
  }

  /** Settling a pair takes candidates away and adds none. */
  lemma ExhaustedStep(s: Tables, ids: seq<Id>, n: nat, t: Id)
    requires n < |ids| && Exhausted(s, ids, n) && AwaitingFrom(s, ids, n) && Distinct(ids)
    requires s.Open(ids[n]) && s.Fits(ids[n], t)
    ensures AwaitingFrom(SettlePair(s, ids[n], t), ids, n + 1)
    ensures Exhausted(SettlePair(s, ids[n], t), ids, n + 1)
  {
    var s' := SettlePair(s, ids[n], t);
    forall k, u | 0 <= k < n + 1 && s'.Open(ids[k]) ensures !s'.Fits(ids[k], u) {
      assert k < n && s.Open(ids[k]);
      assert !s.Fits(ids[k], u);
    }
  }

  /** Settling never links a transaction to an obligation left pending. */
  lemma SettledKeepsPendingUnlinked(s: Tables, g: map<Id, Id>, s': Tables)
    requires s.PendingUnlinked() && Feasible(s, g) && Settled(s, g, s')
    ensures s'.PendingUnlinked()
  {
    forall t, o | t in s'.transactions && s'.transactions[t].taxObligationId == Some(o) && o in s'.obligations
      ensures s'.obligations[o].status != PENDING
    {
      if t in g.Values {
        var p :| p in g && g[p] == t;
        assert s'.transactions[g[p]].taxObligationId == Some(p);
      }
    }
  }

  /** Pair p of g holds transaction t and is due no later than o. */
  ghost predicate TakenBefore(s: Tables, g: map<Id, Id>, t: Id, o: Id, p: Id) {
    && p in g && g[p] == t
    && p in s.obligations && o in s.obligations
    && s.obligations[p].dueDate <= s.obligations[o].dueDate
  }

  /** Obligation o, if left out of g, lost each transaction that fitted it to one due no later. */
  ghost predicate OutrankedIfUnmatched(s: Tables, g: map<Id, Id>, o: Id) {
    s.Open(o) && o !in g ==> forall t :: s.Fits(o, t) ==> exists p :: TakenBefore(s, g, t, o, p)
  }

  /** Only the first n obligations of the list are in g, and those left out were outranked. */
  ghost predicate Prioritised(s: Tables, g: map<Id, Id>, ids: seq<Id>, n: nat)
    requires n <= |ids|
  {
    && (forall o :: o in g ==> o in ids[..n])
    && (forall k :: 0 <= k < n ==> OutrankedIfUnmatched(s, g, ids[k]))
  }

  ghost predicate DueOrder(s: Tables, ids: seq<Id>) {
    forall i, j :: 0 <= i < j < |ids| ==>
      ids[i] in s.obligations && ids[j] in s.obligations
      && s.obligations[ids[i]].dueDate <= s.obligations[ids[j]].dueDate
  }

  lemma PrioritisedMatch(s: Tables, g: map<Id, Id>, ids: seq<Id>, n: nat, t: Id)
    requires n < |ids| && Prioritised(s, g, ids, n) && ids[n] !in g
    ensures Prioritised(s, g[ids[n] := t], ids, n + 1)
  {
    var h := g[ids[n] := t];
    forall o | o in h ensures o in ids[..n + 1] {
      if o != ids[n] { assert o in ids[..n]; }
    }
    forall k | 0 <= k < n + 1 ensures OutrankedIfUnmatched(s, h, ids[k]) {
      if k < n {
        assert OutrankedIfUnmatched(s, g, ids[k]);
        forall u | s.Open(ids[k]) && ids[k] !in h && s.Fits(ids[k], u)
          ensures exists p :: TakenBefore(s, h, u, ids[k], p)
        {
          var p :| TakenBefore(s, g, u, ids[k], p);
          assert TakenBefore(s, h, u, ids[k], p);
        }
      }
    }
  }

  /** What an unmatched open obligation finds fitting no longer was taken by a pair. */
  lemma FreeUnlessTaken(s: Tables, g: map<Id, Id>, now: Tables, o: Id, t: Id)
    requires Settled(s, g, now) && s.Open(o) && o !in g && s.Fits(o, t)
    ensures now.Open(o)
    ensures !now.Fits(o, t) ==> t in g.Values
  {
  }

  lemma PrioritisedMiss(s: Tables, g: map<Id, Id>, now: Tables, ids: seq<Id>, n: nat)
    requires n < |ids| && Prioritised(s, g, ids, n) && DueOrder(s, ids)
    requires Feasible(s, g) && Settled(s, g, now)
    requires now.Open(ids[n]) ==> forall t :: !now.Fits(ids[n], t)
    ensures Prioritised(s, g, ids, n + 1)
  {
    forall o | o in g ensures o in ids[..n + 1] {
      assert o in ids[..n];
    }
    FeasiblePairs(s, g);
    hide Feasible, Settled;
    var o := ids[n];
    forall t | s.Open(o) && o !in g && s.Fits(o, t) ensures exists p :: TakenBefore(s, g, t, o, p) {
      FreeUnlessTaken(s, g, now, o, t);
      var p :| p in g && g[p] == t;
      assert p in ids[..n] && s.Open(p);
      assert TakenBefore(s, g, t, o, p);
    }
    assert OutrankedIfUnmatched(s, g, ids[n]);
  }

  /** The pairs of the log are distinct, feasible, and what the state has gained. */
  ghost predicate Progress(before: Tables, logged: seq<Match>, now: Tables) {
    var g := AsMap(logged);
    && Feasible(before, g) && Settled(before, g, now) && |g| == |logged|
    && forall m :: m in logged ==> m.obligationId in g && g[m.obligationId] == m.transactionId
  }

  lemma ProgressStep(before: Tables, logged: seq<Match>, now: Tables, o: Id, t: Id)
    requires Progress(before, logged, now) && now.Open(o) && now.Fits(o, t)
    ensures Progress(before, logged + [Match(o, t)], SettlePair(now, o, t))
    ensures ObligationIds(logged + [Match(o, t)]) == ObligationIds(logged) + [o]
  {
    SettlePairStep(before, AsMap(logged), now, o, t);
    AsMapAppend(logged, Match(o, t));
  }

  /** A transaction other than t is linked to obligation o. */
  predicate HeldByAnother(transactions: map<Id, Transaction>, o: Id, t: Id) {
    exists u :: u in transactions && u != t && transactions[u].taxObligationId == Some(o)
  }

  /** An obligation that may be settled has a fitting transaction, and another one linked to it. */
  ghost predicate Clashes(s: Tables) {
    exists o, t :: s.Open(o) && s.Fits(o, t) && HeldByAnother(s.transactions, o, t)
  }

  /** A clash met during a run was there at its start. */
  lemma ClashFromStart(s: Tables, g: map<Id, Id>, now: Tables, o: Id, t: Id)
    requires Feasible(s, g) && Settled(s, g, now)
    requires now.Open(o) && now.Fits(o, t) && HeldByAnother(now.transactions, o, t)
    ensures Clashes(s)
  {
    var u :| u in now.transactions && u != t && now.transactions[u].taxObligationId == Some(o);
    assert o !in g;
    assert forall p :: p in g ==> now.transactions[g[p]].taxObligationId == Some(p);
    assert s.transactions[u] == now.transactions[u];
    assert s.Open(o) && s.Fits(o, t) && HeldByAnother(s.transactions, o, t);
  }

  /** No obligation of g had a transaction linked to it but one that g takes over. */
  ghost predicate Unheld(s: Tables, g: map<Id, Id>) {
    forall o, u :: o in g && u in s.transactions && u !in g.Values ==> s.transactions[u].taxObligationId != Some(o)
  }

  lemma UnheldStep(s: Tables, g: map<Id, Id>, now: Tables, o: Id, t: Id)
    requires Unheld(s, g) && Feasible(s, g) && Settled(s, g, now) && o !in g
    requires !HeldByAnother(now.transactions, o, t)
    ensures Unheld(s, g[o := t])
  {
    var h := g[o := t];
    assert t in h.Values by { assert h[o] == t; }
    forall v | v in g.Values ensures v in h.Values {
      var p :| p in g && g[p] == v;
      assert h[p] == v;
    }
    forall p, u | p in h && u in s.transactions && u !in h.Values
      ensures s.transactions[u].taxObligationId != Some(p)
    {
      assert u !in g.Values && now.transactions[u] == s.transactions[u];
    }
  }

  /** The pairs logged were feasible together, are what changed, and outrank what they left out. */
  ghost predicate RunOutcome(before: Tables, logged: seq<Match>, matches: seq<Id>, now: Tables) {
    && Progress(before, logged, now) && Unheld(before, AsMap(logged))
    && matches == ObligationIds(logged)
    && Maximal(now)
    && forall o :: OutrankedIfUnmatched(before, AsMap(logged), o)
  }

  /** The list holds the pending obligations once each, by due date. */
  ghost predicate PendingList(s: Tables, ids: seq<Id>) {
    && (forall o :: o in ids <==> o in s.obligations && s.obligations[o].status == PENDING)
    && Distinct(ids) && DueOrder(s, ids)
  }

  /** The run after the first n obligations of the list. */
  ghost predicate RunningAt(before: Tables, logged: seq<Match>, now: Tables, ids: seq<Id>, n: nat)
    requires n <= |ids|
  {
    && Progress(before, logged, now) && Unheld(before, AsMap(logged))
    && AwaitingFrom(now, ids, n) && Exhausted(now, ids, n)
    && Prioritised(before, AsMap(logged), ids, n)
  }

  lemma RunningStart(s: Tables, ids: seq<Id>)
    requires PendingList(s, ids)
    ensures RunningAt(s, [], s, ids, 0)
  {
  }

  lemma RunningMiss(before: Tables, logged: seq<Match>, now: Tables, ids: seq<Id>, n: nat)
    requires n < |ids| && PendingList(before, ids) && RunningAt(before, logged, now, ids, n)
    requires now.Open(ids[n]) ==> forall t :: !now.Fits(ids[n], t)
    ensures RunningAt(before, logged, now, ids, n + 1)
  {
    hide Feasible, Settled, OutrankedIfUnmatched, DueOrder, Prioritised;
    PrioritisedMiss(before, AsMap(logged), now, ids, n);
  }

  lemma RunningMatch(before: Tables, logged: seq<Match>, now: Tables, ids: seq<Id>, n: nat, t: Id)
    requires n < |ids| && PendingList(before, ids) && RunningAt(before, logged, now, ids, n)
    requires now.Open(ids[n]) && now.Fits(ids[n], t) && !HeldByAnother(now.transactions, ids[n], t)
    ensures RunningAt(before, logged + [Match(ids[n], t)], SettlePair(now, ids[n], t), ids, n + 1)
    ensures ObligationIds(logged + [Match(ids[n], t)]) == ObligationIds(logged) + [ids[n]]
  {
    hide Feasible, Settled, OutrankedIfUnmatched, DueOrder, Prioritised, Exhausted, AwaitingFrom, Unheld, HeldByAnother;
    SettlePairStep(before, AsMap(logged), now, ids[n], t);
    UnheldStep(before, AsMap(logged), now, ids[n], t);
    ProgressStep(before, logged, now, ids[n], t);
    ExhaustedStep(now, ids, n, t);
    PrioritisedMatch(before, AsMap(logged), ids, n, t);
    AsMapAppend(logged, Match(ids[n], t));
  }

  lemma RunningPending(before: Tables, logged: seq<Match>, now: Tables, ids: seq<Id>, n: nat)
    requires n < |ids| && RunningAt(before, logged, now, ids, n)
    ensures ids[n] in now.obligations && now.obligations[ids[n]].status == PENDING
  {
  }

  lemma ClashFromRun(before: Tables, logged: seq<Match>, now: Tables, ids: seq<Id>, n: nat, t: Id)
    requires n < |ids| && RunningAt(before, logged, now, ids, n)
    requires now.Open(ids[n]) && now.Fits(ids[n], t) && HeldByAnother(now.transactions, ids[n], t)
    ensures Clashes(before)
  {
    ClashFromStart(before, AsMap(logged), now, ids[n], t);
  }

  /**
   * The transaction pays the obligation: it was free, it was made at most fifteen days before and
   * five days after the due date, and the two amounts cancel.
   */
  predicate Pays(t: Transaction, o: Obligation) {
    && t.amount + o.amount == 0 && !t.reconciled
    && -1_296_000_000 <= t.occurredAt - o.dueDate <= 432_000_000
  }

  /** Each logged pair is a pending obligation of an open month and a transaction that pays it, both settled now. */
  ghost predicate PaidOff(before: Tables, logged: seq<Match>, now: Tables) {
    forall m :: m in logged ==>
      && m.obligationId in before.obligations && m.transactionId in before.transactions
      && m.obligationId in now.obligations && m.transactionId in now.transactions
      && before.obligations[m.obligationId].status == PENDING
      && before.periodOf(before.obligations[m.obligationId].dueDate) !in before.locks
      && Pays(before.transactions[m.transactionId], before.obligations[m.obligationId])
      && now.obligations[m.obligationId].status == PAID
      && now.transactions[m.transactionId].reconciled
      && now.transactions[m.transactionId].taxObligationId == Some(m.obligationId)
  }

  /** No transaction pays an obligation still pending in an open month. */
  ghost predicate NothingPays(s: Tables) {
    forall o, t :: o in s.obligations && t in s.transactions
      && s.obligations[o].status == PENDING && s.periodOf(s.obligations[o].dueDate) !in s.locks
      ==> !Pays(s.transactions[t], s.obligations[o])
  }

  lemma PairPays(before: Tables, g: map<Id, Id>, now: Tables, o: Id)
    requires Feasible(before, g) && Settled(before, g, now) && o in g
    ensures o in before.obligations && g[o] in before.transactions
    ensures before.Open(o) && Pays(before.transactions[g[o]], before.obligations[o])
    ensures now.obligations[o] == before.obligations[o].(status := PAID)
    ensures now.transactions[g[o]] == before.transactions[g[o]].(reconciled := true, taxObligationId := Some(o))
  {
  }

  lemma MaximalPays(now: Tables)
    requires Maximal(now)
    ensures NothingPays(now)
  {
    forall o, t | o in now.obligations && t in now.transactions && now.Open(o)
      ensures !Pays(now.transactions[t], now.obligations[o])
    {
      assert !now.Fits(o, t);
    }
  }

  lemma OutcomePays(before: Tables, logged: seq<Match>, matches: seq<Id>, now: Tables)
    requires RunOutcome(before, logged, matches, now)
    ensures PaidOff(before, logged, now) && NothingPays(now)
  {
    var g := AsMap(logged);
    MaximalPays(now);
    hide Feasible, Settled, Maximal, Pays, NothingPays, OutrankedIfUnmatched, Unheld, AsMap;
    forall m | m in logged ensures m.obligationId in g && g[m.obligationId] == m.transactionId {
    }
    forall o | o in g
      ensures before.Open(o) && o in now.obligations && now.obligations[o].status == PAID
      ensures g[o] in before.transactions && Pays(before.transactions[g[o]], before.obligations[o])
      ensures g[o] in now.transactions && now.transactions[g[o]].reconciled
      ensures now.transactions[g[o]].taxObligationId == Some(o)
    {
      PairPays(before, g, now, o);
    }
  }

  lemma OutcomeKeepsUnlinked(before: Tables, logged: seq<Match>, matches: seq<Id>, now: Tables)
    requires RunOutcome(before, logged, matches, now)
    ensures before.PendingUnlinked() ==> now.PendingUnlinked()
  {
    if before.PendingUnlinked() { SettledKeepsPendingUnlinked(before, AsMap(logged), now); }
  }

  lemma RunningEnd(before: Tables, logged: seq<Match>, now: Tables, ids: seq<Id>)
    requires PendingList(before, ids) && RunningAt(before, logged, now, ids, |ids|)
    ensures RunOutcome(before, logged, ObligationIds(logged), now)
  {
    forall o ensures OutrankedIfUnmatched(before, AsMap(logged), o) {
      if before.Open(o) { assert o in ids; }
    }
    forall o, t | now.Open(o) ensures !now.Fits(o, t) {
      assert o in ids;
    }
  }

  // What a committed run says in terms of the rows.

  /** The amounts of the obligations paid and of the transactions reconciled. */
  ghost function Balance(s: Tables): int {
    MapSum(map o | o in s.obligations && s.obligations[o].status == PAID :: s.obligations[o].amount)
    + MapSum(map t | t in s.transactions && s.transactions[t].reconciled :: s.transactions[t].amount)
  }

  /** A payment cancels the obligation it pays. */
  lemma SettlePairKeepsBalance(s: Tables, o: Id, t: Id)
    requires s.Open(o) && s.Fits(o, t)
    ensures Balance(SettlePair(s, o, t)) == Balance(s)
  {
    var s' := SettlePair(s, o, t);
    var paid := map p | p in s.obligations && s.obligations[p].status == PAID :: s.obligations[p].amount;
    var paid' := map p | p in s'.obligations && s'.obligations[p].status == PAID :: s'.obligations[p].amount;
    var spent := map u | u in s.transactions && s.transactions[u].reconciled :: s.transactions[u].amount;
    var spent' := map u | u in s'.transactions && s'.transactions[u].reconciled :: s'.transactions[u].amount;
    assert paid' == Added(paid, o, s.obligations[o].amount);
    assert spent' == Added(spent, t, s.transactions[t].amount);
    MapSumAdded(paid, o, s.obligations[o].amount);
    MapSumAdded(spent, t, s.transactions[t].amount);
  }

  class TaxMatcher {
    const periodOf: int -> Period
    var obligations: map<Id, Obligation>
    var transactions: map<Id, Transaction>
    var locks: set<Period>
    var auditLog: seq<Match>

    constructor (calendar: int -> Period, os: map<Id, Obligation>, ts: map<Id, Transaction>, ls: set<Period>)
      ensures State() == Tables(os, ts, ls, calendar)
      ensures auditLog == []
    {
      periodOf, obligations, transactions, locks, auditLog := calendar, os, ts, ls, [];
    }

    function State(): Tables
      reads this
    {
      Tables(obligations, transactions, locks, periodOf)
    }

    /** The PENDING obligations in order of due date; ties come in any order. */
    method PendingByDueDate() returns (ids: seq<Id>)
      ensures PendingList(State(), ids)
      ensures |ids| == |set o | o in obligations && obligations[o].status == PENDING|
    {
      ids := [];
      var rest := set o | o in obligations && obligations[o].status == PENDING;
      while rest != {}
        invariant forall o :: o in rest || o in ids <==> o in obligations && obligations[o].status == PENDING
        invariant forall o :: o in rest ==> o !in ids
        invariant |ids| + |rest| == |set o | o in obligations && obligations[o].status == PENDING|
        invariant forall i, j :: 0 <= i < j < |ids| ==> ids[i] != ids[j]
        invariant forall i, j :: 0 <= i < j < |ids| ==> obligations[ids[i]].dueDate <= obligations[ids[j]].dueDate
        invariant forall i, o :: 0 <= i < |ids| && o in rest ==> obligations[ids[i]].dueDate <= obligations[o].dueDate
        decreases rest
      {
        EarliestExists(obligations, rest);
        var o :| o in rest && forall p :: p in rest ==> obligations[o].dueDate <= obligations[p].dueDate;
        rest := rest - {o};
        ids := ids + [o];
      }
    }

    /** Marks the transaction reconciled and the obligation paid, and records the pair. */
    method Settle(o: Id, t: Id)
      requires State().Open(o) && State().Fits(o, t)
      modifies this`obligations, this`transactions, this`auditLog
      ensures State() == SettlePair(old(State()), o, t)
      ensures auditLog == old(auditLog) + [Match(o, t)]
    {
      transactions := transactions[t := transactions[t].(reconciled := true, taxObligationId := Some(o))];
      obligations := obligations[o := obligations[o].(status := PAID)];
      auditLog := auditLog + [Match(o, t)];
    }

    /**
     * Settles obligations until none that is open has a free transaction that
     * fits; the pairs chosen are those appended to the audit log. All of it is one
     * database transaction: a link that another transaction holds rolls it back.
     */
    method ReconcileTaxObligations() returns (committed: bool, processed: nat, matches: seq<Id>)
      modifies this`obligations, this`transactions, this`auditLog
      ensures !committed ==> State() == old(State()) && auditLog == old(auditLog) && Clashes(old(State()))
      ensures |old(auditLog)| <= |auditLog| && auditLog[..|old(auditLog)|] == old(auditLog)
      ensures committed ==> RunOutcome(old(State()), auditLog[|old(auditLog)|..], matches, State())
      ensures committed ==> PaidOff(old(State()), auditLog[|old(auditLog)|..], State()) && NothingPays(State())
      ensures Balance(State()) == Balance(old(State()))
      ensures committed && old(State()).PendingUnlinked() ==> State().PendingUnlinked()
      ensures processed == |set o | o in old(obligations) && old(obligations)[o].status == PENDING|
    {
      hide Feasible, Settled, PendingList, RunningAt, Progress, RunOutcome, Clashes, Balance, PaidOff;
      hide NothingPays;
      var pending := PendingByDueDate();
      processed := |pending|;
      matches := [];
      ghost var before := State();
      ghost var logged: seq<Match> := [];
      var savedObligations, savedTransactions, savedLog := obligations, transactions, auditLog;
      RunningStart(before, pending);

      for i := 0 to |pending|
        invariant auditLog == old(auditLog) + logged && matches == ObligationIds(logged)
        invariant RunningAt(before, logged, State(), pending, i)
        invariant Balance(State()) == Balance(before)
      {
        var id := pending[i];
        RunningPending(before, logged, State(), pending, i);
        var obligation := obligations[id];
        if periodOf(obligation.dueDate) in locks {
          RunningMiss(before, logged, State(), pending, i);
          continue;
        }
        if t :| t in transactions && Eligible(transactions[t], obligation) {
          if HeldByAnother(transactions, id, t) {
            ClashFromRun(before, logged, State(), pending, i, t);
            obligations, transactions, auditLog := savedObligations, savedTransactions, savedLog;
            return false, processed, matches;
          }
          RunningMatch(before, logged, State(), pending, i, t);
          SettlePairKeepsBalance(State(), id, t);
          Settle(id, t);
          logged := logged + [Match(id, t)];
          matches := matches + [id];
        } else {
          RunningMiss(before, logged, State(), pending, i);
        }
      }
      RunningEnd(before, logged, State(), pending);
      OutcomePays(before, logged, matches, State());
      OutcomeKeepsUnlinked(before, logged, matches, State());
      committed := true;
    }
  }

  lemma EarliestExists(os: map<Id, Obligation>, rest: set<Id>)
    requires rest != {} && rest <= os.Keys
    ensures exists o :: o in rest && forall p :: p in rest ==> os[o].dueDate <= os[p].dueDate
  {
    var x :| x in rest;
    if rest != {x} {
      EarliestExists(os, rest - {x});
      var y :| y in rest - {x} && forall p :: p in rest - {x} ==> os[y].dueDate <= os[p].dueDate;
      assert forall p :: p in rest ==> os[if os[x].dueDate < os[y].dueDate then x else y].dueDate <= os[p].dueDate;
    } else {
      assert forall p :: p in rest ==> os[x].dueDate <= os[p].dueDate;
    }
  }

  /** The keys of an injective map are at most as many as the values they may take. */
  lemma {:induction false} InjectiveCard(keys: set<Id>, f: map<Id, Id>, range: set<Id>)
    requires keys <= f.Keys
    requires forall k :: k in keys ==> f[k] in range
    requires forall j, k :: j in keys && k in keys && j != k ==> f[j] != f[k]
    ensures |keys| <= |range|
  {
    if keys != {} {
      var k :| k in keys;
      InjectiveCard(keys - {k}, f, range - {f[k]});
    }
  }

  /** A pair that touches nothing already settled would have been settled. */
  lemma EveryPairIsBlocked(s: Tables, g: map<Id, Id>, s': Tables, o: Id, t: Id)
    requires Feasible(s, g) && Settled(s, g, s') && Maximal(s')
    requires s.Open(o) && s.Fits(o, t)
    ensures o in g || t in g.Values
  {
    if o !in g && t !in g.Values {
      assert s'.Open(o);
      assert s'.transactions[t] == s.transactions[t];
      assert s'.Fits(o, t);
    }
  }

  lemma FeasiblePairs(s: Tables, g: map<Id, Id>)
    requires Feasible(s, g)
    ensures forall o :: o in g ==> s.Open(o) && s.Fits(o, g[o])
    ensures forall o, p :: o in g && p in g && o != p ==> g[o] != g[p]
  {
  }

  /** Pairs without a common transaction, each sharing an obligation or a transaction with g. */
  lemma CoveredPairs(g: map<Id, Id>, best: map<Id, Id>)
    requires forall o :: o in best ==> o in g || best[o] in g.Values
    requires forall o, p :: o in best && p in best && o != p ==> best[o] != best[p]
    ensures |best| <= 2 * |g|
  {
    var byObligation, byTransaction := best.Keys * g.Keys, set o | o in best.Keys && best[o] in g.Values;
    assert best.Keys == byObligation + byTransaction;
    InjectiveCard(byTransaction, best, g.Values);
    SubsetCard(byObligation, g.Keys);
    ValuesAtMostKeys(g);
  }

  /** Whatever transactions the database picks, at least half of the best possible number is settled. */
  lemma HalfOptimal(s: Tables, g: map<Id, Id>, s': Tables, best: map<Id, Id>)
    requires Feasible(s, g) && Settled(s, g, s') && Maximal(s')
    requires Feasible(s, best)
    ensures |best| <= 2 * |g|
  {
    hide Feasible, Settled, Maximal;
    FeasiblePairs(s, best);
    forall o | o in best ensures o in g || best[o] in g.Values { EveryPairIsBlocked(s, g, s', o, best[o]); }
    CoveredPairs(g, best);
  }

  lemma {:induction false} ValuesAtMostKeys(g: map<Id, Id>)
    ensures |g.Values| <= |g.Keys|
  {
    if g != map[] {
      var k :| k in g;
      var rest := g - {k};
      ValuesAtMostKeys(rest);
      assert g.Values <= rest.Values + {g[k]} by {
        forall v | v in g.Values ensures v in rest.Values + {g[k]} {
          var j :| j in g && g[j] == v;
          if j != k { assert j in rest && rest[j] == v; }
        }
      }
      assert rest.Keys == g.Keys - {k};
      SubsetCard(g.Values, rest.Values + {g[k]});
    }
  }

  /** Two obligations and two transactions: x fits both a and b, y fits only a. */
  function TightState(calendar: int -> Period, a: Id, b: Id, x: Id, y: Id): Tables {
    Tables(
      map[a := Obligation(0, 1, PENDING), b := Obligation(10 * DAY_MS, 1, PENDING)],
      map[x := Transaction(-1, false, 0, None), y := Transaction(-1, false, -10 * DAY_MS, None)],
      {}, calendar)
  }

  lemma TightBest(calendar: int -> Period, a: Id, b: Id, x: Id, y: Id)
    requires a != b && x != y
    ensures TightState(calendar, a, b, x, y).PendingUnlinked()
    ensures Feasible(TightState(calendar, a, b, x, y), map[a := y, b := x])
  {
  }

  lemma TightGreedy(calendar: int -> Period, a: Id, b: Id, x: Id, y: Id)
    requires a != b && x != y
    ensures var s := TightState(calendar, a, b, x, y);
      Feasible(s, map[a := x]) && Settled(s, map[a := x], SettlePair(s, a, x)) && Maximal(SettlePair(s, a, x))
  {
    var g: map<Id, Id> := map[a := x];
    assert g[a] == x && x in g.Values;
  }

  lemma TightOutranked(calendar: int -> Period, a: Id, b: Id, x: Id, y: Id, o: Id)
    requires a != b && x != y
    ensures OutrankedIfUnmatched(TightState(calendar, a, b, x, y), map[a := x], o)
  {
    assert TakenBefore(TightState(calendar, a, b, x, y), map[a := x], x, b, a);
  }

  /** The factor two is reached: when the database gives x to a, nothing is left for b. */
  lemma HalfIsReached(calendar: int -> Period, a: Id, b: Id, x: Id, y: Id)
    requires a != b && x != y
    ensures var s := TightState(calendar, a, b, x, y); var g: map<Id, Id> := map[a := x];
      var best: map<Id, Id> := map[a := y, b := x]; var s' := SettlePair(s, a, x);
      && s.PendingUnlinked() && Feasible(s, best) && |best| == 2 * |g|
      && Feasible(s, g) && Settled(s, g, s') && Maximal(s') && (forall o :: OutrankedIfUnmatched(s, g, o))
  {
    hide Feasible, Settled, Maximal, OutrankedIfUnmatched;
    TightBest(calendar, a, b, x, y);
    TightGreedy(calendar, a, b, x, y);
    forall o ensures OutrankedIfUnmatched(TightState(calendar, a, b, x, y), map[a := x], o) {
      TightOutranked(calendar, a, b, x, y, o);
    }
  }

  /** One pending obligation, which x fits and which y, reconciled before, is linked to. */
  function HeldState(calendar: int -> Period, o: Id, x: Id, y: Id): Tables {
    Tables(
      map[o := Obligation(0, 1, PENDING)],
      map[x := Transaction(-1, false, 0, None), y := Transaction(-1, true, 0, Some(o))],
      {}, calendar)
  }

  /** From there no run can commit, so the matcher rolls back. */
  lemma RollbackIsReached(calendar: int -> Period, o: Id, x: Id, y: Id)
    requires x != y
    ensures forall logged, matches, now :: !RunOutcome(HeldState(calendar, o, x, y), logged, matches, now)
  {
    var s := HeldState(calendar, o, x, y);
    forall logged, matches, now ensures !RunOutcome(s, logged, matches, now) {
      var g := AsMap(logged);
      if Feasible(s, g) && Settled(s, g, now) && Maximal(now) && Unheld(s, g) {
        HeldOutcome(calendar, o, x, y, g, now);
      }
    }
  }

  lemma HeldOutcome(calendar: int -> Period, o: Id, x: Id, y: Id, g: map<Id, Id>, now: Tables)
    requires x != y
    requires var s := HeldState(calendar, o, x, y); Feasible(s, g) && Settled(s, g, now) && Maximal(now)
    ensures !Unheld(HeldState(calendar, o, x, y), g)
  {
    var s := HeldState(calendar, o, x, y);
    EveryPairIsBlocked(s, g, now, o, x);
    assert forall v :: v in g.Values ==> v == x;
    assert o in g && y !in g.Values;
  }
}
