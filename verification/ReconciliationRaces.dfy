/**
 * The reconciliation calls taken apart into the read that checks a transaction and the write that
 * relies on it, any number of them at once
 * (src/modules/banking-enterprise/banking-enterprise.service.ts). The read comes before the
 * database transaction that writes; that transaction is one step, and so is a creation.
 */
module ReconciliationRaces {
  import opened Entities
  import opened ReconciliationBook
  import opened Wrappers

  type CallId = nat

  /** A call that passed its checks, with the row it read; or one that is done. */
  datatype Stage = Checked(call: Call, row: Transaction) | Ended

  datatype State = State(book: Book, calls: map<CallId, Stage>)

  datatype Step = Read(c: CallId, call: Call) | Commit(c: CallId) | Insert(call: Call)

  /** The checks made on the row that was read. */
  predicate Accepts(call: Call, row: Transaction) {
    match call
    case CreateCall(_, _, _, _, _) => false
    case UpdateCall(_, _) => !row.reconciled
    case ReconcileCall(_, target, force) => (row.reconciled ==> force) && KindFits(row.kind, target)
    case UndoCall(_) => row.reconciled
  }

  function Looked(b: Book, call: Call): Stage {
    if call.t in b.transactions && Accepts(call, b.transactions[call.t])
    then Checked(call, b.transactions[call.t]) else Ended
  }

  /** The writes of a call, all of them or, if one fails, none. */
  function Committed(b: Book, call: Call, row: Transaction): Book {
    match call
    case CreateCall(_, _, _, _, _) => b
    case UpdateCall(t, change) =>
      if t in b.transactions then b.(transactions := b.transactions[t := Edited(b.transactions[t], change)]) else b
    case ReconcileCall(t, target, _) =>
      if Attachable(b, t, target) then SetLink(MarkTarget(b, target), t, target) else b
    case UndoCall(t) => if t in b.transactions && !Dangling(b, row) then Released(b, t, row) else b
  }

  function After(s: State, step: Step): State {
    match step
    case Read(c, call) => if c in s.calls then s else s.(calls := s.calls[c := Looked(s.book, call)])
    case Commit(c) =>
      if c in s.calls && s.calls[c].Checked?
      then State(Committed(s.book, s.calls[c].call, s.calls[c].row), s.calls[c := Ended]) else s
    case Insert(call) => if call.CreateCall? then s.(book := ReconciliationBook.After(s.book, call)) else s
  }

  function Run(s: State, steps: seq<Step>): State
    decreases |steps|
  {
    if steps == [] then s else Run(After(s, steps[0]), steps[1..])
  }

  // What every run keeps.

  /** Reconciled means exactly one link. */
  predicate OneLink(row: Transaction) {
    (row.reconciled <==> row.invoiceId.Some? || row.taxObligationId.Some?)
    && !(row.invoiceId.Some? && row.taxObligationId.Some?)
  }

  /** Each transaction is reconciled iff it has exactly one link, and no target is linked twice. */
  ghost predicate Linked(b: Book) {
    && (forall t :: t in b.transactions ==> OneLink(b.transactions[t]))
    && LinksUnique(b)
  }

  ghost predicate Sound(s: State) {
    && Linked(s.book)
    && forall c :: c in s.calls && s.calls[c].Checked? ==>
         Accepts(s.calls[c].call, s.calls[c].row) && OneLink(s.calls[c].row)
  }

  lemma AttachKeepsLinked(b: Book, t: Id, target: Target)
    requires Linked(b) && Attachable(b, t, target)
    ensures Linked(SetLink(MarkTarget(b, target), t, target))
  {
    var b' := SetLink(MarkTarget(b, target), t, target);
    forall u, v, x | b'.LinkedTo(u, x) && b'.LinkedTo(v, x) ensures u == v {
      if u != t && v != t {
        assert b.LinkedTo(u, x) && b.LinkedTo(v, x);
      } else if u != v {
        assert x == target;
        assert b.LinkedTo(if u == t then v else u, target);
      }
    }
  }

  /** A book whose links are among the other's. */
  lemma FewerLinks(b: Book, b': Book)
    requires LinksUnique(b)
    requires forall u, x :: b'.LinkedTo(u, x) ==> b.LinkedTo(u, x)
    ensures LinksUnique(b')
  {
  }

  lemma CommitKeepsLinked(b: Book, call: Call, row: Transaction)
    requires Linked(b)
    ensures Linked(Committed(b, call, row))
  {
    var b' := Committed(b, call, row);
    if call.ReconcileCall? {
      if Attachable(b, call.t, call.target) { AttachKeepsLinked(b, call.t, call.target); }
    } else {
      FewerLinks(b, b');
    }
  }

  lemma InsertKeepsLinked(b: Book, call: Call)
    requires Linked(b) && call.CreateCall?
    ensures Linked(ReconciliationBook.After(b, call))
  {
    FewerLinks(b, ReconciliationBook.After(b, call));
  }

  lemma StepKeepsSound(s: State, step: Step)
    requires Sound(s)
    ensures Sound(After(s, step))
  {
    match step
    case Read(_, _) =>
    case Commit(c) =>
      if c in s.calls && s.calls[c].Checked? { CommitKeepsLinked(s.book, s.calls[c].call, s.calls[c].row); }
    case Insert(call) => if call.CreateCall? { InsertKeepsLinked(s.book, call); }
  }

  /** However reads and writes interleave: reconciled iff exactly one link, and no target linked twice. */
  lemma {:induction false} RunKeepsLinked(s: State, steps: seq<Step>)
    requires Sound(s)
    ensures Sound(Run(s, steps))
    decreases |steps|
  {
    if steps != [] {
      StepKeepsSound(s, steps[0]);
      RunKeepsLinked(After(s, steps[0]), steps[1..]);
    }
  }

  // When a write keeps the rest.

  /** Another transaction is linked to a target that the row links. */
  ghost predicate TakenOver(b: Book, t: Id, row: Transaction) {
    exists u, x :: u != t && b.LinkedTo(u, x) && Names(row, x)
  }

  predicate Names(row: Transaction, x: Target) {
    match x
    case InvoiceTarget(i) => row.invoiceId == Some(i)
    case ObligationTarget(o) => row.taxObligationId == Some(o)
  }

  /**
   * The write leaves links and kinds, and links and marks, in agreement: an update does not turn the
   * kind of a transaction reconciled since, a reconciliation finds the kind still fitting, an undo
   * releases no target that another transaction holds by now.
   */
  ghost predicate KeepsConsistent(b: Book, call: Call, row: Transaction) {
    match call
    case CreateCall(_, _, _, _, _) => true
    case UpdateCall(t, change) =>
      t in b.transactions && b.transactions[t].reconciled ==>
        Patch(b.transactions[t].kind, change.kind) == b.transactions[t].kind
    case ReconcileCall(t, target, _) => Attachable(b, t, target) ==> KindFits(b.transactions[t].kind, target)
    case UndoCall(t) => t in b.transactions && !Dangling(b, row) ==> !TakenOver(b, t, row)
  }

  /** The write orphans no invoice: transaction t does not lose a link that it found or that it does not release. */
  predicate KeepsNoOrphans(b: Book, call: Call, row: Transaction) {
    match call
    case CreateCall(_, _, _, _, _) => true
    case UpdateCall(_, _) => true
    case ReconcileCall(t, target, _) => Attachable(b, t, target) ==> !HoldsOtherInvoice(b, t, target)
    case UndoCall(t) =>
      t in b.transactions && !Dangling(b, row) && b.transactions[t].invoiceId.Some? ==>
        row.invoiceId == b.transactions[t].invoiceId
  }

  lemma UpdateConsistentIff(b: Book, t: Id, change: Change, row: Transaction)
    requires Consistent(b)
    ensures Consistent(Committed(b, UpdateCall(t, change), row)) <==> KeepsConsistent(b, UpdateCall(t, change), row)
  {
    var b' := Committed(b, UpdateCall(t, change), row);
    if t in b.transactions {
      assert RowConsistent(b, t);
      forall u, x ensures b'.LinkedTo(u, x) <==> b.LinkedTo(u, x) {
      }
      forall u | u in b.transactions && u != t ensures RowConsistent(b', u) { assert RowConsistent(b, u); }
      assert RowConsistent(b', t) <==> KeepsConsistent(b, UpdateCall(t, change), row);
    }
  }

  lemma ReconcileConsistentIff(b: Book, t: Id, target: Target, force: bool, row: Transaction)
    requires Consistent(b)
    ensures var call := ReconcileCall(t, target, force);
      Consistent(Committed(b, call, row)) <==> KeepsConsistent(b, call, row)
  {
    if Attachable(b, t, target) {
      var b' := SetLink(MarkTarget(b, target), t, target);
      LinkedIfConsistent(b);
      AttachKeepsLinked(b, t, target);
      forall u | u in b.transactions && u != t ensures RowConsistent(b', u) { assert RowConsistent(b, u); }
      assert RowConsistent(b', t) <==> KindFits(b.transactions[t].kind, target);
    }
  }

  lemma LinkedIfConsistent(b: Book)
    requires Consistent(b)
    ensures Linked(b)
  {
    forall t | t in b.transactions ensures OneLink(b.transactions[t]) { assert RowConsistent(b, t); }
  }

  lemma UndoConsistentIff(b: Book, t: Id, row: Transaction)
    requires Consistent(b)
    ensures Consistent(Committed(b, UndoCall(t), row)) <==> KeepsConsistent(b, UndoCall(t), row)
  {
    if t in b.transactions && !Dangling(b, row) {
      var b' := Released(b, t, row);
      FewerLinks(b, b');
      forall u | u in b.transactions && u != t
        ensures RowConsistent(b', u) <==> !exists x :: b.LinkedTo(u, x) && Names(row, x)
      {
        assert RowConsistent(b, u);
        var other := b.transactions[u];
        if other.invoiceId.Some? { assert b.LinkedTo(u, InvoiceTarget(other.invoiceId.value)); }
        if other.taxObligationId.Some? { assert b.LinkedTo(u, ObligationTarget(other.taxObligationId.value)); }
      }
      assert RowConsistent(b', t);
    }
  }

  /** From a consistent book, exactly which writes leave it consistent, whatever was read before. */
  lemma CommitKeepsConsistentIff(b: Book, call: Call, row: Transaction)
    requires Consistent(b)
    ensures Consistent(Committed(b, call, row)) <==> KeepsConsistent(b, call, row)
  {
    match call
    case CreateCall(_, _, _, _, _) =>
    case UpdateCall(t, change) => UpdateConsistentIff(b, t, change, row);
    case ReconcileCall(t, target, force) => ReconcileConsistentIff(b, t, target, force, row);
    case UndoCall(t) => UndoConsistentIff(b, t, row);
  }

  lemma UndoOrphansIff(b: Book, t: Id, row: Transaction)
    requires Consistent(b) && NoOrphans(b) && t in b.transactions && !Dangling(b, row)
    ensures NoOrphans(Released(b, t, row)) <==> KeepsNoOrphans(b, UndoCall(t), row)
  {
    var b' := Released(b, t, row);
    assert RowConsistent(b, t);
    forall u, x ensures b'.LinkedTo(u, x) <==> u != t && b.LinkedTo(u, x) {
    }
    if KeepsNoOrphans(b, UndoCall(t), row) {
      forall i | i in b'.invoices && b'.invoices[i].reconciled ensures exists u :: b'.LinkedTo(u, InvoiceTarget(i)) {
        var u :| b.LinkedTo(u, InvoiceTarget(i));
        assert b'.LinkedTo(u, InvoiceTarget(i));
      }
    } else {
      var i := b.transactions[t].invoiceId.value;
      assert b.LinkedTo(t, InvoiceTarget(i));
      assert i in b'.invoices && b'.invoices[i].reconciled;
      assert forall u :: !b'.LinkedTo(u, InvoiceTarget(i));
    }
  }

  /** From a consistent book without orphans, exactly which writes orphan no invoice. */
  lemma CommitKeepsNoOrphansIff(b: Book, call: Call, row: Transaction)
    requires Consistent(b) && NoOrphans(b)
    ensures NoOrphans(Committed(b, call, row)) <==> KeepsNoOrphans(b, call, row)
  {
    match call
    case CreateCall(_, _, _, _, _) =>
    case UpdateCall(t, change) =>
      var b' := Committed(b, call, row);
      forall u, x ensures b'.LinkedTo(u, x) <==> b.LinkedTo(u, x) {
      }
      assert b'.invoices == b.invoices;
    case ReconcileCall(t, target, _) => if Attachable(b, t, target) { AttachOrphansIff(b, t, target); }
    case UndoCall(t) => if t in b.transactions && !Dangling(b, row) { UndoOrphansIff(b, t, row); }
  }

  // Runs in which every write finds the row as it was read.

  predicate Undisturbed(s: State, steps: seq<Step>)
    decreases |steps|
  {
    steps == []
    || ((steps[0].Commit? && steps[0].c in s.calls && s.calls[steps[0].c].Checked? ==>
           var stage := s.calls[steps[0].c];
           stage.call.t in s.book.transactions && s.book.transactions[stage.call.t] == stage.row)
        && Undisturbed(After(s, steps[0]), steps[1..]))
  }

  /** The calls of a run in the order of their writes. */
  function Serial(s: State, steps: seq<Step>): seq<Call>
    decreases |steps|
  {
    if steps == [] then []
    else SerialStep(s, steps[0]) + Serial(After(s, steps[0]), steps[1..])
  }

  function SerialStep(s: State, step: Step): seq<Call> {
    match step
    case Read(_, _) => []
    case Commit(c) => if c in s.calls && s.calls[c].Checked? then [s.calls[c].call] else []
    case Insert(call) => if call.CreateCall? then [call] else []
  }

  lemma FreshCommit(b: Book, call: Call)
    requires call.t in b.transactions && Accepts(call, b.transactions[call.t])
    ensures Committed(b, call, b.transactions[call.t]) == ReconciliationBook.After(b, call)
  {
  }

  lemma {:induction false} RunAppend(b: Book, first: seq<Call>, rest: seq<Call>)
    requires |first| <= 1
    ensures ReconciliationBook.Run(b, first + rest)
         == ReconciliationBook.Run(if first == [] then b else ReconciliationBook.After(b, first[0]), rest)
  {
    if first == [] { assert first + rest == rest; } else { assert (first + rest)[1..] == rest; }
  }

  /**
   * If every write finds its transaction as it was read, the run is the run of the same calls one
   * after the other, in the order of their writes.
   */
  lemma {:induction false} UndisturbedIsSerial(s: State, steps: seq<Step>)
    requires Sound(s) && Undisturbed(s, steps)
    ensures Run(s, steps).book == ReconciliationBook.Run(s.book, Serial(s, steps))
    decreases |steps|
  {
    if steps != [] {
      var step, s' := steps[0], After(s, steps[0]);
      StepKeepsSound(s, step);
      UndisturbedIsSerial(s', steps[1..]);
      RunAppend(s.book, SerialStep(s, step), Serial(s', steps[1..]));
      if step.Commit? && step.c in s.calls && s.calls[step.c].Checked? { FreshCommit(s.book, s.calls[step.c].call); }
    }
  }

  // Overlapping calls that break the rest.

  function Opened(t: Id, row: Transaction, invoices: map<Id, Invoice>): State {
    State(Book(map[t := row], invoices, map[]), map[])
  }

  predicate Plain(row: Transaction) {
    row.kind == CREDIT && !row.reconciled && row.invoiceId == None && row.taxObligationId == None
  }

  lemma RunFour(s: State, a: Step, b: Step, c: Step, d: Step)
    ensures Run(s, [a, b, c, d]) == After(After(After(After(s, a), b), c), d)
  {
    assert [a, b, c, d][1..] == [b, c, d] && [b, c, d][1..] == [c, d] && [c, d][1..] == [d] && [d][1..] == [];
    var s1 := After(s, a);
    var s2 := After(s1, b);
    assert Run(s, [a, b, c, d]) == Run(s1, [b, c, d]) == Run(s2, [c, d]) == Run(After(s2, c), [d]);
  }

  /** Two unforced reconciliations of one transaction that both read it first orphan an invoice. */
  lemma OrphanWithoutForce(t: Id, row: Transaction, i: Id, j: Id, invoice: Invoice)
    requires Plain(row) && i != j && !invoice.deleted && !invoice.reconciled
    ensures var s := Opened(t, row, map[i := invoice, j := invoice]);
      var first, second := ReconcileCall(t, InvoiceTarget(i), false), ReconcileCall(t, InvoiceTarget(j), false);
      && Consistent(s.book) && NoOrphans(s.book)
      && !NoOrphans(Run(s, [Read(0, first), Read(1, second), Commit(0), Commit(1)]).book)
  {
    var s := Opened(t, row, map[i := invoice, j := invoice]);
    var first, second := ReconcileCall(t, InvoiceTarget(i), false), ReconcileCall(t, InvoiceTarget(j), false);
    RunFour(s, Read(0, first), Read(1, second), Commit(0), Commit(1));
    assert RowConsistent(s.book, t);
    var s1 := After(After(After(s, Read(0, first)), Read(1, second)), Commit(0));
    CommitKeepsConsistentIff(s.book, first, row);
    CommitKeepsNoOrphansIff(s.book, first, row);
    assert s1.book == Committed(s.book, first, row) && s1.calls[1] == Checked(second, row);
    assert j in s1.book.invoices && !HeldByAnother(s1.book, t, InvoiceTarget(j));
    assert HoldsOtherInvoice(s1.book, t, InvoiceTarget(j));
    CommitKeepsNoOrphansIff(s1.book, second, row);
  }

  /** An update that read the transaction before it was reconciled puts a DEBIT under an invoice link. */
  lemma DebitUnderInvoice(t: Id, row: Transaction, i: Id, invoice: Invoice)
    requires Plain(row) && !invoice.deleted && !invoice.reconciled
    ensures var s := Opened(t, row, map[i := invoice]);
      var turn, link := UpdateCall(t, Change(Some(DEBIT), None, None, None)), ReconcileCall(t, InvoiceTarget(i), false);
      var b := Run(s, [Read(0, turn), Read(1, link), Commit(1), Commit(0)]).book;
      Consistent(s.book) && b.LinkedTo(t, InvoiceTarget(i)) && b.transactions[t].kind == DEBIT
  {
    var s := Opened(t, row, map[i := invoice]);
    var turn, link := UpdateCall(t, Change(Some(DEBIT), None, None, None)), ReconcileCall(t, InvoiceTarget(i), false);
    RunFour(s, Read(0, turn), Read(1, link), Commit(1), Commit(0));
    assert RowConsistent(s.book, t);
  }
}
