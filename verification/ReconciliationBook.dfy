/**
 * One company's transactions, invoices and tax obligations, and what each
 * reconciliation call does to them
 * (src/modules/banking-enterprise/banking-enterprise.service.ts, with the
 * unique indexes on the two link columns from prisma/schema.prisma).
 */
module ReconciliationBook {
  import opened Entities
  import opened Text
  import opened Wrappers

  datatype InvoiceStatus = NORMAL | CANCELLED | SUBSTITUTED | PENDING | PAID | OVERDUE | PARTIAL

  datatype Transaction = Transaction(
    kind: TransactionType, amount: int, description: string, occurredAt: int,
    reconciled: bool, invoiceId: Option<Id>, taxObligationId: Option<Id>)

  datatype Invoice = Invoice(
    amount: int, description: string, issuedAt: int, status: InvoiceStatus, reconciled: bool, deleted: bool)

  datatype Obligation = Obligation(amount: int, name: string, dueDate: int, status: ObligationStatus)

  datatype Target = InvoiceTarget(id: Id) | ObligationTarget(id: Id)

  datatype Error = NotFound | Conflict | BadRequest | UniqueViolation

  datatype Change = Change(
    kind: Option<TransactionType>, amount: Option<int>, description: Option<string>, occurredAt: Option<int>)

  datatype Book = Book(
    transactions: map<Id, Transaction>, invoices: map<Id, Invoice>, obligations: map<Id, Obligation>)
  {
    predicate LinkedTo(t: Id, target: Target) {
      && t in transactions
      && match target {
           case InvoiceTarget(i) => transactions[t].invoiceId == Some(i)
           case ObligationTarget(o) => transactions[t].taxObligationId == Some(o)
         }
    }

    predicate Exists(target: Target) {
      match target {
        case InvoiceTarget(i) => i in invoices && !invoices[i].deleted
        case ObligationTarget(o) => o in obligations
      }
    }

    /** The target carries the marks a reconciliation leaves on it. */
    predicate Marked(target: Target) {
      match target {
        case InvoiceTarget(i) => i in invoices && invoices[i].reconciled && invoices[i].status == InvoiceStatus.PAID
        case ObligationTarget(o) => o in obligations && obligations[o].status == ObligationStatus.PAID
      }
    }
  }

  predicate KindFits(kind: TransactionType, target: Target) {
    match target {
      case InvoiceTarget(_) => kind == CREDIT
      case ObligationTarget(_) => kind == DEBIT
    }
  }

  function Patch<T>(current: T, change: Option<T>): T {
    match change
    case Some(v) => v
    case None => current
  }

  // The calls, as functions of the tables.

  function Create(b: Book, t: Id, kind: TransactionType, amount: int, description: string,
          occurredAt: int): Result<Book, Error> {
    if t in b.transactions then Err(UniqueViolation)
    else
      var row := Transaction(kind, amount, Trim(description), occurredAt, false, None, None);
      Ok(b.(transactions := b.transactions[t := row]))
  }

  function Edited(row: Transaction, change: Change): Transaction {
    row.(kind := Patch(row.kind, change.kind), amount := Patch(row.amount, change.amount),
         description := if change.description.Some? then Trim(change.description.value) else row.description,
         occurredAt := Patch(row.occurredAt, change.occurredAt))
  }

  function Update(b: Book, t: Id, change: Change): Result<Book, Error> {
    if t !in b.transactions then Err(NotFound)
    else if b.transactions[t].reconciled then Err(Conflict)
    else Ok(b.(transactions := b.transactions[t := Edited(b.transactions[t], change)]))
  }

  function MarkTarget(b: Book, target: Target): Book
    requires b.Exists(target)
  {
    match target {
      case InvoiceTarget(i) =>
        b.(invoices := b.invoices[i := b.invoices[i].(reconciled := true, status := InvoiceStatus.PAID)])
      case ObligationTarget(o) =>
        b.(obligations := b.obligations[o := b.obligations[o].(status := ObligationStatus.PAID)])
    }
  }

  function SetLink(b: Book, t: Id, target: Target): Book
    requires t in b.transactions
  {
    b.(transactions := b.transactions[t := b.transactions[t].(
      reconciled := true,
      invoiceId := if target.InvoiceTarget? then Some(target.id) else None,
      taxObligationId := if target.ObligationTarget? then Some(target.id) else None)])
  }

  predicate HeldByAnother(b: Book, t: Id, target: Target) {
    exists u :: u in b.transactions && u != t && b.LinkedTo(u, target)
  }

  /** Both rows are there and the unique index lets the link in. */
  predicate Attachable(b: Book, t: Id, target: Target) {
    t in b.transactions && b.Exists(target) && !HeldByAnother(b, t, target)
  }

  function Reconcile(b: Book, t: Id, target: Target, force: bool): Result<Book, Error> {
    if t !in b.transactions then Err(NotFound)
    else if b.transactions[t].reconciled && !force then Err(Conflict)
    else if !KindFits(b.transactions[t].kind, target) then Err(BadRequest)
    else if !b.Exists(target) then Err(NotFound)
    else if HeldByAnother(b, t, target) then Err(if force then UniqueViolation else Conflict)
    else Ok(SetLink(MarkTarget(b, target), t, target))
  }

  function ReleaseInvoice(b: Book, link: Option<Id>): Book {
    match link
    case Some(i) =>
      if i !in b.invoices then b
      else b.(invoices := b.invoices[i := b.invoices[i].(reconciled := false, status := InvoiceStatus.NORMAL)])
    case None => b
  }

  function ReleaseObligation(b: Book, link: Option<Id>): Book {
    match link
    case Some(o) =>
      if o !in b.obligations then b
      else b.(obligations := b.obligations[o := b.obligations[o].(status := ObligationStatus.PENDING)])
    case None => b
  }

  /** A link of the row names a row that is not there, so its update fails. */
  predicate Dangling(b: Book, row: Transaction) {
    || (row.invoiceId.Some? && row.invoiceId.value !in b.invoices)
    || (row.taxObligationId.Some? && row.taxObligationId.value !in b.obligations)
  }

  /** The targets that the row links are released, and transaction t keeps no link. */
  function Released(b: Book, t: Id, row: Transaction): Book
    requires t in b.transactions
  {
    var released := ReleaseObligation(ReleaseInvoice(b, row.invoiceId), row.taxObligationId);
    var row' := b.transactions[t].(reconciled := false, invoiceId := None, taxObligationId := None);
    released.(transactions := b.transactions[t := row'])
  }

  function Undo(b: Book, t: Id): Result<Book, Error> {
    if t !in b.transactions then Err(NotFound)
    else if !b.transactions[t].reconciled then Err(Conflict)
    else if Dangling(b, b.transactions[t]) then Err(NotFound)
    else Ok(Released(b, t, b.transactions[t]))
  }

  /** An edit gives the fields it names and keeps the others. */
  lemma EditMeans(row: Transaction, c: Change)
    ensures var row' := Edited(row, c);
      && row'.kind == (if c.kind.Some? then c.kind.value else row.kind)
      && row'.amount == (if c.amount.Some? then c.amount.value else row.amount)
      && row'.occurredAt == (if c.occurredAt.Some? then c.occurredAt.value else row.occurredAt)
      && (c.description.None? ==> row'.description == row.description)
      && (c.description.Some? ==> row'.description == Trim(c.description.value))
      && row'.reconciled == row.reconciled && row'.invoiceId == row.invoiceId
      && row'.taxObligationId == row.taxObligationId
  {
  }

  /** Row u links the target. */
  predicate Links(row: Transaction, target: Target) {
    if target.InvoiceTarget? then row.invoiceId == Some(target.id) else row.taxObligationId == Some(target.id)
  }

  /**
   * A reconciliation is accepted exactly for a transaction that is free, or forced, and of the kind the
   * target wants, and a target that is there, not deleted and linked by no other transaction.
   */
  lemma ReconcileIff(b: Book, t: Id, target: Target, force: bool)
    ensures Reconcile(b, t, target, force).Ok?
       <==> t in b.transactions && (force || !b.transactions[t].reconciled)
            && b.transactions[t].kind == (if target.InvoiceTarget? then CREDIT else DEBIT)
            && (target.InvoiceTarget? ==> target.id in b.invoices && !b.invoices[target.id].deleted)
            && (target.ObligationTarget? ==> target.id in b.obligations)
            && forall u :: u in b.transactions && u != t ==> !Links(b.transactions[u], target)
  {
    forall u | u in b.transactions ensures b.LinkedTo(u, target) <==> Links(b.transactions[u], target) {
    }
  }

  // The reconciliation graph.

  ghost predicate RowConsistent(b: Book, t: Id)
    requires t in b.transactions
  {
    var row := b.transactions[t];
    && (row.reconciled <==> row.invoiceId.Some? || row.taxObligationId.Some?)
    && !(row.invoiceId.Some? && row.taxObligationId.Some?)
    && (row.invoiceId.Some? ==> row.kind == CREDIT && b.Marked(InvoiceTarget(row.invoiceId.value)))
    && (row.taxObligationId.Some? ==> row.kind == DEBIT && b.Marked(ObligationTarget(row.taxObligationId.value)))
  }

  /** No two transactions hold the same target: the unique indexes. */
  ghost predicate LinksUnique(b: Book) {
    forall t, u, target :: b.LinkedTo(t, target) && b.LinkedTo(u, target) ==> t == u
  }

  /** What every call keeps, with or without force. */
  ghost predicate Consistent(b: Book) {
    && (forall t :: t in b.transactions ==> RowConsistent(b, t))
    && LinksUnique(b)
  }

  /** Every reconciled invoice is held by some transaction. */
  ghost predicate NoOrphans(b: Book) {
    forall i :: i in b.invoices && b.invoices[i].reconciled ==> exists t :: b.LinkedTo(t, InvoiceTarget(i))
  }

  datatype Call =
    | CreateCall(t: Id, kind: TransactionType, amount: int, description: string, occurredAt: int)
    | UpdateCall(t: Id, change: Change)
    | ReconcileCall(t: Id, target: Target, force: bool)
    | UndoCall(t: Id)

  function Apply(b: Book, call: Call): Result<Book, Error> {
    match call
    case CreateCall(t, kind, amount, description, occurredAt) => Create(b, t, kind, amount, description, occurredAt)
    case UpdateCall(t, change) => Update(b, t, change)
    case ReconcileCall(t, target, force) => Reconcile(b, t, target, force)
    case UndoCall(t) => Undo(b, t)
  }

  /** A rejected call changes nothing. */
  function After(b: Book, call: Call): Book {
    match Apply(b, call)
    case Ok(b') => b'
    case Err(_) => b
  }

  function Run(b: Book, calls: seq<Call>): Book
    decreases |calls|
  {
    if calls == [] then b else Run(After(b, calls[0]), calls[1..])
  }

  lemma ReconcileKeepsConsistent(b: Book, t: Id, target: Target, force: bool)
    requires Consistent(b) && Reconcile(b, t, target, force).Ok?
    ensures Consistent(Reconcile(b, t, target, force).value)
  {
    var b' := Reconcile(b, t, target, force).value;
    assert b'.LinkedTo(t, target);
    forall u | u in b'.transactions ensures RowConsistent(b', u) {
      if u != t {
        assert RowConsistent(b, u);
      }
    }
    forall u, v, x | b'.LinkedTo(u, x) && b'.LinkedTo(v, x) ensures u == v {
      if u != t && v != t {
        assert b.LinkedTo(u, x) && b.LinkedTo(v, x);
      } else if u != v {
        var other := if u == t then v else u;
        assert x == target;
        assert b.LinkedTo(other, target);
      }
    }
  }

  /** A forced reconciliation onto the target that the transaction holds changes nothing. */
  lemma ForceAgain(b: Book, t: Id, target: Target)
    requires Consistent(b) && b.LinkedTo(t, target)
    requires target.InvoiceTarget? ==> !b.invoices[target.id].deleted
    ensures Reconcile(b, t, target, true) == Ok(b)
  {
    assert RowConsistent(b, t);
    assert !HeldByAnother(b, t, target);
    var b' := SetLink(MarkTarget(b, target), t, target);
    assert b'.transactions == b.transactions && b'.invoices == b.invoices && b'.obligations == b.obligations;
  }

  lemma UndoKeepsConsistent(b: Book, t: Id)
    requires Consistent(b) && Undo(b, t).Ok?
    ensures Consistent(Undo(b, t).value)
  {
    var b' := Undo(b, t).value;
    assert RowConsistent(b, t);
    forall u | u in b'.transactions ensures RowConsistent(b', u) {
      if u != t {
        assert RowConsistent(b, u);
        var row := b.transactions[u];
        if row.invoiceId.Some? {
          assert b.LinkedTo(u, InvoiceTarget(row.invoiceId.value));
          assert !b.LinkedTo(t, InvoiceTarget(row.invoiceId.value));
        }
        if row.taxObligationId.Some? {
          assert b.LinkedTo(u, ObligationTarget(row.taxObligationId.value));
          assert !b.LinkedTo(t, ObligationTarget(row.taxObligationId.value));
        }
      }
    }
    forall u, v, x | b'.LinkedTo(u, x) && b'.LinkedTo(v, x) ensures u == v {
      assert b.LinkedTo(u, x) && b.LinkedTo(v, x);
    }
  }

  lemma EditKeepsConsistent(b: Book, call: Call)
    requires Consistent(b) && (call.CreateCall? || call.UpdateCall?)
    ensures Consistent(After(b, call))
    ensures NoOrphans(b) ==> NoOrphans(After(b, call))
  {
    var b' := After(b, call);
    forall u | u in b'.transactions ensures RowConsistent(b', u) {
      if u in b.transactions { assert RowConsistent(b, u); }
    }
    forall u, x ensures b'.LinkedTo(u, x) <==> b.LinkedTo(u, x) {
      if u in b.transactions { assert RowConsistent(b, u); }
    }
    if NoOrphans(b) {
      forall i | i in b'.invoices && b'.invoices[i].reconciled ensures exists t :: b'.LinkedTo(t, InvoiceTarget(i)) {
        var t :| b.LinkedTo(t, InvoiceTarget(i));
        assert b'.LinkedTo(t, InvoiceTarget(i));
      }
    }
  }

  lemma CallKeepsConsistent(b: Book, call: Call)
    requires Consistent(b)
    ensures Consistent(After(b, call))
  {
    match call
    case CreateCall(_, _, _, _, _) => EditKeepsConsistent(b, call);
    case UpdateCall(_, _) => EditKeepsConsistent(b, call);
    case ReconcileCall(t, target, force) =>
      if Apply(b, call).Ok? { ReconcileKeepsConsistent(b, t, target, force); }
    case UndoCall(t) =>
      if Apply(b, call).Ok? { UndoKeepsConsistent(b, t); }
  }

  /** Over every run of calls, with or without force. */
  lemma {:induction false} RunKeepsConsistent(b: Book, calls: seq<Call>)
    requires Consistent(b)
    ensures Consistent(Run(b, calls))
    decreases |calls|
  {
    if calls != [] {
      CallKeepsConsistent(b, calls[0]);
      RunKeepsConsistent(After(b, calls[0]), calls[1..]);
    }
  }

  /** Transaction t holds an invoice other than the target: what a forced replacement abandons. */
  predicate HoldsOtherInvoice(b: Book, t: Id, target: Target) {
    && t in b.transactions
    && b.transactions[t].invoiceId.Some?
    && InvoiceTarget(b.transactions[t].invoiceId.value) != target
  }

  lemma AttachOrphansIff(b: Book, t: Id, target: Target)
    requires Consistent(b) && NoOrphans(b) && Attachable(b, t, target)
    ensures NoOrphans(SetLink(MarkTarget(b, target), t, target)) <==> !HoldsOtherInvoice(b, t, target)
  {
    var b' := SetLink(MarkTarget(b, target), t, target);
    assert RowConsistent(b, t);
    forall u, x ensures b'.LinkedTo(u, x) <==> if u == t then x == target else b.LinkedTo(u, x) {
    }
    if HoldsOtherInvoice(b, t, target) {
      var i := b.transactions[t].invoiceId.value;
      assert b.LinkedTo(t, InvoiceTarget(i));
      assert i in b'.invoices && b'.invoices[i].reconciled;
      assert forall u :: !b'.LinkedTo(u, InvoiceTarget(i));
    } else {
      forall i | i in b'.invoices && b'.invoices[i].reconciled ensures exists u :: b'.LinkedTo(u, InvoiceTarget(i)) {
        if InvoiceTarget(i) == target {
          assert b'.LinkedTo(t, InvoiceTarget(i));
        } else {
          var u :| b.LinkedTo(u, InvoiceTarget(i));
          assert b'.LinkedTo(u, InvoiceTarget(i));
        }
      }
    }
  }

  /** A reconciliation leaves a reconciled invoice without a transaction in exactly one case. */
  lemma ReconcileOrphansIff(b: Book, t: Id, target: Target, force: bool)
    requires Consistent(b) && NoOrphans(b) && Reconcile(b, t, target, force).Ok?
    ensures NoOrphans(Reconcile(b, t, target, force).value) <==> !HoldsOtherInvoice(b, t, target)
  {
    AttachOrphansIff(b, t, target);
  }

  lemma UndoKeepsNoOrphans(b: Book, t: Id)
    requires Consistent(b) && NoOrphans(b) && Undo(b, t).Ok?
    ensures NoOrphans(Undo(b, t).value)
  {
    var b' := Undo(b, t).value;
    assert RowConsistent(b, t);
    forall i | i in b'.invoices && b'.invoices[i].reconciled ensures exists u :: b'.LinkedTo(u, InvoiceTarget(i)) {
      var u :| b.LinkedTo(u, InvoiceTarget(i));
      assert u != t;
      assert b'.LinkedTo(u, InvoiceTarget(i));
    }
  }

  ghost predicate Unforced(calls: seq<Call>) {
    forall k :: 0 <= k < |calls| && calls[k].ReconcileCall? ==> !calls[k].force
  }

  /** Invoice i is reconciled exactly when one transaction, and only one, holds it. */
  ghost predicate HeldOnceIffReconciled(b: Book, i: Id) {
    i in b.invoices ==>
      (b.invoices[i].reconciled <==> exists t :: b.LinkedTo(t, InvoiceTarget(i)))
      && (forall t, u :: b.LinkedTo(t, InvoiceTarget(i)) && b.LinkedTo(u, InvoiceTarget(i)) ==> t == u)
  }

  /** Over every run without force, an invoice is reconciled iff exactly one transaction holds it. */
  lemma {:induction false} UnforcedRunKeepsGraph(b: Book, calls: seq<Call>)
    requires Consistent(b) && NoOrphans(b) && Unforced(calls)
    ensures Consistent(Run(b, calls)) && NoOrphans(Run(b, calls))
    ensures forall i :: HeldOnceIffReconciled(Run(b, calls), i)
    decreases |calls|
  {
    if calls == [] {
      forall i, t | i in b.invoices && b.LinkedTo(t, InvoiceTarget(i)) ensures b.invoices[i].reconciled {
        assert RowConsistent(b, t);
      }
    } else {
      var call := calls[0];
      CallKeepsConsistent(b, call);
      if Apply(b, call).Ok? {
        match call
        case CreateCall(_, _, _, _, _) => EditKeepsConsistent(b, call);
        case UpdateCall(_, _) => EditKeepsConsistent(b, call);
        case ReconcileCall(t, target, force) =>
          assert RowConsistent(b, t);
          ReconcileOrphansIff(b, t, target, force);
        case UndoCall(t) => UndoKeepsNoOrphans(b, t);
      }
      UnforcedRunKeepsGraph(After(b, call), calls[1..]);
    }
  }

  /** The status a target has after an undo, whatever it was before. */
  function Reset(b: Book, target: Target): Book {
    match target {
      case InvoiceTarget(i) => ReleaseInvoice(b, Some(i))
      case ObligationTarget(o) => ReleaseObligation(b, Some(o))
    }
  }

  /** Undoing a reconciliation gives back every row except the target's status. */
  lemma UndoReversesReconcile(b: Book, t: Id, target: Target, force: bool)
    requires Consistent(b) && NoOrphans(b) && Reconcile(b, t, target, force).Ok?
    requires !b.transactions[t].reconciled
    ensures Undo(Reconcile(b, t, target, force).value, t) == Ok(Reset(b, target))
    ensures target.InvoiceTarget? ==> !b.invoices[target.id].reconciled
  {
    assert RowConsistent(b, t);
    var undone := Undo(Reconcile(b, t, target, force).value, t).value;
    assert undone.transactions == b.transactions;
    assert undone.invoices == Reset(b, target).invoices;
    assert undone.obligations == Reset(b, target).obligations;
  }

  /** A call on the transaction itself: the only ones that can change what it holds. */
  predicate ActsOn(call: Call, t: Id) {
    (call.ReconcileCall? || call.UndoCall?) && call.t == t
  }

  lemma CallKeepsHolder(b: Book, call: Call, u: Id, target: Target)
    requires Consistent(b) && b.LinkedTo(u, target) && !ActsOn(call, u)
    ensures After(b, call).LinkedTo(u, target)
    ensures call.ReconcileCall? && call.target == target ==> Apply(b, call).Err? && After(b, call) == b
  {
  }

  /**
   * Force never takes a target from the transaction that holds it: over every run of calls
   * on other transactions the holder keeps its target and the target its marks, and each
   * attempt on it fails and changes nothing.
   */
  lemma {:induction false} HolderKeepsTarget(b: Book, calls: seq<Call>, u: Id, target: Target)
    requires Consistent(b) && b.LinkedTo(u, target) && forall call :: call in calls ==> !ActsOn(call, u)
    ensures Run(b, calls).LinkedTo(u, target) && Run(b, calls).Marked(target)
    ensures forall t, force :: t != u ==>
      var attempt := ReconcileCall(t, target, force);
      Apply(Run(b, calls), attempt).Err? && After(Run(b, calls), attempt) == Run(b, calls)
    decreases |calls|
  {
    if calls == [] {
      assert RowConsistent(b, u);
      forall t: Id, force: bool | t != u ensures Apply(b, ReconcileCall(t, target, force)).Err? {
        CallKeepsHolder(b, ReconcileCall(t, target, force), u, target);
      }
    } else {
      CallKeepsHolder(b, calls[0], u, target);
      CallKeepsConsistent(b, calls[0]);
      HolderKeepsTarget(After(b, calls[0]), calls[1..], u, target);
    }
  }

  /** An orphan is reached: a transaction that holds one invoice is forced onto another. */
  lemma {:induction false} OrphanIsReached(t: Id, held: Id, other: Id, credit: Transaction, invoice: Invoice)
    requires held != other && !invoice.deleted && !invoice.reconciled
    requires credit.kind == CREDIT && !credit.reconciled && credit.invoiceId == None && credit.taxObligationId == None
    ensures var b0 := Book(map[t := credit], map[held := invoice, other := invoice], map[]);
      var b := After(b0, ReconcileCall(t, InvoiceTarget(held), false));
      && Consistent(b0) && NoOrphans(b0) && NoOrphans(b)
      && !NoOrphans(After(b, ReconcileCall(t, InvoiceTarget(other), true)))
  {
    var b0 := Book(map[t := credit], map[held := invoice, other := invoice], map[]);
    assert RowConsistent(b0, t);
    ReconcileKeepsConsistent(b0, t, InvoiceTarget(held), false);
    ReconcileOrphansIff(b0, t, InvoiceTarget(held), false);
    var b := After(b0, ReconcileCall(t, InvoiceTarget(held), false));
    ReconcileOrphansIff(b, t, InvoiceTarget(other), true);
  }
}
