/**
 * The rewriting of query arguments by the active tenant and by soft deletion
 * (src/database/prisma.service.ts), and what it means for the rows of a table.
 */
module TenantScope {
  import opened Entities
  import opened Wrappers

  datatype Row = Row(id: nat, companyId: Id, deletedAt: Option<int>, fields: map<string, string>)

  datatype Cond<T> = Is(v: T) | OneOf(vs: seq<T>) | Differs(v: T)

  /** A filter: conditions on columns, and lists of filters of which all, any (if given) or none must hold. */
  datatype Where = Where(
    companyId: Option<Cond<Id>>, deletedAt: Option<Cond<Option<int>>>, fields: map<string, Cond<string>>,
    all: seq<Where>, anyGiven: bool, any: seq<Where>, none: seq<Where>)

  datatype Record = Record(companyId: Option<Id>, deletedAt: Option<Option<int>>, fields: map<string, string>)

  datatype Data = Absent | One(record: Record) | Many(records: seq<Record>)

  /** The operations of a model; the extension passes the last two on as they come. */
  datatype Operation =
    | Create | CreateMany
    | FindMany | FindFirst | FindFirstOrThrow | FindUnique | FindUniqueOrThrow | Count | Aggregate | GroupBy
    | Update | UpdateMany | Delete | DeleteMany
    | Upsert(create: Record, update: Record) | CreateManyAndReturn

  datatype Statement = Statement(op: Operation, where: Option<Where>, data: Data)

  /** What the extension knows about the model of a statement. */
  datatype Model = Model(companyScoped: bool, softDelete: bool, delegateFound: bool)

  const NO_FILTER := Where(None, None, map[], [], false, [], [])
  const NO_VALUES := Record(None, None, map[])

  // What a filter selects.

  predicate Meets<T(==)>(v: T, c: Cond<T>) {
    match c
    case Is(w) => v == w
    case OneOf(ws) => v in ws
    case Differs(w) => v != w
  }

  predicate MeetsField(r: Row, field: string, c: Cond<string>) {
    field in r.fields && Meets(r.fields[field], c)
  }

  predicate Selects(w: Where, r: Row)
    decreases w
  {
    && (w.companyId.Some? ==> Meets(r.companyId, w.companyId.value))
    && (w.deletedAt.Some? ==> Meets(r.deletedAt, w.deletedAt.value))
    && Rest(w, r)
  }

  /** The part of a filter that the extension never touches. */
  predicate Rest(w: Where, r: Row)
    decreases w, 0
  {
    && (forall field :: field in w.fields ==> MeetsField(r, field, w.fields[field]))
    && (forall i :: 0 <= i < |w.all| ==> Selects(w.all[i], r))
    && (w.anyGiven ==> exists i :: 0 <= i < |w.any| && Selects(w.any[i], r))
    && (forall i :: 0 <= i < |w.none| ==> !Selects(w.none[i], r))
  }

  /** An absent filter selects every row. */
  predicate Selected(w: Option<Where>, r: Row) {
    w.Some? ==> Selects(w.value, r)
  }

  lemma FieldMeans(column: string, c: Cond<string>, r: Row)
    ensures Selects(NO_FILTER.(fields := map[column := c]), r) <==> column in r.fields && Meets(r.fields[column], c)
  {
    var w := NO_FILTER.(fields := map[column := c]);
    assert column in w.fields && w.fields[column] == c;
  }

  /** What the parts of a filter select. */
  lemma FilterMeans(a: Where, b: Where, column: string, v: string, vs: seq<string>, r: Row)
    ensures Selects(NO_FILTER.(all := [a, b]), r) <==> Selects(a, r) && Selects(b, r)
    ensures Selects(NO_FILTER.(anyGiven := true, any := [a, b]), r) <==> Selects(a, r) || Selects(b, r)
    ensures Selects(NO_FILTER.(none := [a, b]), r) <==> !Selects(a, r) && !Selects(b, r)
    ensures !Selects(NO_FILTER.(anyGiven := true), r) && Selects(NO_FILTER, r)
    ensures Selects(NO_FILTER.(fields := map[column := Is(v)]), r) <==> column in r.fields && r.fields[column] == v
    ensures Selects(NO_FILTER.(fields := map[column := OneOf(vs)]), r) <==> column in r.fields && r.fields[column] in vs
    ensures Selects(NO_FILTER.(fields := map[column := Differs(v)]), r) <==> column in r.fields && r.fields[column] != v
    ensures Selects(NO_FILTER.(deletedAt := Some(Is(None))), r) <==> r.deletedAt == None
  {
    var two := [a, b];
    var all, any, none := NO_FILTER.(all := two), NO_FILTER.(anyGiven := true, any := two), NO_FILTER.(none := two);
    assert two[0] == a && two[1] == b;
    assert Rest(all, r) <==> Selects(all.all[0], r) && Selects(all.all[1], r);
    assert Selects(any.any[0], r) || Selects(any.any[1], r) <==> Rest(any, r);
    assert Rest(none, r) <==> !Selects(none.none[0], r) && !Selects(none.none[1], r);
    FieldMeans(column, Is(v), r);
    FieldMeans(column, OneOf(vs), r);
    FieldMeans(column, Differs(v), r);
  }

  // The rewriting.

  predicate IsRead(op: Operation) {
    op in {FindMany, FindFirst, FindFirstOrThrow, FindUnique, FindUniqueOrThrow, Count, Aggregate, GroupBy}
  }

  predicate IsCreate(op: Operation) {
    op == Create || op == CreateMany
  }

  predicate IsDelete(op: Operation) {
    op == Delete || op == DeleteMany
  }

  predicate IsUpdate(op: Operation) {
    op == Update || op == UpdateMany
  }

  predicate TenantApplies(m: Model, tenant: Option<Id>) {
    tenant.Some? && tenant.value != "" && m.companyScoped
  }

  function ScopedWhere(s: Statement, m: Model, tenant: Option<Id>): Option<Where> {
    if TenantApplies(m, tenant) && (IsRead(s.op) || IsUpdate(s.op) || IsDelete(s.op))
    then Some(s.where.UnwrapOr(NO_FILTER).(companyId := Some(Is(tenant.value))))
    else s.where
  }

  function LiveWhere(op: Operation, w: Option<Where>, m: Model): Option<Where> {
    if m.softDelete && IsRead(op) && w.UnwrapOr(NO_FILTER).deletedAt.None?
    then Some(w.UnwrapOr(NO_FILTER).(deletedAt := Some(Is(None))))
    else w
  }

  function Stamp(r: Record, tenant: Id): Record {
    r.(companyId := Some(tenant))
  }

  function Stamped(d: Data, tenant: Id): Data {
    match d
    case Absent => One(Stamp(NO_VALUES, tenant))
    case One(r) => One(Stamp(r, tenant))
    case Many(rs) => Many(seq(|rs|, i requires 0 <= i < |rs| => Stamp(rs[i], tenant)))
  }

  function ScopedData(s: Statement, m: Model, tenant: Option<Id>): Data {
    if TenantApplies(m, tenant) && IsCreate(s.op) then Stamped(s.data, tenant.value) else s.data
  }

  /** The statement sent on; none if a delete is blocked. */
  function Extended(s: Statement, m: Model, tenant: Option<Id>, now: int): Option<Statement> {
    var where, data := LiveWhere(s.op, ScopedWhere(s, m, tenant), m), ScopedData(s, m, tenant);
    if m.softDelete && IsDelete(s.op) then
      if m.delegateFound
      then
        var op := if s.op == Delete then Update else UpdateMany;
        Some(Statement(op, where, One(NO_VALUES.(deletedAt := Some(Some(now))))))
      else None
    else Some(Statement(s.op, where, data))
  }

  predicate NamesCompany(w: Option<Where>) {
    w.Some? && w.value.companyId.Some?
  }

  predicate NamesDeletion(w: Option<Where>) {
    w.Some? && w.value.deletedAt.Some?
  }

  /** Without a tenant, or on a model without a company, and without soft deletion, a statement goes on as it is. */
  lemma UnscopedGoesOn(s: Statement, m: Model, tenant: Option<Id>, now: int)
    requires !m.softDelete && (tenant == None || tenant == Some("") || !m.companyScoped)
    ensures Extended(s, m, tenant, now) == Some(s)
  {
  }

  /** A rewritten read selects the tenant's live rows of the original, over any tree of filters. */
  lemma ReadMeaning(s: Statement, m: Model, tenant: Option<Id>, now: int, r: Row)
    requires IsRead(s.op) && TenantApplies(m, tenant) && !NamesCompany(s.where)
    ensures var e := Extended(s, m, tenant, now);
      && e.Some? && e.value.op == s.op && e.value.data == s.data
      && (Selected(e.value.where, r) <==>
            && Selected(s.where, r) && r.companyId == tenant.value
            && (m.softDelete && !NamesDeletion(s.where) ==> r.deletedAt == None))
  {
    SameRest(s.where.UnwrapOr(NO_FILTER), Extended(s, m, tenant, now).value.where.value, r);
  }

  lemma SameRest(w: Where, w': Where, r: Row)
    requires w' == w.(companyId := w'.companyId, deletedAt := w'.deletedAt)
    ensures Rest(w', r) <==> Rest(w, r)
    ensures w == NO_FILTER ==> Rest(w, r)
  {
  }

  /** No rewritten statement reaches a row of another tenant, whatever its filter says. */
  lemma NeverForeign(s: Statement, m: Model, tenant: Option<Id>, now: int, r: Row)
    requires TenantApplies(m, tenant) && (IsRead(s.op) || IsUpdate(s.op) || IsDelete(s.op))
    requires Extended(s, m, tenant, now).Some? && Selected(Extended(s, m, tenant, now).value.where, r)
    ensures r.companyId == tenant.value
  {
  }

  /** A rewritten read leaves out deleted rows unless the filter names the deletion date. */
  predicate Shown(s: Statement, m: Model, r: Row) {
    m.softDelete && !NamesDeletion(s.where) ==> r.deletedAt == None
  }

  /** The rewritten read agrees on a row with the original one within the tenant. */
  predicate ExactOn(s: Statement, m: Model, tenant: Id, now: int, r: Row)
    requires IsRead(s.op)
  {
    Selected(Extended(s, m, Some(tenant), now).value.where, r)
    <==> Selected(s.where, r) && r.companyId == tenant && Shown(s, m, r)
  }

  /** A row of the tenant that only the lost condition on the company keeps out. */
  predicate Widened(s: Statement, m: Model, tenant: Id, r: Row)
    requires NamesCompany(s.where)
  {
    && r.companyId == tenant && Shown(s, m, r) && Selects(s.where.value.(companyId := None), r)
    && !Meets(tenant, s.where.value.companyId.value)
  }

  /**
   * A filter that names the company loses that condition: it is widened exactly on tenant rows the condition
   * excludes.
   */
  lemma NamedCompanyIff(s: Statement, m: Model, tenant: Id, now: int, r: Row)
    requires IsRead(s.op) && TenantApplies(m, Some(tenant)) && NamesCompany(s.where)
    ensures ExactOn(s, m, tenant, now, r) <==> !Widened(s, m, tenant, r)
  {
    var w := s.where.value;
    SameRest(w, Extended(s, m, Some(tenant), now).value.where.value, r);
    SameRest(w, w.(companyId := None), r);
  }

  /**
   * Over all rows: the rewritten read is the original one within the tenant exactly when
   * the named condition admits the tenant, or the rest of the filter selects nothing of it.
   */
  lemma NamedCompanyExactIff(s: Statement, m: Model, tenant: Id, now: int)
    requires IsRead(s.op) && TenantApplies(m, Some(tenant)) && NamesCompany(s.where)
    ensures (forall r :: ExactOn(s, m, tenant, now, r))
       <==> Meets(tenant, s.where.value.companyId.value)
            || forall r: Row :: r.companyId == tenant && Shown(s, m, r) ==>
                 !Selects(s.where.value.(companyId := None), r)
  {
    forall r ensures ExactOn(s, m, tenant, now, r) <==> !Widened(s, m, tenant, r) {
      NamedCompanyIff(s, m, tenant, now, r);
    }
    hide ExactOn, Selects, Meets, Shown;
    if !Meets(tenant, s.where.value.companyId.value) && forall r :: ExactOn(s, m, tenant, now, r) {
      forall r: Row | r.companyId == tenant && Shown(s, m, r)
        ensures !Selects(s.where.value.(companyId := None), r)
      {
        assert ExactOn(s, m, tenant, now, r);
      }
    }
  }

  /** Rewriting twice is rewriting once. */
  lemma RewriteTwice(s: Statement, m: Model, tenant: Option<Id>, now: int)
    requires Extended(s, m, tenant, now).Some?
    ensures Extended(Extended(s, m, tenant, now).value, m, tenant, now) == Extended(s, m, tenant, now)
  {
    var e := Extended(s, m, tenant, now).value;
    if e.data.Many? { assert ScopedData(e, m, tenant) == e.data; }
  }

  // What statements do to a table.

  function NewRow(id: nat, r: Record): Row
    requires r.companyId.Some?
  {
    Row(id, r.companyId.value, r.deletedAt.UnwrapOr(None), r.fields)
  }

  /** Records without a company are refused by the column. */
  predicate Insertable(rs: seq<Record>) {
    forall i :: 0 <= i < |rs| ==> rs[i].companyId.Some?
  }

  function Records(d: Data): seq<Record> {
    match d
    case Absent => []
    case One(r) => [r]
    case Many(rs) => rs
  }

  function Changed(r: Row, d: Data): Row {
    if !d.One? then r
    else
      Row(r.id, d.record.companyId.UnwrapOr(r.companyId), d.record.deletedAt.UnwrapOr(r.deletedAt),
          r.fields + d.record.fields)
  }

  function Inserted(rows: seq<Row>, rs: seq<Record>): seq<Row>
    requires Insertable(rs)
  {
    if rs == [] then rows else Inserted(rows, rs[..|rs| - 1]) + [NewRow(|rows| + |rs| - 1, rs[|rs| - 1])]
  }

  function Kept(r: Row, w: Option<Where>, d: Data): Row {
    if Selected(w, r) then Changed(r, d) else r
  }

  function Updated(rows: seq<Row>, w: Option<Where>, d: Data): seq<Row> {
    if rows == [] then []
    else Updated(rows[..|rows| - 1], w, d) + [Kept(rows[|rows| - 1], w, d)]
  }

  function Removed(rows: seq<Row>, w: Option<Where>): seq<Row> {
    if rows == [] then []
    else if Selected(w, rows[|rows| - 1]) then Removed(rows[..|rows| - 1], w)
    else Removed(rows[..|rows| - 1], w) + [rows[|rows| - 1]]
  }

  /** The records are inserted, or all refused. */
  function InsertedIfWhole(rows: seq<Row>, rs: seq<Record>): seq<Row> {
    if Insertable(rs) then Inserted(rows, rs) else rows
  }

  predicate AnySelected(rows: seq<Row>, w: Option<Where>) {
    exists i :: 0 <= i < |rows| && Selected(w, rows[i])
  }

  function Upserted(rows: seq<Row>, w: Option<Where>, create: Record, update: Record): seq<Row> {
    if AnySelected(rows, w) then Updated(rows, w, One(update)) else InsertedIfWhole(rows, [create])
  }

  function Execute(rows: seq<Row>, s: Statement): seq<Row> {
    if IsCreate(s.op) || s.op.CreateManyAndReturn? then InsertedIfWhole(rows, Records(s.data))
    else if IsUpdate(s.op) then Updated(rows, s.where, s.data)
    else if IsDelete(s.op) then Removed(rows, s.where)
    else if s.op.Upsert? then Upserted(rows, s.where, s.op.create, s.op.update)
    else rows
  }

  function Step(rows: seq<Row>, s: Statement, m: Model, tenant: Option<Id>, now: int): seq<Row> {
    var e := Extended(s, m, tenant, now);
    if e.Some? then Execute(rows, e.value) else rows
  }

  datatype Timed = Timed(statement: Statement, now: int)

  function Run(rows: seq<Row>, ts: seq<Timed>, m: Model, tenant: Option<Id>): seq<Row>
    decreases |ts|
  {
    if ts == [] then rows
    else Step(Run(rows, ts[..|ts| - 1], m, tenant), ts[|ts| - 1].statement, m, tenant, ts[|ts| - 1].now)
  }

  /** The rows of the other companies. */
  function Foreign(rows: seq<Row>, tenant: Id): seq<Row> {
    if rows == [] then []
    else if rows[|rows| - 1].companyId == tenant then Foreign(rows[..|rows| - 1], tenant)
    else Foreign(rows[..|rows| - 1], tenant) + [rows[|rows| - 1]]
  }

  lemma {:induction false} ForeignAppend(rows: seq<Row>, r: Row, tenant: Id)
    ensures Foreign(rows + [r], tenant)
         == if r.companyId == tenant then Foreign(rows, tenant) else Foreign(rows, tenant) + [r]
  {
    assert (rows + [r])[..|rows|] == rows;
  }

  /** A filter that selects only rows of the tenant. */
  ghost predicate OnlyTenant(w: Option<Where>, tenant: Id) {
    forall r :: Selected(w, r) ==> r.companyId == tenant
  }

  /** The new values do not move a row to another company. */
  predicate KeepsCompany(d: Data, tenant: Id) {
    d.One? && d.record.companyId.Some? ==> d.record.companyId.value == tenant
  }

  lemma {:induction false} UpdatedAppend(rows: seq<Row>, r: Row, w: Option<Where>, d: Data)
    ensures Updated(rows + [r], w, d) == Updated(rows, w, d) + [Kept(r, w, d)]
  {
    assert (rows + [r])[..|rows|] == rows;
  }

  /** The rows of other companies before and after one more row is updated. */
  lemma {:induction false} ForeignUpdateStep(rows: seq<Row>, w: Option<Where>, d: Data, tenant: Id)
    requires rows != []
    ensures var init, r := rows[..|rows| - 1], rows[|rows| - 1];
      var before, after := Foreign(init, tenant), Foreign(Updated(init, w, d), tenant);
      && Foreign(rows, tenant) == (if r.companyId == tenant then before else before + [r])
      && Foreign(Updated(rows, w, d), tenant)
        == (if Kept(r, w, d).companyId == tenant then after else after + [Kept(r, w, d)])
  {
    hide Foreign, Updated, Kept;
    var init, r := rows[..|rows| - 1], rows[|rows| - 1];
    assert rows == init + [r];
    UpdatedAppend(init, r, w, d);
    ForeignAppend(init, r, tenant);
    ForeignAppend(Updated(init, w, d), Kept(r, w, d), tenant);
  }

  /** Outside the tenant nothing is selected, so nothing changes. */
  lemma ForeignKept(r: Row, w: Option<Where>, d: Data, tenant: Id)
    requires OnlyTenant(w, tenant)
    ensures r.companyId != tenant ==> Kept(r, w, d) == r
    ensures KeepsCompany(d, tenant) && r.companyId == tenant ==> Kept(r, w, d).companyId == tenant
    ensures !KeepsCompany(d, tenant) && Selected(w, r) ==> r.companyId == tenant && Kept(r, w, d).companyId != tenant
  {
  }

  lemma {:induction false} UpdatedForeign(rows: seq<Row>, w: Option<Where>, d: Data, tenant: Id)
    requires OnlyTenant(w, tenant) && KeepsCompany(d, tenant)
    ensures Foreign(Updated(rows, w, d), tenant) == Foreign(rows, tenant)
  {
    if rows != [] {
      hide Foreign, Updated, Kept, OnlyTenant;
      UpdatedForeign(rows[..|rows| - 1], w, d, tenant);
      ForeignUpdateStep(rows, w, d, tenant);
      ForeignKept(rows[|rows| - 1], w, d, tenant);
    }
  }

  lemma {:induction false} RemovedForeign(rows: seq<Row>, w: Option<Where>, tenant: Id)
    requires OnlyTenant(w, tenant)
    ensures Foreign(Removed(rows, w), tenant) == Foreign(rows, tenant)
  {
    hide Selected;
    if rows != [] {
      var init, r := rows[..|rows| - 1], rows[|rows| - 1];
      RemovedForeign(init, w, tenant);
      if !Selected(w, r) { ForeignAppend(Removed(init, w), r, tenant); }
    }
  }

  lemma {:induction false} InsertedForeign(rows: seq<Row>, rs: seq<Record>, tenant: Id)
    requires Insertable(rs) && forall i :: 0 <= i < |rs| ==> OfTenant(rs[i], tenant)
    ensures Foreign(Inserted(rows, rs), tenant) == Foreign(rows, tenant)
    decreases |rs|
  {
    if rs != [] {
      var init := rs[..|rs| - 1];
      InsertedForeign(rows, init, tenant);
      ForeignAppend(Inserted(rows, init), NewRow(|rows| + |rs| - 1, rs[|rs| - 1]), tenant);
    }
  }

  /** The record names the tenant, or no company at all. */
  predicate OfTenant(r: Record, tenant: Id) {
    r.companyId.Some? ==> r.companyId.value == tenant
  }

  predicate AllOfTenant(rs: seq<Record>, tenant: Id) {
    forall i :: 0 <= i < |rs| ==> OfTenant(rs[i], tenant)
  }

  /**
   * What a caller can check before the call: an update names no other company, and what the extension
   * does not rewrite names the tenant by itself.
   */
  predicate StaysHome(s: Statement, tenant: Id) {
    && (IsUpdate(s.op) ==> KeepsCompany(s.data, tenant))
    && (s.op.CreateManyAndReturn? ==> AllOfTenant(Records(s.data), tenant))
    && (s.op.Upsert? ==>
          && s.where.Some? && s.where.value.companyId == Some(Is(tenant))
          && OfTenant(s.op.create, tenant) && OfTenant(s.op.update, tenant))
  }

  lemma {:induction false} StepKeepsForeign(rows: seq<Row>, s: Statement, m: Model, tenant: Id, now: int)
    requires TenantApplies(m, Some(tenant)) && StaysHome(s, tenant)
    ensures Foreign(Step(rows, s, m, Some(tenant), now), tenant) == Foreign(rows, tenant)
  {
    var e := Extended(s, m, Some(tenant), now);
    if e.Some? {
      if IsCreate(s.op) || s.op.CreateManyAndReturn? {
        if Insertable(Records(e.value.data)) { InsertedForeign(rows, Records(e.value.data), tenant); }
      } else if IsUpdate(s.op) || IsDelete(s.op) {
        forall r | Selected(e.value.where, r) ensures r.companyId == tenant {
          NeverForeign(s, m, Some(tenant), now, r);
        }
        if IsUpdate(e.value.op) { UpdatedForeign(rows, e.value.where, e.value.data, tenant); }
        else { RemovedForeign(rows, e.value.where, tenant); }
      } else if s.op.Upsert? {
        if AnySelected(rows, s.where) { UpdatedForeign(rows, s.where, One(s.op.update), tenant); }
        else if Insertable([s.op.create]) { InsertedForeign(rows, [s.op.create], tenant); }
      }
    }
  }

  /** Over any run under one tenant, the rows of the other companies stay as they are. */
  lemma {:induction false} RunKeepsForeign(rows: seq<Row>, ts: seq<Timed>, m: Model, tenant: Id)
    requires TenantApplies(m, Some(tenant)) && forall i :: 0 <= i < |ts| ==> StaysHome(ts[i].statement, tenant)
    ensures Foreign(Run(rows, ts, m, Some(tenant)), tenant) == Foreign(rows, tenant)
    decreases |ts|
  {
    if ts != [] {
      var n := |ts| - 1;
      RunKeepsForeign(rows, ts[..n], m, tenant);
      StepKeepsForeign(Run(rows, ts[..n], m, Some(tenant)), ts[n].statement, m, tenant, ts[n].now);
    }
  }

  lemma {:induction false} HandOverAtLeast(rows: seq<Row>, w: Option<Where>, d: Data, tenant: Id)
    requires OnlyTenant(w, tenant)
    ensures |Foreign(Updated(rows, w, d), tenant)| >= |Foreign(rows, tenant)|
  {
    if rows != [] {
      hide Foreign, Updated, Kept, OnlyTenant;
      HandOverAtLeast(rows[..|rows| - 1], w, d, tenant);
      ForeignUpdateStep(rows, w, d, tenant);
      ForeignKept(rows[|rows| - 1], w, d, tenant);
    }
  }

  lemma {:induction false} HandOverGrows(rows: seq<Row>, w: Option<Where>, d: Data, tenant: Id, i: nat)
    requires OnlyTenant(w, tenant) && !KeepsCompany(d, tenant) && i < |rows| && Selected(w, rows[i])
    ensures |Foreign(Updated(rows, w, d), tenant)| > |Foreign(rows, tenant)|
  {
    hide Foreign, Updated, Kept, OnlyTenant, Selected, KeepsCompany;
    var n := |rows| - 1;
    ForeignUpdateStep(rows, w, d, tenant);
    ForeignKept(rows[n], w, d, tenant);
    if i < n { HandOverGrows(rows[..n], w, d, tenant, i); } else { HandOverAtLeast(rows[..n], w, d, tenant); }
  }

  lemma {:induction false} UnselectedStay(rows: seq<Row>, w: Option<Where>, d: Data)
    requires !AnySelected(rows, w)
    ensures Updated(rows, w, d) == rows
  {
    hide Selected;
    if rows != [] { UnselectedStay(rows[..|rows| - 1], w, d); }
  }

  lemma {:induction false} UpdateKeepsForeignIff(rows: seq<Row>, w: Option<Where>, d: Data, tenant: Id)
    requires OnlyTenant(w, tenant) && !KeepsCompany(d, tenant)
    ensures Foreign(Updated(rows, w, d), tenant) == Foreign(rows, tenant)
       <==> forall i :: 0 <= i < |rows| ==> !Selected(w, rows[i])
  {
    hide Foreign, Updated, Selected;
    if i :| 0 <= i < |rows| && Selected(w, rows[i]) {
      HandOverGrows(rows, w, d, tenant, i);
    } else {
      UnselectedStay(rows, w, d);
    }
  }

  /**
   * A row that the statement reaches: the tenant's own, selected by the filter apart from a condition on the
   * company.
   */
  predicate Reached(s: Statement, tenant: Id, r: Row) {
    r.companyId == tenant && (s.where.Some? ==> Selects(s.where.value.(companyId := None), r))
  }

  lemma ReachedIff(s: Statement, m: Model, tenant: Id, now: int, r: Row)
    requires TenantApplies(m, Some(tenant)) && IsUpdate(s.op)
    ensures Selected(Extended(s, m, Some(tenant), now).value.where, r) <==> Reached(s, tenant, r)
  {
    var w := s.where.UnwrapOr(NO_FILTER);
    SameRest(w, Extended(s, m, Some(tenant), now).value.where.value, r);
    SameRest(w, w.(companyId := None), r);
  }

  /** An update that names another company hands rows over: it keeps the others' rows exactly if it reaches none. */
  lemma {:induction false} HandOverIff(rows: seq<Row>, s: Statement, m: Model, tenant: Id, now: int)
    requires TenantApplies(m, Some(tenant)) && IsUpdate(s.op) && !KeepsCompany(s.data, tenant)
    ensures Foreign(Step(rows, s, m, Some(tenant), now), tenant) == Foreign(rows, tenant)
       <==> forall i :: 0 <= i < |rows| ==> !Reached(s, tenant, rows[i])
  {
    var e := Extended(s, m, Some(tenant), now).value;
    forall r ensures Selected(e.where, r) <==> Reached(s, tenant, r) { ReachedIff(s, m, tenant, now, r); }
    assert e.op == s.op && e.data == s.data;
    assert Step(rows, s, m, Some(tenant), now) == Updated(rows, e.where, e.data);
    hide Selected, Foreign, Updated, Extended;
    UpdateKeepsForeignIff(rows, e.where, e.data, tenant);
  }

  // When a statement keeps the other companies' rows.

  predicate AtMostOneSelected(rows: seq<Row>, w: Option<Where>) {
    forall i, j :: 0 <= i < j < |rows| && Selected(w, rows[i]) ==> !Selected(w, rows[j])
  }

  /** The new values leave the row as it is, or leave a tenant's row to the tenant. */
  predicate HarmlessOn(r: Row, update: Record, tenant: Id) {
    Changed(r, One(update)) == r || (r.companyId == tenant && OfTenant(update, tenant))
  }

  predicate AllHarmless(rows: seq<Row>, w: Option<Where>, update: Record, tenant: Id) {
    forall i :: 0 <= i < |rows| && Selected(w, rows[i]) ==> HarmlessOn(rows[i], update, tenant)
  }

  lemma AllHarmlessAppend(rows: seq<Row>, r: Row, w: Option<Where>, update: Record, tenant: Id)
    ensures AllHarmless(rows + [r], w, update, tenant)
       <==> AllHarmless(rows, w, update, tenant) && (Selected(w, r) ==> HarmlessOn(r, update, tenant))
  {
    hide Selected, HarmlessOn;
    var all := rows + [r];
    assert all[|rows|] == r && forall i :: 0 <= i < |rows| ==> all[i] == rows[i];
  }

  /** One changed row at the end leaves the list of the others' rows equal exactly if it is harmless. */
  lemma LastRowIff(before: seq<Row>, r: Row, update: Record, tenant: Id)
    ensures var r' := Changed(r, One(update));
      (if r.companyId == tenant then before else before + [r])
      == (if r'.companyId == tenant then before else before + [r'])
      <==> HarmlessOn(r, update, tenant)
  {
    var r' := Changed(r, One(update));
    assert |before + [r]| == |before + [r']| == |before| + 1;
    assert (before + [r])[|before|] == r && (before + [r'])[|before|] == r';
  }

  lemma UnselectedHarmless(rows: seq<Row>, w: Option<Where>, update: Record, tenant: Id)
    requires !AnySelected(rows, w)
    ensures AllHarmless(rows, w, update, tenant)
  {
    hide Selected;
  }

  lemma AppendSame(before: seq<Row>, after: seq<Row>, r: Row)
    ensures before + [r] == after + [r] <==> before == after
  {
    assert (before + [r])[..|before|] == before && (after + [r])[..|after|] == after;
  }

  lemma NothingSelected(w: Option<Where>, update: Record, tenant: Id)
    ensures AllHarmless([], w, update, tenant)
  {
  }

  lemma AtMostOneInit(rows: seq<Row>, r: Row, w: Option<Where>)
    requires AtMostOneSelected(rows + [r], w)
    ensures AtMostOneSelected(rows, w) && (Selected(w, r) ==> !AnySelected(rows, w))
  {
    hide Selected;
    var all := rows + [r];
    assert all[|rows|] == r && forall i :: 0 <= i < |rows| ==> all[i] == rows[i];
  }

  lemma {:induction false} SingleUpdateIff(rows: seq<Row>, w: Option<Where>, update: Record, tenant: Id)
    requires AtMostOneSelected(rows, w)
    ensures Foreign(Updated(rows, w, One(update)), tenant) == Foreign(rows, tenant)
       <==> AllHarmless(rows, w, update, tenant)
  {
    hide Selected, Foreign, AllHarmless, HarmlessOn, AtMostOneSelected, Changed, AnySelected;
    if rows == [] {
      NothingSelected(w, update, tenant);
    } else {
      var init, r := rows[..|rows| - 1], rows[|rows| - 1];
      assert rows == init + [r];
      ForeignUpdateStep(rows, w, One(update), tenant);
      AllHarmlessAppend(init, r, w, update, tenant);
      AtMostOneInit(init, r, w);
      if Selected(w, r) {
        UnselectedStay(init, w, One(update));
        LastRowIff(Foreign(init, tenant), r, update, tenant);
        UnselectedHarmless(init, w, update, tenant);
      } else {
        SingleUpdateIff(init, w, update, tenant);
        AppendSame(Foreign(init, tenant), Foreign(Updated(init, w, One(update)), tenant), r);
      }
    }
  }

  lemma {:induction false} InsertedForeignIff(rows: seq<Row>, rs: seq<Record>, tenant: Id)
    requires Insertable(rs)
    ensures |Foreign(Inserted(rows, rs), tenant)| >= |Foreign(rows, tenant)|
    ensures Foreign(Inserted(rows, rs), tenant) == Foreign(rows, tenant) <==> AllOfTenant(rs, tenant)
    ensures |Foreign(Inserted(rows, rs), tenant)| == |Foreign(rows, tenant)| ==> AllOfTenant(rs, tenant)
    decreases |rs|
  {
    hide Foreign, AllOfTenant;
    if rs == [] {
      NoneForeign(tenant);
    } else {
      var init, r := rs[..|rs| - 1], rs[|rs| - 1];
      assert rs == init + [r];
      InsertedForeignIff(rows, init, tenant);
      ForeignAppend(Inserted(rows, init), NewRow(|rows| + |init|, r), tenant);
      AllOfTenantAppend(init, r, tenant);
    }
  }

  lemma NoneForeign(tenant: Id)
    ensures AllOfTenant([], tenant)
  {
  }

  lemma AllOfTenantAppend(rs: seq<Record>, r: Record, tenant: Id)
    ensures AllOfTenant(rs + [r], tenant) <==> AllOfTenant(rs, tenant) && OfTenant(r, tenant)
  {
    var all := rs + [r];
    assert all[|rs|] == r && forall i :: 0 <= i < |rs| ==> all[i] == rs[i];
  }

  /**
   * What decides whether a statement leaves the other companies' rows alone: an update names no
   * other company or reaches no row, an upsert is harmless on the row it finds or creates one of
   * the tenant, and records inserted as they come all belong to the tenant.
   */
  predicate Harmless(rows: seq<Row>, s: Statement, tenant: Id) {
    && (IsUpdate(s.op) ==> KeepsCompany(s.data, tenant) || forall i :: 0 <= i < |rows| ==> !Reached(s, tenant, rows[i]))
    && (s.op.CreateManyAndReturn? && Insertable(Records(s.data)) ==> AllOfTenant(Records(s.data), tenant))
    && (s.op.Upsert? ==> UpsertHarmless(rows, s.where, s.op.create, s.op.update, tenant))
  }

  predicate UpsertHarmless(rows: seq<Row>, w: Option<Where>, create: Record, update: Record, tenant: Id) {
    if AnySelected(rows, w) then AllHarmless(rows, w, update, tenant) else OfTenant(create, tenant)
  }

  lemma UpsertKeepsForeignIff(rows: seq<Row>, w: Option<Where>, create: Record, update: Record, tenant: Id)
    requires AtMostOneSelected(rows, w)
    ensures Foreign(Upserted(rows, w, create, update), tenant) == Foreign(rows, tenant)
       <==> UpsertHarmless(rows, w, create, update, tenant)
  {
    hide Selected, Foreign, Updated, AtMostOneSelected;
    if AnySelected(rows, w) { SingleUpdateIff(rows, w, update, tenant); }
    else if Insertable([create]) { InsertedForeignIff(rows, [create], tenant); assert [create][0] == create; }
  }

  /**
   * Any statement under a tenant, an upsert having the unique filter that its type demands, keeps
   * the other companies' rows exactly if it is harmless.
   */
  lemma {:induction false} StepKeepsForeignIff(rows: seq<Row>, s: Statement, m: Model, tenant: Id, now: int)
    requires TenantApplies(m, Some(tenant))
    requires s.op.Upsert? ==> AtMostOneSelected(rows, s.where)
    ensures Foreign(Step(rows, s, m, Some(tenant), now), tenant) == Foreign(rows, tenant)
       <==> Harmless(rows, s, tenant)
  {
    hide Foreign, Updated, Removed, Inserted, Selected, Reached, UpsertHarmless, AtMostOneSelected, Upserted;
    hide KeepsCompany;
    if IsUpdate(s.op) && !KeepsCompany(s.data, tenant) {
      HandOverIff(rows, s, m, tenant, now);
    } else if s.op.Upsert? {
      UpsertKeepsForeignIff(rows, s.where, s.op.create, s.op.update, tenant);
    } else if s.op.CreateManyAndReturn? {
      if Insertable(Records(s.data)) { InsertedForeignIff(rows, Records(s.data), tenant); }
    } else {
      StepKeepsForeign(rows, s, m, tenant, now);
    }
  }

  function Naming(company: Id): Where {
    NO_FILTER.(companyId := Some(Is(company)))
  }

  lemma NamingSelects(company: Id, r: Row)
    ensures Selected(Some(Naming(company)), r) <==> r.companyId == company
  {
    SameRest(NO_FILTER, Naming(company), r);
  }

  lemma OneRow(r: Row, company: Id, update: Record, tenant: Id)
    requires r.companyId == company
    ensures AnySelected([r], Some(Naming(company)))
    ensures Updated([r], Some(Naming(company)), One(update)) == [Changed(r, One(update))]
    ensures Foreign([r], tenant) == if r.companyId == tenant then [] else [r]
  {
    hide Selected;
    NamingSelects(company, r);
    assert [r][0] == r && [r][..0] == [];
    assert Updated([], Some(Naming(company)), One(update)) == [] && Foreign([], tenant) == [];
  }

  /** An upsert that names another company changes that company's row. */
  lemma ForeignUpsertIsReached(m: Model, tenant: Id, r: Row, create: Record, update: Record, now: int)
    requires TenantApplies(m, Some(tenant)) && r.companyId != tenant && update.companyId == None
    ensures var s := Statement(Upsert(create, update), Some(Naming(r.companyId)), Absent);
      && Foreign([r], tenant) == [r]
      && Foreign(Step([r], s, m, Some(tenant), now), tenant) == [Changed(r, One(update))]
  {
    var r' := Changed(r, One(update));
    hide Selected, Foreign, Updated, AnySelected;
    OneRow(r, r.companyId, update, tenant);
    OneRow(r', r.companyId, update, tenant);
  }

  lemma UnfilteredUpdate(rows: seq<Row>, m: Model, tenant: Id, d: Data, now: int)
    requires TenantApplies(m, Some(tenant))
    ensures Step(rows, Statement(Update, None, d), m, Some(tenant), now) == Updated(rows, Some(Naming(tenant)), d)
  {
    hide Updated;
  }

  lemma NewCompany(r: Row, other: Id)
    ensures Changed(r, One(NO_VALUES.(companyId := Some(other)))) == r.(companyId := other)
  {
    assert r.fields + NO_VALUES.fields == r.fields;
  }

  /** An update that names another company hands the tenant's row over. */
  lemma HandOverIsReached(m: Model, tenant: Id, r: Row, other: Id, now: int)
    requires TenantApplies(m, Some(tenant)) && r.companyId == tenant && other != tenant
    ensures var s := Statement(Update, None, One(NO_VALUES.(companyId := Some(other))));
      && Foreign([r], tenant) == []
      && Foreign(Step([r], s, m, Some(tenant), now), tenant) == [r.(companyId := other)]
  {
    hide Selected, Foreign, Updated, AnySelected, Step, Naming, Changed, TenantApplies;
    var update := NO_VALUES.(companyId := Some(other));
    UnfilteredUpdate([r], m, tenant, One(update), now);
    NewCompany(r, other);
    OneRow(r, tenant, update, tenant);
    OneRow(r.(companyId := other), other, update, tenant);
  }

  lemma {:induction false} UpdatedIds(rows: seq<Row>, w: Option<Where>, d: Data)
    ensures |Updated(rows, w, d)| == |rows| && forall i :: 0 <= i < |rows| ==> Updated(rows, w, d)[i].id == rows[i].id
  {
    if rows != [] { UpdatedIds(rows[..|rows| - 1], w, d); }
  }

  lemma {:induction false} InsertedIds(rows: seq<Row>, rs: seq<Record>)
    requires Insertable(rs)
    ensures rows <= Inserted(rows, rs)
    decreases |rs|
  {
    if rs != [] { InsertedIds(rows, rs[..|rs| - 1]); }
  }

  /** On a soft-delete model no statement, under any tenant or none, takes a row out of the table. */
  lemma {:induction false} SoftDeleteKeepsRows(rows: seq<Row>, s: Statement, m: Model, tenant: Option<Id>, now: int)
    requires m.softDelete
    ensures var rows' := Step(rows, s, m, tenant, now);
      |rows| <= |rows'| && forall i :: 0 <= i < |rows| ==> rows'[i].id == rows[i].id
  {
    var e := Extended(s, m, tenant, now);
    if e.Some? {
      if IsCreate(e.value.op) || e.value.op.CreateManyAndReturn? {
        if Insertable(Records(e.value.data)) { InsertedIds(rows, Records(e.value.data)); }
      } else if IsUpdate(e.value.op) {
        UpdatedIds(rows, e.value.where, e.value.data);
      } else if s.op.Upsert? {
        if AnySelected(rows, s.where) { UpdatedIds(rows, s.where, One(s.op.update)); }
        else if Insertable([s.op.create]) { InsertedIds(rows, [s.op.create]); }
      }
    }
  }

  // What statements do to the rows they mean.

  /** The rows the original filter selects, of the tenant if one applies, its condition on the company aside. */
  predicate Meant(s: Statement, m: Model, tenant: Option<Id>, r: Row) {
    if TenantApplies(m, tenant)
    then r.companyId == tenant.value && (s.where.Some? ==> Selects(s.where.value.(companyId := None), r))
    else s.where.Some? ==> Selects(s.where.value, r)
  }

  lemma MeantIff(s: Statement, m: Model, tenant: Option<Id>, now: int, r: Row)
    requires IsUpdate(s.op) || (IsDelete(s.op) && (m.softDelete ==> m.delegateFound))
    ensures Selected(Extended(s, m, tenant, now).value.where, r) <==> Meant(s, m, tenant, r)
  {
    if TenantApplies(m, tenant) {
      var w := s.where.UnwrapOr(NO_FILTER);
      SameRest(w, Extended(s, m, tenant, now).value.where.value, r);
      SameRest(w, w.(companyId := None), r);
    }
  }

  lemma {:induction false} UpdatedAt(rows: seq<Row>, w: Option<Where>, d: Data, i: nat)
    requires i < |rows|
    ensures |Updated(rows, w, d)| == |rows| && Updated(rows, w, d)[i] == Kept(rows[i], w, d)
  {
    hide Kept;
    UpdatedIds(rows, w, d);
    if i < |rows| - 1 { UpdatedAt(rows[..|rows| - 1], w, d, i); }
  }

  lemma {:induction false} RemovedIff(rows: seq<Row>, w: Option<Where>, r: Row)
    ensures r in Removed(rows, w) <==> r in rows && !Selected(w, r)
  {
    hide Selected;
    if rows != [] {
      var init, last := rows[..|rows| - 1], rows[|rows| - 1];
      assert r in rows <==> r in init || r == last;
      RemovedIff(init, w, r);
    }
  }

  /** On any other model a delete takes away exactly the rows it means. */
  lemma HardDeleteRemoves(rows: seq<Row>, s: Statement, m: Model, tenant: Option<Id>, now: int, r: Row)
    requires !m.softDelete && IsDelete(s.op)
    ensures r in Step(rows, s, m, tenant, now) <==> r in rows && !Meant(s, m, tenant, r)
  {
    RemovedIff(rows, Extended(s, m, tenant, now).value.where, r);
    MeantIff(s, m, tenant, now, r);
  }

  /** A blocked delete changes nothing. */
  lemma BlockedDelete(rows: seq<Row>, s: Statement, m: Model, tenant: Option<Id>, now: int)
    requires m.softDelete && !m.delegateFound && IsDelete(s.op)
    ensures Step(rows, s, m, tenant, now) == rows
  {
  }

  /** An update gives the rows it means the values it names, and leaves the other values and rows as they are. */
  lemma UpdateChanges(rows: seq<Row>, s: Statement, m: Model, tenant: Option<Id>, now: int, i: nat)
    requires IsUpdate(s.op) && s.data.One? && i < |rows|
    ensures var rows' := Step(rows, s, m, tenant, now); var values := s.data.record;
      && |rows'| == |rows|
      && (!Meant(s, m, tenant, rows[i]) ==> rows'[i] == rows[i])
      && (Meant(s, m, tenant, rows[i]) ==>
            && rows'[i].id == rows[i].id
            && rows'[i].companyId == (if values.companyId.Some? then values.companyId.value else rows[i].companyId)
            && rows'[i].deletedAt == (if values.deletedAt.Some? then values.deletedAt.value else rows[i].deletedAt)
            && rows'[i].fields.Keys == rows[i].fields.Keys + values.fields.Keys
            && forall f :: f in rows'[i].fields ==>
                 rows'[i].fields[f] == if f in values.fields then values.fields[f] else rows[i].fields[f])
  {
    var e := Extended(s, m, tenant, now).value;
    UpdatedAt(rows, e.where, e.data, i);
    MeantIff(s, m, tenant, now, rows[i]);
    hide Updated, Selected, Meant;
  }

  lemma {:induction false} InsertedAt(rows: seq<Row>, rs: seq<Record>, k: nat)
    requires Insertable(rs) && k < |rs|
    ensures |Inserted(rows, rs)| == |rows| + |rs|
    ensures Inserted(rows, rs)[|rows| + k] == NewRow(|rows| + k, rs[k])
    decreases |rs|
  {
    var n := |rs| - 1;
    if n > 0 { InsertedAt(rows, rs[..n], if k < n then k else 0); }
  }

  /** A creation under a tenant adds a row of the tenant for each record, whatever company that names. */
  lemma CreateStamps(rows: seq<Row>, s: Statement, m: Model, tenant: Id, now: int, k: nat)
    requires IsCreate(s.op) && TenantApplies(m, Some(tenant)) && k < |Records(s.data)|
    ensures var rows', records := Step(rows, s, m, Some(tenant), now), Records(s.data);
      && |rows'| == |rows| + |records| && rows'[..|rows|] == rows
      && rows'[|rows| + k].companyId == tenant && rows'[|rows| + k].fields == records[k].fields
      && rows'[|rows| + k].deletedAt == records[k].deletedAt.UnwrapOr(None)
  {
    var records := Records(Extended(s, m, Some(tenant), now).value.data);
    assert |records| == |Records(s.data)| && records[k] == Stamp(Records(s.data)[k], tenant);
    InsertedAt(rows, records, k);
    InsertedIds(rows, records);
  }

  /**
   * A delete stamps the rows it means with the time, those already deleted included, and leaves every
   * other row as it is.
   */
  lemma SoftDeleteStamps(rows: seq<Row>, s: Statement, m: Model, tenant: Option<Id>, now: int, i: nat)
    requires m.softDelete && m.delegateFound && IsDelete(s.op) && i < |rows|
    ensures var rows' := Step(rows, s, m, tenant, now);
      && |rows'| == |rows|
      && rows'[i] == if Meant(s, m, tenant, rows[i]) then rows[i].(deletedAt := Some(now)) else rows[i]
  {
    var e := Extended(s, m, tenant, now).value;
    UpdatedAt(rows, e.where, e.data, i);
    MeantIff(s, m, tenant, now, rows[i]);
    assert rows[i].fields + NO_VALUES.fields == rows[i].fields;
    hide Updated, Selected, Meant;
  }

  /**
   * A read that follows and does not name the deletion date shows the tenant's rows that it selects,
   * less those that were deleted before or are deleted now.
   */
  lemma DeletedIsHidden(rows: seq<Row>, s: Statement, m: Model, tenant: Option<Id>, now: int, read: Statement,
          later: int, i: nat)
    requires m.softDelete && m.delegateFound && IsDelete(s.op) && i < |rows|
    requires IsRead(read.op) && TenantApplies(m, tenant)
    requires !NamesCompany(read.where) && !NamesDeletion(read.where)
    ensures var rows' := Step(rows, s, m, tenant, now);
      && |rows'| == |rows|
      && (Selected(Extended(read, m, tenant, later).value.where, rows'[i])
          <==> Selected(read.where, rows[i]) && rows[i].companyId == tenant.value
               && rows[i].deletedAt == None && !Meant(s, m, tenant, rows[i]))
  {
    SoftDeleteStamps(rows, s, m, tenant, now, i);
    ReadMeaning(read, m, tenant, later, Step(rows, s, m, tenant, now)[i]);
    hide Selected, Meant, Step;
  }

  /** The arguments object the extension overwrites in place. */
  class OperationArgs {
    var where: Option<Where>
    var data: Data

    /** The statement sent on with these arguments, none if a delete is blocked; a soft delete goes on as an update. */
    method ApplyExtensions(op: Operation, m: Model, tenant: Option<Id>, now: int) returns (sent: Option<Statement>)
      modifies this
      ensures sent == Extended(Statement(op, old(where), old(data)), m, tenant, now)
    {
      if tenant.Some? && tenant.value != "" && m.companyScoped {
        if IsCreate(op) {
          data := Stamped(data, tenant.value);
        } else if IsRead(op) || IsUpdate(op) || IsDelete(op) {
          where := Some(where.UnwrapOr(NO_FILTER).(companyId := Some(Is(tenant.value))));
        }
      }
      if m.softDelete && IsRead(op) {
        var w := where.UnwrapOr(NO_FILTER);
        if w.deletedAt.None? { where := Some(w.(deletedAt := Some(Is(None)))); }
      }
      if m.softDelete && IsDelete(op) {
        if !m.delegateFound { return None; }
        var action := if op == Delete then Update else UpdateMany;
        return Some(Statement(action, where, One(NO_VALUES.(deletedAt := Some(Some(now))))));
      }
      sent := Some(Statement(op, where, data));
    }
  }
}
