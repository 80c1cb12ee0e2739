/** What one call of the upsert engine guarantees: when it succeeds, what it fails on,
    what it leaves behind, and which invariants of the store it keeps. Most of the module
    is about db/db_utils.py's `upsert`, which always runs its merge; the section on
    core/db_utils.py's revision states how that one, which merges only when a column is
    asked for, differs. */
module UpsertLaws {
  import opened Wrappers
  import opened Relational

  /** The conditions under which every statement of `upsert` goes through. */
  predicate Accepts(schema: Schema, db: Db, table: string, data: seq<Field>, pk: seq<string>,
                    returning: Option<string>)
  {
    && table in schema.columns && table in db.tables
    && data != []
    && (forall i :: 0 <= i < |data| ==> data[i].column in schema.columns[table])
    && db.tempConstraint.None?
    && pk != []
    && (forall c :: c in pk ==> c in schema.columns[table])
    && UniqueOn(db.tables[table], pk)
    && ConflictColumns(Columns(data), pk) != []
    && (returning.Some? ==> returning.value in schema.columns[table])
  }

  /** Some row of the table conflicts with the given key. */
  ghost predicate HasMatch(t: Table, key: Row, pk: seq<string>)
  {
    exists id :: id in t && SameKey(key, t[id], pk)
  }

  /** The columns an update rewrites: the dict's, minus the key. */
  function UpdateColumns(data: seq<Field>, pk: seq<string>): set<string>
  {
    SetOf(ConflictColumns(Columns(data), pk))
  }

  lemma ColumnsDistinct(data: seq<Field>)
    requires DistinctColumns(data)
    ensures Distinct(Columns(data))
  {
  }

  lemma ColumnsAre(data: seq<Field>)
    ensures SetOf(Columns(data)) == ToRow(data).Keys
  {
    var cs := Columns(data);
    forall c | c in ToRow(data).Keys ensures c in cs {
      var i :| 0 <= i < |data| && data[i].column == c;
      assert cs[i] == c;
    }
  }

  /** The proposed row carries the dict's values in the dict's columns. */
  lemma ProposedAgrees(schema: Schema, table: string, data: seq<Field>, id: nat)
    requires SchemaOk(schema) && table in schema.columns
    requires forall i :: 0 <= i < |data| ==> data[i].column in schema.columns[table]
    ensures var p := Proposed(schema, table, ToRow(data), Columns(data), id);
            && p.Keys == schema.columns[table]
            && forall c :: c in ToRow(data) ==> c in p && p[c] == ToRow(data)[c]
  {
    ColumnsAre(data);
    forall c | c in ToRow(data)
      ensures c in Proposed(schema, table, ToRow(data), Columns(data), id)
      ensures Proposed(schema, table, ToRow(data), Columns(data), id)[c] == ToRow(data)[c]
    {
      ProposedAt(schema, table, ToRow(data), Columns(data), id, c);
    }
  }

  /** One column of the staged row, as the INSERT proposes it. */
  lemma ProposedAt(schema: Schema, table: string, row: Row, cols: seq<string>, id: nat, c: string)
    requires table in schema.columns && SetOf(cols) == row.Keys && c in row
    ensures var p := Proposed(schema, table, row, cols, id);
            c in p && p[c] == row[c]
  {
    var r0 := Defaults(schema.columns[table]) + Restrict(row, SetOf(cols));
    assert c in r0 && r0[c] == row[c];
  }

  /** When the key columns are all in the dict, conflicting with the proposed row is
      conflicting with the dict. */
  lemma ProposedKey(schema: Schema, table: string, data: seq<Field>, id: nat, pk: seq<string>, row: Row)
    requires SchemaOk(schema) && table in schema.columns
    requires forall i :: 0 <= i < |data| ==> data[i].column in schema.columns[table]
    requires forall c :: c in pk ==> c in ToRow(data)
    ensures SameKey(Proposed(schema, table, ToRow(data), Columns(data), id), row, pk) <==> SameKey(ToRow(data), row, pk)
  {
    ColumnsAre(data);
    forall c | c in pk
      ensures c in Proposed(schema, table, ToRow(data), Columns(data), id)
      ensures Proposed(schema, table, ToRow(data), Columns(data), id)[c] == ToRow(data)[c]
    {
      ProposedAt(schema, table, ToRow(data), Columns(data), id, c);
    }
    SameKeyAgree(Proposed(schema, table, ToRow(data), Columns(data), id), ToRow(data), row, pk);
  }

  /** Two rows that agree on the key columns conflict with the same rows. */
  lemma SameKeyAgree(a: Row, b: Row, row: Row, pk: seq<string>)
    requires forall c :: c in pk ==> c in a && c in b && a[c] == b[c]
    ensures SameKey(a, row, pk) <==> SameKey(b, row, pk)
  {
  }

  /** `SameKey` only asks which columns are listed. */
  lemma SameColumns(p: seq<string>, q: seq<string>)
    requires forall c :: c in p <==> c in q
    ensures forall a: Row, b: Row :: SameKey(a, b, p) <==> SameKey(a, b, q)
  {
  }

  lemma SameKeySymmetric(a: Row, b: Row, pk: seq<string>)
    ensures SameKey(a, b, pk) <==> SameKey(b, a, pk)
  {
  }

  /** Rewriting a row without touching its key columns keeps a table unique. */
  lemma UpdateKeepsUnique(t: Table, id: nat, row: Row, pk: seq<string>)
    requires id in t && UniqueOn(t, pk)
    requires forall c :: c in pk ==> (c in row <==> c in t[id]) && (c in row ==> row[c] == t[id][c])
    ensures UniqueOn(t[id := row], pk)
  {
    var t' := t[id := row];
    forall i, j | i in t' && j in t' && i != j ensures !SameKey(t'[i], t'[j], pk) {
      assert SameKey(t'[i], t'[j], pk) ==> SameKey(t[i], t[j], pk);
    }
  }

  /** Adding a row that conflicts with none keeps a table unique. */
  lemma InsertKeepsUnique(t: Table, id: nat, row: Row, pk: seq<string>)
    requires id !in t && UniqueOn(t, pk)
    requires forall j :: j in t ==> !SameKey(row, t[j], pk)
    ensures UniqueOn(t[id := row], pk)
  {
    var t' := t[id := row];
    forall i, j | i in t' && j in t' && i != j ensures !SameKey(t'[i], t'[j], pk) {
      if i == id {
      } else if j == id {
        SameKeySymmetric(t[i], row, pk);
      }
    }
  }

  /** The statement `upsert` builds fails only for an empty update list or an unknown
      `RETURNING` column, once staging and the constraint are in place. */
  lemma BuiltMergeFails(schema: Schema, db: Db, table: string, tmp: string, data: seq<Field>,
                        pk: seq<string>, returning: Option<string>)
    requires table in schema.columns && tmp in db.staging
    requires db.tempConstraint == Some(Constraint(table, pk))
    requires forall i :: 0 <= i < |data| ==> data[i].column in schema.columns[table]
    requires DistinctColumns(data)
    ensures MergeFails(schema, db, BuildMerge(table, tmp, data, pk, returning))
            <==> ConflictColumns(Columns(data), pk) == [] || (returning.Some? && returning.value !in schema.columns[table])
  {
    var m := BuildMerge(table, tmp, data, pk, returning);
    ColumnsDistinct(data);
    assert Arbiter(db, table, pk);
    forall c | c in m.insertColumns ensures c in schema.columns[table] {
      var i :| 0 <= i < |data| && Columns(data)[i] == c;
    }
  }

  lemma RestrictAgree(a: Row, b: Row, cols: set<string>)
    requires cols <= a.Keys && cols <= b.Keys
    requires forall c :: c in cols ==> a[c] == b[c]
    ensures Restrict(a, cols) == Restrict(b, cols)
  {
  }

  // ---------------------------------------------------------------- well-formedness

  /** Writing one row of the right shape under a handle below the counter keeps a store
      well formed, provided the constrained table stays unique. */
  lemma PutRowWellFormed(schema: Schema, db: Db, table: string, id: nat, row: Row, next: nat)
    requires WellFormed(schema, db) && table in db.tables
    requires row.Keys == schema.columns[table] && id < next && db.nextId <= next
    requires db.tempConstraint.Some? && db.tempConstraint.value.table == table
    requires UniqueOn(db.tables[table][id := row], db.tempConstraint.value.columns)
    ensures WellFormed(schema, PutRow(db, table, id, row).(nextId := next))
  {
  }

  lemma MergeRowWellFormed(schema: Schema, db: Db, table: string, target: seq<string>,
                            updates: seq<string>, returning: Option<string>, p: Row)
    requires WellFormed(schema, db) && table in db.tables && p.Keys == schema.columns[table]
    requires SetOf(updates) <= p.Keys
    requires Arbiter(db, table, target)
    ensures WellFormed(schema, MergeRow(db, table, target, updates, returning, p).db)
  {
    var t: Table := db.tables[table];
    var tc := db.tempConstraint.value;
    if exists id :: id in t && SameKey(p, t[id], target) {
      forall id | id in t && SameKey(p, t[id], target)
        ensures WellFormed(schema, PutRow(db, table, id, UpdatedRow(t[id], p, updates)))
      {
        MergeUpdateWellFormed(schema, db, table, target, updates, p, id);
      }
    } else {
      MergeInsertWellFormed(schema, db, table, target, p);
    }
  }

  lemma MergeInsertWellFormed(schema: Schema, db: Db, table: string, target: seq<string>, p: Row)
    requires WellFormed(schema, db) && table in db.tables && p.Keys == schema.columns[table]
    requires Arbiter(db, table, target)
    requires forall id :: id in db.tables[table] ==> !SameKey(p, db.tables[table][id], target)
    ensures WellFormed(schema, PutRow(db, table, db.nextId, p).(nextId := db.nextId + 1))
  {
    var t: Table := db.tables[table];
    var tc := db.tempConstraint.value;
    assert forall j :: j in t ==> !SameKey(p, t[j], tc.columns) by {
      SameColumns(tc.columns, target);
    }
    InsertKeepsUnique(t, db.nextId, p, tc.columns);
    PutRowWellFormed(schema, db, table, db.nextId, p, db.nextId + 1);
  }

  lemma MergeUpdateWellFormed(schema: Schema, db: Db, table: string, target: seq<string>,
                              updates: seq<string>, p: Row, id: nat)
    requires WellFormed(schema, db) && table in db.tables && p.Keys == schema.columns[table]
    requires SetOf(updates) <= p.Keys
    requires Arbiter(db, table, target)
    requires id in db.tables[table] && SameKey(p, db.tables[table][id], target)
    ensures WellFormed(schema, PutRow(db, table, id, UpdatedRow(db.tables[table][id], p, updates)))
  {
    var t: Table := db.tables[table];
    var tc := db.tempConstraint.value;
    var row := UpdatedRow(t[id], p, updates);
    assert SameKey(p, t[id], tc.columns) by {
      SameColumns(tc.columns, target);
    }
    assert row.Keys == schema.columns[table];
    UpdateKeepsUnique(t, id, row, tc.columns);
    PutRowWellFormed(schema, db, table, id, row, db.nextId);
  }

  lemma MergeWellFormed(schema: Schema, db: Db, m: MergeStatement, staged: Row)
    requires SchemaOk(schema) && WellFormed(schema, db)
    ensures WellFormed(schema, ExecMerge(schema, db, m, staged).db)
  {
    if !MergeFails(schema, db, m) {
      var p := Proposed(schema, m.table, staged, m.insertColumns, db.nextId);
      MergeRowWellFormed(schema, db, m.table, m.conflictTarget, m.updateSet, m.returning, p);
    }
  }

  lemma UpsertWellFormed(schema: Schema, db: Db, table: string, data: seq<Field>, pk: seq<string>,
                         returning: Option<string>)
    requires SchemaOk(schema) && WellFormed(schema, db)
    ensures WellFormed(schema, Upsert(schema, db, table, data, pk, returning).db)
  {
    var s1 := CreateTmp(schema, db, table, data);
    if s1.result.Ok? {
      ConstrainedWellFormed(schema, s1.db, table, s1.result.value, data, pk, returning);
    }
  }

  lemma ConstrainedWellFormed(schema: Schema, db: Db, table: string, tmp: string, data: seq<Field>,
                              pk: seq<string>, returning: Option<string>)
    requires SchemaOk(schema) && WellFormed(schema, db)
    ensures WellFormed(schema, Constrained(schema, db, table, tmp, data, pk, returning).db)
  {
    var s2 := AddConstraint(schema, db, table, pk);
    if s2.result.Ok? {
      ConstrainWellFormed(schema, db, table, pk);
      MergeWellFormed(schema, s2.db, BuildMerge(table, tmp, data, pk, returning), ToRow(data));
    }
  }

  // ---------------------------------------------------------------- success and failure

  /** `upsert` raises exactly when one of its statements is refused. */
  lemma UpsertOkIff(schema: Schema, db: Db, table: string, data: seq<Field>, pk: seq<string>,
                    returning: Option<string>)
    requires SchemaOk(schema) && WellFormed(schema, db) && DistinctColumns(data)
    ensures Upsert(schema, db, table, data, pk, returning).result.Ok?
            <==> Accepts(schema, db, table, data, pk, returning)
  {
    var s1 := CreateTmp(schema, db, table, data);
    if s1.result.Ok? {
      var s2 := AddConstraint(schema, s1.db, table, pk);
      if s2.result.Ok? {
        ConstrainWellFormed(schema, s1.db, table, pk);
        BuiltMergeFails(schema, s2.db, table, s1.result.value, data, pk, returning);
      }
    }
  }

  /** A failed `upsert` has written no row, and what it staged or constrained is still
      there: the except path does no cleanup. */
  lemma UpsertFailure(schema: Schema, db: Db, table: string, data: seq<Field>, pk: seq<string>,
                      returning: Option<string>)
    requires SchemaOk(schema) && WellFormed(schema, db)
    requires Upsert(schema, db, table, data, pk, returning).result.Err?
    ensures var r := Upsert(schema, db, table, data, pk, returning);
            && r.db.tables == db.tables && r.db.nextId == db.nextId
            && r.result.error.table == table
            && (r.result.error.stage == StageCreate || r.result.error.stage == StageConstrain
                || r.result.error.stage == StageMerge)
            && (r.result.error.stage == StageCreate ==>
                  r.db.tempConstraint == db.tempConstraint
                  && (table in schema.columns <==> TmpName(table) in r.db.staging))
            && (r.result.error.stage == StageConstrain ==>
                  && r.db.tempConstraint == db.tempConstraint
                  && TmpName(table) in r.db.staging && r.db.staging[TmpName(table)] == [ToRow(data)])
            && (r.result.error.stage == StageMerge ==>
                  && r.db.tempConstraint == Some(Constraint(table, pk))
                  && TmpName(table) in r.db.staging && r.db.staging[TmpName(table)] == [ToRow(data)])
  {
    var s1 := CreateTmp(schema, db, table, data);
    if s1.result.Ok? {
      ConstrainedFailure(schema, s1.db, table, s1.result.value, data, pk, returning);
    }
  }

  /** Past staging, `upsert` raises at the constraint or at the merge: the clean-up after a
      merge that went through cannot fail. */
  lemma ConstrainedFailure(schema: Schema, db: Db, table: string, tmp: string, data: seq<Field>,
                           pk: seq<string>, returning: Option<string>)
    requires SchemaOk(schema) && WellFormed(schema, db)
    requires Constrained(schema, db, table, tmp, data, pk, returning).result.Err?
    ensures var r := Constrained(schema, db, table, tmp, data, pk, returning);
            && r.db.tables == db.tables && r.db.nextId == db.nextId && r.db.staging == db.staging
            && r.result.error.table == table
            && ((r.result.error.stage == StageConstrain && r.db.tempConstraint == db.tempConstraint)
                || (r.result.error.stage == StageMerge && r.db.tempConstraint == Some(Constraint(table, pk))))
  {
    var s2 := AddConstraint(schema, db, table, pk);
    if s2.result.Ok? {
      ConstrainWellFormed(schema, db, table, pk);
      var m := BuildMerge(table, tmp, data, pk, returning);
      if !MergeFails(schema, s2.db, m) {
        var p := Proposed(schema, table, ToRow(data), m.insertColumns, s2.db.nextId);
        MergeRowEffect(s2.db, table, pk, m.updateSet, returning, p);
      }
    }
  }

  /** The merge of a proposed row always succeeds, and writes one row. */
  lemma MergeRowEffect(db: Db, table: string, target: seq<string>, updates: seq<string>,
                       returning: Option<string>, p: Row)
    requires table in db.tables
    ensures var r := MergeRow(db, table, target, updates, returning, p);
            var u := r.result.value;
            var t := db.tables[table];
            && r.result.Ok?
            && r.db.staging == db.staging && r.db.tempConstraint == db.tempConstraint
            && r.db.tables.Keys == db.tables.Keys
            && (forall other :: other in db.tables && other != table ==> r.db.tables[other] == db.tables[other])
            && (if HasMatch(t, p, target) then
                  && u.id in t && SameKey(p, t[u.id], target)
                  && r.db.tables[table] == t[u.id := UpdatedRow(t[u.id], p, updates)]
                  && r.db.nextId == db.nextId
                else
                  && u.id == db.nextId
                  && r.db.tables[table] == t[u.id := p]
                  && r.db.nextId == db.nextId + 1)
            && u.id in r.db.tables[table]
            && u.ret == if returning.Some? && returning.value in r.db.tables[table][u.id]
                        then Some(r.db.tables[table][u.id][returning.value]) else None
  {
  }

  /** With every statement accepted, `upsert` is the merge of the proposed row followed by
      the clean-up. */
  lemma UpsertIsMerge(schema: Schema, db: Db, table: string, data: seq<Field>, pk: seq<string>,
                      returning: Option<string>)
    requires SchemaOk(schema) && WellFormed(schema, db) && DistinctColumns(data)
    requires Accepts(schema, db, table, data, pk, returning)
    ensures var db2 := CreateTmp(schema, db, table, data).db.(tempConstraint := Some(Constraint(table, pk)));
            var mr := MergeRow(db2, table, pk, ConflictColumns(Columns(data), pk), returning,
                               Proposed(schema, table, ToRow(data), Columns(data), db.nextId));
            Upsert(schema, db, table, data, pk, returning)
            == Step(DropTmp(mr.db.(tempConstraint := None), TmpName(table)), mr.result)
  {
    var s1 := CreateTmp(schema, db, table, data);
    assert s1.result == Ok(TmpName(table));
    ConstrainWellFormed(schema, s1.db, table, pk);
    var db2 := s1.db.(tempConstraint := Some(Constraint(table, pk)));
    BuiltMergeFails(schema, db2, table, TmpName(table), data, pk, returning);
    ConstrainedIsMerge(schema, s1.db, table, data, pk, returning);
    CleanUpAfterMerge(db2, table, pk, ConflictColumns(Columns(data), pk), returning,
                      Proposed(schema, table, ToRow(data), Columns(data), db.nextId));
  }

  /** Once the row is staged, an accepted constraint and merge make `upsert` the merge of
      the proposed row followed by the clean-up. */
  lemma ConstrainedIsMerge(schema: Schema, db: Db, table: string, data: seq<Field>, pk: seq<string>,
                           returning: Option<string>)
    requires SchemaOk(schema) && WellFormed(schema, db) && table in schema.columns
    requires db.tempConstraint.None? && pk != [] && (forall c :: c in pk ==> c in schema.columns[table])
    requires UniqueOn(db.tables[table], pk)
    requires !MergeFails(schema, db.(tempConstraint := Some(Constraint(table, pk))),
                         BuildMerge(table, TmpName(table), data, pk, returning))
    ensures Constrained(schema, db, table, TmpName(table), data, pk, returning)
            == CleanUp(MergeRow(db.(tempConstraint := Some(Constraint(table, pk))), table, pk,
                                ConflictColumns(Columns(data), pk), returning,
                                Proposed(schema, table, ToRow(data), Columns(data), db.nextId)),
                       table, TmpName(table))
  {
    ConstrainWellFormed(schema, db, table, pk);
  }

  /** The merge leaves the constraint in place, so the clean-up after it goes through. */
  lemma CleanUpAfterMerge(db: Db, table: string, pk: seq<string>, updates: seq<string>,
                          returning: Option<string>, p: Row)
    requires table in db.tables && db.tempConstraint == Some(Constraint(table, pk))
    ensures var mr := MergeRow(db, table, pk, updates, returning, p);
            CleanUp(mr, table, TmpName(table)) == Step(DropTmp(mr.db.(tempConstraint := None), TmpName(table)), mr.result)
  {
    MergeRowEffect(db, table, pk, updates, returning, p);
  }

  // ---------------------------------------------------------------- what a success writes

  /** The `RETURNING` value of a written row. */
  function Returned(row: Row, returning: Option<string>): (v: Option<Value>)
    ensures v.Some? <==> returning.Some? && returning.value in row
    ensures v.Some? ==> v.value == row[returning.value]
  {
    if returning.Some? && returning.value in row then Some(row[returning.value]) else None
  }

  /** What a successful `upsert` does, stated on the dict rather than on the statements: the
      row carrying the dict's key gets the dict's non-key columns, or else a new row is added
      under the next id; the staging table and the constraint are gone afterwards. */
  ghost function Written(schema: Schema, db: Db, table: string, data: seq<Field>, pk: seq<string>,
                         returning: Option<string>): (r: Step<Upserted>)
    requires table in schema.columns && table in db.tables
    ensures r.result.Ok? && r.db.tempConstraint == db.tempConstraint
    ensures r.db.staging == db.staging - {TmpName(table)}
    ensures r.db.tables.Keys == db.tables.Keys
    ensures forall other :: other in db.tables && other != table ==> r.db.tables[other] == db.tables[other]
    ensures r.result.value.id in r.db.tables[table]
    ensures r.result.value.ret == Returned(r.db.tables[table][r.result.value.id], returning)
  {
    var t := db.tables[table];
    var key := ToRow(data);
    var rest := db.(staging := db.staging - {TmpName(table)});
    if HasMatch(t, key, pk) then
      var id :| id in t && SameKey(key, t[id], pk);
      var row := t[id] + Restrict(key, UpdateColumns(data, pk));
      Step(PutRow(rest, table, id, row), Ok(Upserted(id, Returned(row, returning))))
    else
      var row := Proposed(schema, table, key, Columns(data), db.nextId);
      Step(PutRow(rest, table, db.nextId, row).(nextId := db.nextId + 1),
           Ok(Upserted(db.nextId, Returned(row, returning))))
  }

  /** With every statement accepted, the five statements of `upsert` write what `Written`
      says. */
  lemma UpsertWrites(schema: Schema, db: Db, table: string, data: seq<Field>, pk: seq<string>,
                     returning: Option<string>)
    requires SchemaOk(schema) && WellFormed(schema, db) && DistinctColumns(data)
    requires forall c :: c in pk ==> c in ToRow(data)
    requires Accepts(schema, db, table, data, pk, returning)
    ensures Upsert(schema, db, table, data, pk, returning) == Written(schema, db, table, data, pk, returning)
  {
    UpsertIsMerge(schema, db, table, data, pk, returning);
    var db2 := CreateTmp(schema, db, table, data).db.(tempConstraint := Some(Constraint(table, pk)));
    CreateTmpFrame(schema, db, table, data);
    MergeIsWritten(schema, db, db2, table, data, pk, returning);
  }

  /** Staging touches the staging table of the name and nothing else. */
  lemma CreateTmpFrame(schema: Schema, db: Db, table: string, data: seq<Field>)
    ensures var db1 := CreateTmp(schema, db, table, data).db;
            && db1.tables == db.tables && db1.nextId == db.nextId && db1.tempConstraint == db.tempConstraint
            && db1.staging - {TmpName(table)} == db.staging - {TmpName(table)}
  {
    var tmp := TmpName(table);
    var db1 := CreateTmp(schema, db, table, data).db;
    if tmp in db1.staging {
      assert db1.staging - {tmp} == (db.staging - {tmp})[tmp := db1.staging[tmp]] - {tmp};
    }
  }

  /** The merge of the proposed row, followed by the clean-up, writes what `Written` says,
      from any store that differs from `db` only in its staging table and constraint. */
  lemma MergeIsWritten(schema: Schema, db: Db, db2: Db, table: string, data: seq<Field>, pk: seq<string>,
                       returning: Option<string>)
    requires SchemaOk(schema) && table in schema.columns && table in db.tables
    requires forall i :: 0 <= i < |data| ==> data[i].column in schema.columns[table]
    requires forall c :: c in pk ==> c in ToRow(data)
    requires UniqueOn(db.tables[table], pk) && db.tempConstraint.None?
    requires db2.tables == db.tables && db2.nextId == db.nextId
    requires db2.staging - {TmpName(table)} == db.staging - {TmpName(table)}
    ensures var mr := MergeRow(db2, table, pk, ConflictColumns(Columns(data), pk), returning,
                               Proposed(schema, table, ToRow(data), Columns(data), db.nextId));
            Step(DropTmp(mr.db.(tempConstraint := None), TmpName(table)), mr.result)
            == Written(schema, db, table, data, pk, returning)
  {
    MergeMatchesDict(schema, table, data, pk, db.nextId, db.tables[table]);
    if HasMatch(db.tables[table], ToRow(data), pk) {
      MergeUpdateIsWritten(schema, db, db2, table, data, pk, returning);
    } else {
      MergeInsertIsWritten(schema, db, db2, table, data, pk, returning);
    }
  }

  lemma MergeUpdateIsWritten(schema: Schema, db: Db, db2: Db, table: string, data: seq<Field>, pk: seq<string>,
                       returning: Option<string>)
    requires SchemaOk(schema) && table in schema.columns && table in db.tables
    requires forall i :: 0 <= i < |data| ==> data[i].column in schema.columns[table]
    requires forall c :: c in pk ==> c in ToRow(data)
    requires UniqueOn(db.tables[table], pk) && db.tempConstraint.None?
    requires db2.tables == db.tables && db2.nextId == db.nextId
    requires db2.staging - {TmpName(table)} == db.staging - {TmpName(table)}
    requires HasMatch(db.tables[table], ToRow(data), pk)
    requires HasMatch(db.tables[table], Proposed(schema, table, ToRow(data), Columns(data), db.nextId), pk)
    ensures var mr := MergeRow(db2, table, pk, ConflictColumns(Columns(data), pk), returning,
                               Proposed(schema, table, ToRow(data), Columns(data), db.nextId));
            Step(DropTmp(mr.db.(tempConstraint := None), TmpName(table)), mr.result)
            == Written(schema, db, table, data, pk, returning)
  {
    var p := Proposed(schema, table, ToRow(data), Columns(data), db.nextId);
    var mr := MergeRow(db2, table, pk, ConflictColumns(Columns(data), pk), returning, p);
    var w := Written(schema, db, table, data, pk, returning);
    MergeUpdateParts(schema, db, db2, table, data, pk, returning);
    var d := DropTmp(mr.db.(tempConstraint := None), TmpName(table));
    assert d.staging == w.db.staging;
    assert d == w.db;
  }

  /** The update branch of the merge: the row it rewrites is the one `Written` picks. */
  lemma MergeUpdateParts(schema: Schema, db: Db, db2: Db, table: string, data: seq<Field>, pk: seq<string>,
                         returning: Option<string>)
    requires SchemaOk(schema) && table in schema.columns && table in db.tables
    requires forall i :: 0 <= i < |data| ==> data[i].column in schema.columns[table]
    requires forall c :: c in pk ==> c in ToRow(data)
    requires UniqueOn(db.tables[table], pk) && db.tempConstraint.None?
    requires db2.tables == db.tables && db2.nextId == db.nextId
    requires HasMatch(db.tables[table], ToRow(data), pk)
    requires HasMatch(db.tables[table], Proposed(schema, table, ToRow(data), Columns(data), db.nextId), pk)
    ensures var mr := MergeRow(db2, table, pk, ConflictColumns(Columns(data), pk), returning,
                               Proposed(schema, table, ToRow(data), Columns(data), db.nextId));
            var w := Written(schema, db, table, data, pk, returning);
            && mr.result == w.result && mr.db.tables == w.db.tables
            && mr.db.nextId == db.nextId && w.db.nextId == db.nextId
            && mr.db.staging == db2.staging
  {
    var t := db.tables[table];
    var p := Proposed(schema, table, ToRow(data), Columns(data), db.nextId);
    var mr := MergeRow(db2, table, pk, ConflictColumns(Columns(data), pk), returning, p);
    MergeRowEffect(db2, table, pk, ConflictColumns(Columns(data), pk), returning, p);
    var w := Written(schema, db, table, data, pk, returning);
    MergeMatchesDict(schema, table, data, pk, db.nextId, t);
    OneMatch(t, ToRow(data), pk, mr.result.value.id, w.result.value.id);
    UpdateAgrees(schema, table, data, pk, db.nextId, t[mr.result.value.id]);
    assert mr.result.value.id == w.result.value.id;
    assert mr.db.tables == w.db.tables;
  }

  lemma MergeInsertIsWritten(schema: Schema, db: Db, db2: Db, table: string, data: seq<Field>, pk: seq<string>,
                       returning: Option<string>)
    requires SchemaOk(schema) && table in schema.columns && table in db.tables
    requires forall i :: 0 <= i < |data| ==> data[i].column in schema.columns[table]
    requires forall c :: c in pk ==> c in ToRow(data)
    requires UniqueOn(db.tables[table], pk) && db.tempConstraint.None?
    requires db2.tables == db.tables && db2.nextId == db.nextId
    requires db2.staging - {TmpName(table)} == db.staging - {TmpName(table)}
    requires !HasMatch(db.tables[table], ToRow(data), pk)
    requires !HasMatch(db.tables[table], Proposed(schema, table, ToRow(data), Columns(data), db.nextId), pk)
    ensures var mr := MergeRow(db2, table, pk, ConflictColumns(Columns(data), pk), returning,
                               Proposed(schema, table, ToRow(data), Columns(data), db.nextId));
            Step(DropTmp(mr.db.(tempConstraint := None), TmpName(table)), mr.result)
            == Written(schema, db, table, data, pk, returning)
  {
    var t := db.tables[table];
    var p := Proposed(schema, table, ToRow(data), Columns(data), db.nextId);
    var mr := MergeRow(db2, table, pk, ConflictColumns(Columns(data), pk), returning, p);
    MergeRowEffect(db2, table, pk, ConflictColumns(Columns(data), pk), returning, p);
    var w := Written(schema, db, table, data, pk, returning);
    assert mr.db.tables == w.db.tables;
  }

  /** The merge conflicts on the proposed row exactly where the dict's key conflicts. */
  lemma MergeMatchesDict(schema: Schema, table: string, data: seq<Field>, pk: seq<string>, id: nat, t: Table)
    requires SchemaOk(schema) && table in schema.columns
    requires forall i :: 0 <= i < |data| ==> data[i].column in schema.columns[table]
    requires forall c :: c in pk ==> c in ToRow(data)
    ensures forall j :: j in t ==>
              (SameKey(Proposed(schema, table, ToRow(data), Columns(data), id), t[j], pk) <==> SameKey(ToRow(data), t[j], pk))
    ensures HasMatch(t, Proposed(schema, table, ToRow(data), Columns(data), id), pk) <==> HasMatch(t, ToRow(data), pk)
  {
    forall j | j in t
      ensures SameKey(Proposed(schema, table, ToRow(data), Columns(data), id), t[j], pk) <==> SameKey(ToRow(data), t[j], pk)
    {
      ProposedKey(schema, table, data, id, pk, t[j]);
    }
  }

  /** The merge's update takes the same values from the proposed row as from the dict. */
  lemma UpdateAgrees(schema: Schema, table: string, data: seq<Field>, pk: seq<string>, id: nat, row: Row)
    requires SchemaOk(schema) && table in schema.columns
    requires forall i :: 0 <= i < |data| ==> data[i].column in schema.columns[table]
    ensures UpdatedRow(row, Proposed(schema, table, ToRow(data), Columns(data), id), ConflictColumns(Columns(data), pk))
            == row + Restrict(ToRow(data), UpdateColumns(data, pk))
  {
    ProposedAgrees(schema, table, data, id);
    ColumnsAre(data);
    RestrictAgree(Proposed(schema, table, ToRow(data), Columns(data), id), ToRow(data), UpdateColumns(data, pk));
  }

  /** In a table unique on the key, at most one row conflicts with a given key. */
  lemma OneMatch(t: Table, key: Row, pk: seq<string>, i: nat, j: nat)
    requires UniqueOn(t, pk)
    requires i in t && SameKey(key, t[i], pk)
    requires j in t && SameKey(key, t[j], pk)
    ensures i == j
  {
    if i != j {
      assert SameKey(t[i], t[j], pk);
    }
  }

  // ---------------------------------------------------------------- upsert by outcome

  /** The store a refused `upsert` leaves, and the statement that raised: the staging table
      when the clone went through, the constraint when it was added. */
  function Refused(schema: Schema, db: Db, table: string, data: seq<Field>, pk: seq<string>): (r: Step<Upserted>)
    ensures r.result.Err? && r.result.error.table == table
    ensures r.db.tables == db.tables && r.db.nextId == db.nextId
  {
    var tmp := TmpName(table);
    var db1 := DropTmp(db, tmp);
    if table !in schema.columns then Step(db1, Err(ConnectionError(StageCreate, table)))
    else if data == [] || exists i :: 0 <= i < |data| && data[i].column !in schema.columns[table] then
      Step(db1.(staging := db1.staging[tmp := []]), Err(ConnectionError(StageCreate, table)))
    else
      var staged := db1.(staging := db1.staging[tmp := [ToRow(data)]]);
      if || db.tempConstraint.Some? || pk == [] || (exists c :: c in pk && c !in schema.columns[table])
         || table !in db.tables || !UniqueOn(db.tables[table], pk)
      then Step(staged, Err(ConnectionError(StageConstrain, table)))
      else Step(staged.(tempConstraint := Some(Constraint(table, pk))), Err(ConnectionError(StageMerge, table)))
  }

  /** `upsert` by outcome: what `Written` says when every statement is accepted, what
      `Refused` says otherwise. */
  ghost function UpsertSpec(schema: Schema, db: Db, table: string, data: seq<Field>, pk: seq<string>,
                            returning: Option<string>): (r: Step<Upserted>)
    ensures r.result.Ok? <==> Accepts(schema, db, table, data, pk, returning)
  {
    if Accepts(schema, db, table, data, pk, returning) then Written(schema, db, table, data, pk, returning)
    else Refused(schema, db, table, data, pk)
  }

  /** The five statements of `upsert` do what `UpsertSpec` says, for every input whose
      key columns are among the dict's. */
  lemma UpsertIsSpec(schema: Schema, db: Db, table: string, data: seq<Field>, pk: seq<string>,
                     returning: Option<string>)
    requires SchemaOk(schema) && WellFormed(schema, db) && DistinctColumns(data)
    requires forall c :: c in pk ==> c in ToRow(data)
    ensures Upsert(schema, db, table, data, pk, returning) == UpsertSpec(schema, db, table, data, pk, returning)
  {
    if Accepts(schema, db, table, data, pk, returning) {
      UpsertWrites(schema, db, table, data, pk, returning);
    } else {
      UpsertRefused(schema, db, table, data, pk, returning);
    }
  }

  lemma UpsertRefused(schema: Schema, db: Db, table: string, data: seq<Field>, pk: seq<string>,
                      returning: Option<string>)
    requires SchemaOk(schema) && WellFormed(schema, db) && DistinctColumns(data)
    requires !Accepts(schema, db, table, data, pk, returning)
    ensures Upsert(schema, db, table, data, pk, returning) == Refused(schema, db, table, data, pk)
  {
    var s1 := CreateTmp(schema, db, table, data);
    if s1.result.Ok? {
      var s2 := AddConstraint(schema, s1.db, table, pk);
      if s2.result.Ok? {
        ConstrainWellFormed(schema, s1.db, table, pk);
        BuiltMergeFails(schema, s2.db, table, s1.result.value, data, pk, returning);
      }
    }
  }

  // ---------------------------------------------------------------- core/db_utils.py's revision

  /** The conditions under which the staging and the constraint go through: `Accepts`
      without the two that only the merge checks. */
  predicate Staged(schema: Schema, db: Db, table: string, data: seq<Field>, pk: seq<string>)
  {
    && table in schema.columns && table in db.tables
    && data != []
    && (forall i :: 0 <= i < |data| ==> data[i].column in schema.columns[table])
    && db.tempConstraint.None?
    && pk != []
    && (forall c :: c in pk ==> c in schema.columns[table])
    && UniqueOn(db.tables[table], pk)
  }

  /** core/db_utils.py's `upsert` by outcome. Asked for a column, it is `UpsertSpec`. Asked
      for none, it never runs the merge: when the staging and the constraint go through,
      it drops the staging table and returns `None` with every table and the sequence as
      they were; otherwise it fails as `Refused` says. */
  ghost function CoreSpec(schema: Schema, db: Db, table: string, data: seq<Field>, pk: seq<string>,
                          returning: Option<string>): (r: Step<Option<Upserted>>)
    ensures returning.None? ==> r.db.tables == db.tables && r.db.nextId == db.nextId
    ensures returning.None? ==> (r.result.Ok? <==> Staged(schema, db, table, data, pk))
    ensures returning.None? && r.result.Ok? ==> r.result.value.None?
    ensures returning.Some? ==> (r.result.Ok? <==> Accepts(schema, db, table, data, pk, returning))
    ensures returning.Some? && r.result.Ok? ==> r.result.value.Some?
  {
    if returning.Some? then
      var s := UpsertSpec(schema, db, table, data, pk, returning);
      Step(s.db, if s.result.Ok? then Ok(Some(s.result.value)) else Err(s.result.error))
    else if Staged(schema, db, table, data, pk) then Step(DropTmp(db, TmpName(table)), Ok(None))
    else
      var s := Refused(schema, db, table, data, pk);
      Step(s.db, Err(s.result.error))
  }

  /** The statements core/db_utils.py's `upsert` runs do what `CoreSpec` says. */
  lemma CoreUpsertIsSpec(schema: Schema, db: Db, table: string, data: seq<Field>, pk: seq<string>,
                         returning: Option<string>)
    requires SchemaOk(schema) && WellFormed(schema, db) && DistinctColumns(data)
    requires forall c :: c in pk ==> c in ToRow(data)
    ensures CoreUpsert(schema, db, table, data, pk, returning) == CoreSpec(schema, db, table, data, pk, returning)
  {
    if returning.Some? {
      UpsertIsSpec(schema, db, table, data, pk, returning);
    }
  }

  // ---------------------------------------------------------------- what the write means

  /** Every column of `values` is in `row` with the same value. */
  predicate Holds(row: Row, values: Row)
  {
    forall c :: c in values ==> c in row && row[c] == values[c]
  }

  /** Updating only the non-key columns of a row whose key already matches the dict is
      writing the whole dict onto it. */
  lemma KeyedUpdate(row: Row, data: seq<Field>, pk: seq<string>)
    requires SameKey(ToRow(data), row, pk)
    ensures row + Restrict(ToRow(data), UpdateColumns(data, pk)) == row + ToRow(data)
  {
    var key := ToRow(data);
    var r := Restrict(key, UpdateColumns(data, pk));
    ColumnsAre(data);
    forall c | c in key && c !in r ensures c in row && row[c] == key[c] {
      assert c in SetOf(Columns(data));
      assert c in pk;
    }
    UnionOfPart(row, key, r);
  }

  /** Laying part of `key` over `row` is laying all of it, when `row` already holds the rest. */
  lemma UnionOfPart(row: Row, key: Row, r: Row)
    requires r.Keys <= key.Keys && forall c :: c in r ==> r[c] == key[c]
    requires forall c :: c in key && c !in r ==> c in row && row[c] == key[c]
    ensures row + r == row + key
  {
    assert (row + r).Keys == (row + key).Keys;
  }

  /** The row an insert adds: the table's columns, the dict's values in the dict's columns,
      the new id in the serial column when the dict leaves it out, NULL everywhere else. */
  lemma ProposedRow(schema: Schema, table: string, data: seq<Field>, id: nat)
    requires SchemaOk(schema) && table in schema.columns
    requires forall i :: 0 <= i < |data| ==> data[i].column in schema.columns[table]
    ensures var p := Proposed(schema, table, ToRow(data), Columns(data), id);
            && p.Keys == schema.columns[table]
            && Holds(p, ToRow(data))
            && (forall c :: c in p && c !in ToRow(data) ==>
                  p[c] == if table in schema.serial && c == schema.serial[table] then Int(id) else Null)
  {
    ProposedAgrees(schema, table, data, id);
    ColumnsAre(data);
  }

  /** When a row already carries the dict's key, the write goes to that row, which keeps its
      id and every column outside the dict, and no id is drawn. */
  lemma WrittenUpdates(schema: Schema, db: Db, table: string, data: seq<Field>, pk: seq<string>,
                       returning: Option<string>, id: nat)
    requires table in schema.columns && table in db.tables && UniqueOn(db.tables[table], pk)
    requires id in db.tables[table] && SameKey(ToRow(data), db.tables[table][id], pk)
    ensures var w := Written(schema, db, table, data, pk, returning);
            var t: Table := db.tables[table];
            && w.result.value.id == id && w.db.nextId == db.nextId
            && w.db.tables[table] == t[id := t[id] + ToRow(data)]
            && w.db.tables == db.tables[table := t[id := t[id] + ToRow(data)]]
  {
    var w := Written(schema, db, table, data, pk, returning);
    var t := db.tables[table];
    assert HasMatch(t, ToRow(data), pk);
    OneMatch(t, ToRow(data), pk, w.result.value.id, id);
    KeyedUpdate(t[id], data, pk);
  }

  /** When no row carries the dict's key, the write adds one row, under the next id. */
  lemma WrittenInserts(schema: Schema, db: Db, table: string, data: seq<Field>, pk: seq<string>,
                       returning: Option<string>)
    requires WellFormed(schema, db) && table in schema.columns
    requires forall j :: j in db.tables[table] ==> !SameKey(ToRow(data), db.tables[table][j], pk)
    ensures var w := Written(schema, db, table, data, pk, returning);
            var t: Table := db.tables[table];
            && w.result.value.id == db.nextId && db.nextId !in t && w.db.nextId == db.nextId + 1
            && w.db.tables[table] == t[db.nextId := Proposed(schema, table, ToRow(data), Columns(data), db.nextId)]
            && w.db.tables == db.tables[table := t[db.nextId := Proposed(schema, table, ToRow(data), Columns(data), db.nextId)]]
            && |w.db.tables[table]| == |t| + 1
  {
  }

  /** After the write, the table is still unique on the key columns. */
  lemma WrittenKeepsUnique(schema: Schema, db: Db, table: string, data: seq<Field>, pk: seq<string>,
                           returning: Option<string>)
    requires SchemaOk(schema) && WellFormed(schema, db) && table in schema.columns
    requires forall i :: 0 <= i < |data| ==> data[i].column in schema.columns[table]
    requires forall c :: c in pk ==> c in ToRow(data)
    requires UniqueOn(db.tables[table], pk)
    ensures UniqueOn(Written(schema, db, table, data, pk, returning).db.tables[table], pk)
  {
    var t := db.tables[table];
    var key := ToRow(data);
    if HasMatch(t, key, pk) {
      var id :| id in t && SameKey(key, t[id], pk);
      WrittenUpdates(schema, db, table, data, pk, returning, id);
      var row := t[id] + key;
      forall c | c in pk ensures (c in row <==> c in t[id]) && (c in row ==> row[c] == t[id][c]) {
      }
      UpdateKeepsUnique(t, id, row, pk);
    } else {
      var p := Proposed(schema, table, key, Columns(data), db.nextId);
      forall j | j in t ensures !SameKey(p, t[j], pk) {
        ProposedKey(schema, table, data, db.nextId, pk, t[j]);
      }
      InsertKeepsUnique(t, db.nextId, p, pk);
    }
  }

  /** The dict's key is complete: every key column has a non-NULL value. */
  predicate KeyComplete(data: seq<Field>, pk: seq<string>)
  {
    forall c :: c in pk ==> c in ToRow(data) && ToRow(data)[c] != Null
  }

  /** The written row holds the dict's values; with a complete key it is the one row of the
      table carrying that key. */
  lemma WrittenExactlyOne(schema: Schema, db: Db, table: string, data: seq<Field>, pk: seq<string>,
                          returning: Option<string>)
    requires SchemaOk(schema) && WellFormed(schema, db) && table in schema.columns
    requires forall i :: 0 <= i < |data| ==> data[i].column in schema.columns[table]
    requires KeyComplete(data, pk) && UniqueOn(db.tables[table], pk)
    ensures var w := Written(schema, db, table, data, pk, returning);
            var t' := w.db.tables[table];
            && Holds(t'[w.result.value.id], ToRow(data))
            && SameKey(ToRow(data), t'[w.result.value.id], pk)
            && forall id :: id in t' && SameKey(ToRow(data), t'[id], pk) ==> id == w.result.value.id
  {
    var w := Written(schema, db, table, data, pk, returning);
    var t := db.tables[table];
    var key := ToRow(data);
    if HasMatch(t, key, pk) {
      var id :| id in t && SameKey(key, t[id], pk);
      WrittenUpdates(schema, db, table, data, pk, returning, id);
    } else {
      ProposedRow(schema, table, data, db.nextId);
    }
    WrittenKeepsUnique(schema, db, table, data, pk, returning);
    var t' := w.db.tables[table];
    forall id | id in t' && SameKey(key, t'[id], pk) ensures id == w.result.value.id {
      OneMatch(t', key, pk, id, w.result.value.id);
    }
  }

  /** Writing a dict the matching row already holds changes nothing. */
  lemma WrittenHeldIsNoOp(schema: Schema, db: Db, table: string, data: seq<Field>, pk: seq<string>,
                          returning: Option<string>, id: nat)
    requires table in schema.columns && table in db.tables && UniqueOn(db.tables[table], pk)
    requires id in db.tables[table] && SameKey(ToRow(data), db.tables[table][id], pk)
    requires Holds(db.tables[table][id], ToRow(data))
    ensures var w := Written(schema, db, table, data, pk, returning);
            w.db.tables == db.tables && w.db.nextId == db.nextId && w.result.value.id == id
  {
    var w := Written(schema, db, table, data, pk, returning);
    var t := db.tables[table];
    WrittenUpdates(schema, db, table, data, pk, returning, id);
    UpdateHeld(db.tables, table, id, ToRow(data));
  }

  /** Laying over a row values it already holds changes no table. */
  lemma UpdateHeld(tables: map<string, Table>, table: string, id: nat, key: Row)
    requires table in tables && id in tables[table] && Holds(tables[table][id], key)
    ensures var t: Table := tables[table];
            tables[table := t[id := t[id] + key]] == tables
  {
    var t: Table := tables[table];
    assert t[id] + key == t[id];
    assert t[id := t[id]] == t;
  }

  /** `UpsertSpec` keeps the store well formed. */
  lemma UpsertSpecWellFormed(schema: Schema, db: Db, table: string, data: seq<Field>, pk: seq<string>,
                             returning: Option<string>)
    requires SchemaOk(schema) && WellFormed(schema, db)
    ensures WellFormed(schema, UpsertSpec(schema, db, table, data, pk, returning).db)
  {
    if Accepts(schema, db, table, data, pk, returning) {
      WrittenWellFormed(schema, db, table, data, pk, returning);
    }
  }

  lemma WrittenWellFormed(schema: Schema, db: Db, table: string, data: seq<Field>, pk: seq<string>,
                          returning: Option<string>)
    requires SchemaOk(schema) && WellFormed(schema, db) && table in schema.columns && db.tempConstraint.None?
    requires forall i :: 0 <= i < |data| ==> data[i].column in schema.columns[table]
    ensures WellFormed(schema, Written(schema, db, table, data, pk, returning).db)
  {
    var t := db.tables[table];
    var key := ToRow(data);
    var rest := db.(staging := db.staging - {TmpName(table)});
    if HasMatch(t, key, pk) {
      var id := Written(schema, db, table, data, pk, returning).result.value.id;
      PutRowUnconstrained(schema, rest, table, id, t[id] + Restrict(key, UpdateColumns(data, pk)), db.nextId);
    } else {
      ProposedRow(schema, table, data, db.nextId);
      PutRowUnconstrained(schema, rest, table, db.nextId, Proposed(schema, table, key, Columns(data), db.nextId), db.nextId + 1);
    }
  }

  lemma PutRowUnconstrained(schema: Schema, db: Db, table: string, id: nat, row: Row, next: nat)
    requires WellFormed(schema, db) && table in db.tables && db.tempConstraint.None?
    requires row.Keys == schema.columns[table] && id < next && db.nextId <= next
    ensures WellFormed(schema, PutRow(db, table, id, row).(nextId := next))
  {
  }
}
