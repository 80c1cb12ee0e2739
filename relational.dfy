/** The relational store the upsert engine works against (core/db_utils.py and
    db/db_utils.py, which issue the same statements), reduced to what
    the engine's statements can observe: tables of rows keyed by an internal row handle, a
    fresh-id counter standing in for the serial sequences, the staging tables `tmp_<table>`,
    and the schema-wide index name `temp_constraint`.

    Each statement the engine issues is a specification function from a store to a `Step`:
    the store afterwards and either a result or the `ConnectionError` the engine raises. */
module Relational {
  import opened Wrappers
  import opened DateTimes

  datatype Value = Null | Int(i: int) | Text(s: string) | Stamp(t: DateTime)

  /** A row: column name to value. Every row of a table has exactly the table's columns. */
  type Row = map<string, Value>

  /** A table: row handle to row. For a table with a serial column, the handle is the id. */
  type Table = map<nat, Row>

  /** One entry of the ordered `data_dict` handed to `upsert`. */
  datatype Field = Field(column: string, value: Value)

  /** Column names and, per table, its SERIAL column when it has one. */
  datatype Schema = Schema(columns: map<string, set<string>>, serial: map<string, string>)

  /** The temporary unique constraint: the table it is on and its columns. */
  datatype Constraint = Constraint(table: string, columns: seq<string>)

  datatype Db = Db(tables: map<string, Table>, nextId: nat, staging: map<string, seq<Row>>,
                   tempConstraint: Option<Constraint>)

  /** Which of the engine's statements failed; each raises `ConnectionError` with its own message. */
  datatype Stage = StageCreate | StageConstrain | StageMerge | StageUnconstrain | StageDrop

  datatype DbError = ConnectionError(stage: Stage, table: string)

  /** The store after a statement, and what the statement produced or the error it raised. */
  datatype Step<T> = Step(db: Db, result: Result<T, DbError>)

  /** The row the merge wrote and the `RETURNING` value, if one was asked for. */
  datatype Upserted = Upserted(id: nat, ret: Option<Value>)

  // ---------------------------------------------------------------- rows and data

  function Columns(data: seq<Field>): (cs: seq<string>)
    ensures |cs| == |data|
    ensures forall i :: 0 <= i < |data| ==> cs[i] == data[i].column
  {
    if data == [] then [] else Columns(data[..|data| - 1]) + [data[|data| - 1].column]
  }

  /** A Python dict never repeats a key. */
  predicate DistinctColumns(data: seq<Field>)
  {
    forall i, j :: 0 <= i < j < |data| ==> data[i].column != data[j].column
  }

  /** The dict as a row. */
  function ToRow(data: seq<Field>): (r: Row)
    ensures r.Keys == set i | 0 <= i < |data| :: data[i].column
  {
    if data == [] then map[]
    else ToRow(data[..|data| - 1])[data[|data| - 1].column := data[|data| - 1].value]
  }

  lemma {:induction false} ToRowAt(data: seq<Field>, i: int)
    requires DistinctColumns(data) && 0 <= i < |data|
    ensures ToRow(data)[data[i].column] == data[i].value
  {
    if i < |data| - 1 {
      ToRowAt(data[..|data| - 1], i);
    }
  }

  /** A dict whose columns are the distinct names `cs`, in order: no column repeats, its
      keys are exactly `cs`, and each name maps to its own entry's value. */
  lemma FieldsNamed(data: seq<Field>, cs: seq<string>)
    requires |data| == |cs| && forall i :: 0 <= i < |data| ==> data[i].column == cs[i]
    requires forall i, j :: 0 <= i < j < |cs| ==> cs[i] != cs[j]
    ensures DistinctColumns(data)
    ensures forall c :: c in ToRow(data) <==> c in cs
    ensures forall i :: 0 <= i < |data| ==> ToRow(data)[cs[i]] == data[i].value
  {
    forall c | c in cs ensures c in ToRow(data) {
      var i :| 0 <= i < |cs| && cs[i] == c;
      assert data[i].column == c;
    }
    forall i | 0 <= i < |data| ensures ToRow(data)[cs[i]] == data[i].value {
      ToRowAt(data, i);
    }
  }

  /** The columns of a column list. */
  function SetOf(cols: seq<string>): (r: set<string>)
    ensures forall c :: c in r <==> c in cols
  {
    set c | c in cols
  }

  /** The row restricted to the given columns. */
  function Restrict(r: Row, cols: set<string>): (s: Row)
    ensures s.Keys == r.Keys * cols
    ensures forall c :: c in s ==> s[c] == r[c]
  {
    map c | c in r.Keys * cols :: r[c]
  }

  /** A fresh row: every column NULL (none of the tables declares another default). */
  function Defaults(cols: set<string>): (r: Row)
    ensures r.Keys == cols && forall c :: c in r ==> r[c] == Null
  {
    map c | c in cols :: Null
  }

  /** Two rows conflict on `pk`: every key column is present, non-NULL and equal. Under SQL's
      UNIQUE semantics a NULL in the key never conflicts with anything. */
  predicate SameKey(a: Row, b: Row, pk: seq<string>)
  {
    forall c :: c in pk ==> c in a && c in b && a[c] != Null && a[c] == b[c]
  }

  /** What `UNIQUE (pk)` demands of a table. */
  predicate UniqueOn(t: Table, pk: seq<string>)
  {
    forall i, j :: i in t && j in t && i != j ==> !SameKey(t[i], t[j], pk)
  }

  // ---------------------------------------------------------------- well-formed stores

  predicate SchemaOk(schema: Schema)
  {
    forall t :: t in schema.serial ==> t in schema.columns && schema.serial[t] in schema.columns[t]
  }

  /** Every declared table exists, its rows have exactly its columns, the counter is past
      every handle in use, and the table carrying `temp_constraint` satisfies it. */
  predicate WellFormed(schema: Schema, db: Db)
  {
    && db.tables.Keys == schema.columns.Keys
    && (forall t, id :: t in db.tables && id in db.tables[t] ==>
          db.tables[t][id].Keys == schema.columns[t] && id < db.nextId)
    && (db.tempConstraint.Some? ==>
          && db.tempConstraint.value.table in db.tables
          && UniqueOn(db.tables[db.tempConstraint.value.table], db.tempConstraint.value.columns))
  }

  // ---------------------------------------------------------------- the engine's statements

  function TmpName(table: string): string
  {
    "tmp_" + table
  }

  /** `DROP TABLE IF EXISTS name CASCADE`: removes the staging table when present, never fails. */
  function DropTmp(db: Db, name: string): (r: Db)
    ensures name !in r.staging
    ensures forall n :: n in r.staging <==> n in db.staging && n != name
    ensures forall n :: n in r.staging ==> r.staging[n] == db.staging[n]
    ensures r.tables == db.tables && r.nextId == db.nextId && r.tempConstraint == db.tempConstraint
  {
    db.(staging := db.staging - {name})
  }

  /** `create_tmp_table`: drop any leftover `tmp_<table>`, clone the table, stage one row.
      The clone fails for an unknown table; the staging INSERT fails for an empty dict or a
      column the table does not have, and then leaves the empty clone behind. */
  function CreateTmp(schema: Schema, db: Db, table: string, data: seq<Field>): Step<string>
  {
    var tmp := TmpName(table);
    var db1 := DropTmp(db, tmp);
    if table !in schema.columns then Step(db1, Err(ConnectionError(StageCreate, table)))
    else if data == [] || exists i :: 0 <= i < |data| && data[i].column !in schema.columns[table] then
      Step(db1.(staging := db1.staging[tmp := []]), Err(ConnectionError(StageCreate, table)))
    else Step(db1.(staging := db1.staging[tmp := [ToRow(data)]]), Ok(tmp))
  }

  /** `ALTER TABLE t ADD CONSTRAINT temp_constraint UNIQUE (pk)`. Index names are schema-wide,
      so a `temp_constraint` left on any table makes it fail; so do an empty or unknown
      column list and rows that already violate the constraint. */
  function AddConstraint(schema: Schema, db: Db, table: string, pk: seq<string>): Step<()>
    requires WellFormed(schema, db)
  {
    if || table !in schema.columns
       || db.tempConstraint.Some?
       || pk == []
       || (exists c :: c in pk && c !in schema.columns[table])
       || !UniqueOn(db.tables[table], pk)
    then Step(db, Err(ConnectionError(StageConstrain, table)))
    else Step(db.(tempConstraint := Some(Constraint(table, pk))), Ok(()))
  }

  /** `ALTER TABLE t DROP CONSTRAINT temp_constraint`. */
  function RemoveConstraint(db: Db, table: string): Step<()>
  {
    if db.tempConstraint.Some? && db.tempConstraint.value.table == table
    then Step(db.(tempConstraint := None), Ok(()))
    else Step(db, Err(ConnectionError(StageUnconstrain, table)))
  }

  /** `[f"{col}=EXCLUDED.{col}" for col in data_dict.keys() if col not in pk_cols]`, by column. */
  function ConflictColumns(cols: seq<string>, pk: seq<string>): (r: seq<string>)
    ensures forall c :: c in r <==> c in cols && c !in pk
  {
    if cols == [] then []
    else ConflictColumns(cols[..|cols| - 1], pk) + (if cols[|cols| - 1] in pk then [] else [cols[|cols| - 1]])
  }

  /** `INSERT INTO t (cols) SELECT cols FROM tmp ON CONFLICT (target) DO UPDATE SET updates
      [RETURNING col]`, as the parts the engine assembles. */
  datatype MergeStatement = MergeStatement(table: string, insertColumns: seq<string>,
                                           selectColumns: seq<string>, source: string,
                                           conflictTarget: seq<string>, updateSet: seq<string>,
                                           returning: Option<string>)

  function BuildMerge(table: string, tmp: string, data: seq<Field>, pk: seq<string>,
                      returning: Option<string>): (m: MergeStatement)
    ensures m.table == table && m.source == tmp && m.conflictTarget == pk && m.returning == returning
  {
    MergeStatement(table, Columns(data), Columns(data), tmp, pk, ConflictColumns(Columns(data), pk), returning)
  }

  /** Is there a unique index that can arbitrate `ON CONFLICT (target)` on this table? */
  predicate Arbiter(db: Db, table: string, target: seq<string>)
  {
    && db.tempConstraint.Some?
    && db.tempConstraint.value.table == table
    && (forall c :: c in db.tempConstraint.value.columns ==> c in target)
    && (forall c :: c in target ==> c in db.tempConstraint.value.columns)
  }

  predicate Distinct(cols: seq<string>)
  {
    forall i, j :: 0 <= i < j < |cols| ==> cols[i] != cols[j]
  }

  predicate MergeFails(schema: Schema, db: Db, m: MergeStatement)
  {
    || m.table !in schema.columns
    || m.source !in db.staging
    || m.updateSet == []                 // "DO UPDATE SET" with nothing after it
    || !Distinct(m.insertColumns)
    || (exists c :: c in m.insertColumns && c !in schema.columns[m.table])
    || (exists c :: c in m.updateSet && c !in schema.columns[m.table])
    || (m.returning.Some? && m.returning.value !in schema.columns[m.table])
    || !Arbiter(db, m.table, m.conflictTarget)
  }

  /** The row the INSERT proposes: NULL defaults, the inserted columns, and the next serial
      value when the table has a serial column. */
  function Proposed(schema: Schema, table: string, staged: Row, cols: seq<string>, id: nat): (r: Row)
    requires table in schema.columns
    ensures SchemaOk(schema) && SetOf(cols) <= schema.columns[table] ==> r.Keys == schema.columns[table]
  {
    var r0 := Defaults(schema.columns[table]) + Restrict(staged, SetOf(cols));
    if table in schema.serial && schema.serial[table] !in cols then r0[schema.serial[table] := Int(id)] else r0
  }

  /** The store with one row of one table written. */
  function PutRow(db: Db, table: string, id: nat, row: Row): (r: Db)
    requires table in db.tables
    ensures r.nextId == db.nextId && r.staging == db.staging && r.tempConstraint == db.tempConstraint
  {
    var t: Table := db.tables[table];
    db.(tables := db.tables[table := t[id := row]])
  }

  /** `DO UPDATE SET c = EXCLUDED.c` for each listed column. */
  function UpdatedRow(row: Row, proposed: Row, updates: seq<string>): Row
  {
    row + Restrict(proposed, SetOf(updates))
  }

  /** Merges a proposed row into a table: when a row's `target` values equal the proposed
      row's, that row's `updates` columns take the proposed values; otherwise the proposed
      row is inserted under a fresh handle. */
  ghost function MergeRow(db: Db, table: string, target: seq<string>, updates: seq<string>,
                          returning: Option<string>, p: Row): Step<Upserted>
    requires table in db.tables
  {
    var t: Table := db.tables[table];
    if exists id :: id in t && SameKey(p, t[id], target) then
      var id :| id in t && SameKey(p, t[id], target);
      var row := UpdatedRow(t[id], p, updates);
      var ret := if returning.Some? && returning.value in row then Some(row[returning.value]) else None;
      Step(PutRow(db, table, id, row), Ok(Upserted(id, ret)))
    else
      var id: nat := db.nextId;
      var ret := if returning.Some? && returning.value in p then Some(p[returning.value]) else None;
      Step(PutRow(db, table, id, p).(nextId := id + 1), Ok(Upserted(id, ret)))
  }

  /** Executes the merge statement against the staged row. */
  ghost function ExecMerge(schema: Schema, db: Db, m: MergeStatement, staged: Row): Step<Upserted>
    requires WellFormed(schema, db)
  {
    if MergeFails(schema, db, m) then Step(db, Err(ConnectionError(StageMerge, m.table)))
    else MergeRow(db, m.table, m.conflictTarget, m.updateSet, m.returning,
                  Proposed(schema, m.table, staged, m.insertColumns, db.nextId))
  }

  /** `upsert(conn, table, data_dict, pk_cols, returning_col)` as db/db_utils.py runs it:
      stage, constrain, merge, unconstrain, drop. An error at any statement is raised at
      once; nothing staged or constrained is cleaned up on that path. core/db_utils.py runs
      the same five statements when a column is asked for (`CoreUpsert`). */
  ghost function Upsert(schema: Schema, db: Db, table: string, data: seq<Field>, pk: seq<string>,
                        returning: Option<string>): (r: Step<Upserted>)
    requires SchemaOk(schema) && WellFormed(schema, db)
    ensures r.result.Ok? ==> r.db.tempConstraint == db.tempConstraint == None
    ensures r.db.tables.Keys == db.tables.Keys
  {
    var s1 := CreateTmp(schema, db, table, data);
    if s1.result.Err? then Step(s1.db, Err(s1.result.error))
    else Constrained(schema, s1.db, table, s1.result.value, data, pk, returning)
  }

  /** The part of `upsert` after staging: constrain, merge, clean up. */
  ghost function Constrained(schema: Schema, db: Db, table: string, tmp: string, data: seq<Field>,
                             pk: seq<string>, returning: Option<string>): Step<Upserted>
    requires SchemaOk(schema) && WellFormed(schema, db)
  {
    var s2 := AddConstraint(schema, db, table, pk);
    if s2.result.Err? then Step(s2.db, Err(s2.result.error))
    else
      ConstrainWellFormed(schema, db, table, pk);
      var s3 := ExecMerge(schema, s2.db, BuildMerge(table, tmp, data, pk, returning), ToRow(data));
      if s3.result.Err? then s3
      else CleanUp(s3, table, tmp)
  }

  /** `upsert` as core/db_utils.py runs it: the merge statement is built either way but
      executed only when `returning` asks for a column; without one, the staged row is
      never merged and the call returns `None` (`Ok(None)` here) after the clean-up. */
  ghost function CoreUpsert(schema: Schema, db: Db, table: string, data: seq<Field>, pk: seq<string>,
                            returning: Option<string>): Step<Option<Upserted>>
    requires SchemaOk(schema) && WellFormed(schema, db)
  {
    if returning.Some? then
      var s := Upsert(schema, db, table, data, pk, returning);
      Step(s.db, if s.result.Ok? then Ok(Some(s.result.value)) else Err(s.result.error))
    else
      var s1 := CreateTmp(schema, db, table, data);
      if s1.result.Err? then Step(s1.db, Err(s1.result.error))
      else
        var s2 := AddConstraint(schema, s1.db, table, pk);
        if s2.result.Err? then Step(s2.db, Err(s2.result.error))
        else CleanUp(Step(s2.db, Ok(None)), table, s1.result.value)
  }

  /** The last two statements of `upsert`: drop the constraint, then the staging table. */
  function CleanUp<T>(s: Step<T>, table: string, tmp: string): Step<T>
  {
    var s4 := RemoveConstraint(s.db, table);
    if s4.result.Err? then Step(s4.db, Err(s4.result.error))
    else Step(DropTmp(s4.db, tmp), s.result)
  }

  lemma ConstrainWellFormed(schema: Schema, db: Db, table: string, pk: seq<string>)
    requires WellFormed(schema, db)
    ensures WellFormed(schema, AddConstraint(schema, db, table, pk).db)
  {
  }
}
