/** The upsert engine and the normaliser as they run against one connection
    (core/db_utils.py, db/db_utils.py, core/order_manager.py, db/order_manager.py): a store
    object whose tables, sequence, staging tables and `temp_constraint` each statement
    updates in place. Every method is proved to do what the specification function of the
    same statement says, so the laws proved about those functions carry over to the
    store. */
module Stores {
  import opened Wrappers
  import opened Relational
  import opened UpsertLaws
  import opened Ingestion
  import IngestionLaws

  /** Python truthiness of `returning_col`: `None` and the empty name ask for nothing. */
  function Requested(returning: Option<string>): (r: Option<string>)
    ensures r.Some? <==> returning.Some? && returning.value != ""
    ensures r.Some? ==> r == returning
  {
    if returning == Some("") then None else returning
  }

  /** What core/db_utils.py's `upsert` returns: the `.scalar()` of the `RETURNING`
      clause when the merge ran, else `None`. */
  function CoreResult(u: Option<Upserted>): Value
  {
    if u.Some? then Scalar(u.value) else Null
  }

  /** What db/db_utils.py's `upsert` returns: the same scalar when asked for, else the
      statement's rowcount. An `INSERT .. ON CONFLICT DO UPDATE` of one staged row inserts
      or updates exactly one row. */
  function CountResult(u: Upserted, returning: Option<string>): Value
  {
    if Requested(returning).Some? then Scalar(u) else Int(1)
  }

  /** The two revisions of `upsert` on the same store. With a column asked for, both run
      the same five statements and return the same value. Without one, db/db_utils.py
      merges the dict into its table and reports a rowcount of 1, while core/db_utils.py
      merges nothing: it returns `None` and every table is as it was. */
  lemma RevisionsDiffer(schema: Schema, db: Db, table: string, data: seq<Field>, pk: seq<string>,
                        returning: Option<string>)
    requires SchemaOk(schema) && WellFormed(schema, db) && DistinctColumns(data)
    requires forall c :: c in pk ==> c in ToRow(data)
    ensures var c := CoreUpsert(schema, db, table, data, pk, Requested(returning));
            var m := Relational.Upsert(schema, db, table, data, pk, Requested(returning));
            Requested(returning).Some? ==>
              && c.db == m.db && (c.result.Ok? <==> m.result.Ok?)
              && (c.result.Ok? ==> CoreResult(c.result.value) == CountResult(m.result.value, returning))
    ensures var c := CoreUpsert(schema, db, table, data, pk, Requested(returning));
            var m := Relational.Upsert(schema, db, table, data, pk, Requested(returning));
            Requested(returning).None? && Accepts(schema, db, table, data, pk, None) ==>
              && c.result == Ok(None) && CoreResult(c.result.value) == Null && c.db.tables == db.tables
              && m.result.Ok? && CountResult(m.result.value, returning) == Int(1)
              && table in m.db.tables && m.result.value.id in m.db.tables[table]
              && Holds(m.db.tables[table][m.result.value.id], ToRow(data))
  {
    CoreUpsertIsSpec(schema, db, table, data, pk, Requested(returning));
    UpsertIsSpec(schema, db, table, data, pk, Requested(returning));
    if Requested(returning).None? && Accepts(schema, db, table, data, pk, None) {
      IngestionLaws.WrittenHolds(schema, db, table, data, pk, None);
    }
  }

  /** The returned scalar of a successful merge is the returned column of the row it wrote. */
  lemma ScalarIsColumn(schema: Schema, db: Db, table: string, data: seq<Field>, pk: seq<string>,
                       returning: Option<string>)
    requires table in schema.columns && table in db.tables
    requires Requested(returning).Some? && Requested(returning).value in schema.columns[table]
    requires WellFormed(schema, db)
    ensures var w := Written(schema, db, table, data, pk, Requested(returning));
            var row := w.db.tables[table][w.result.value.id];
            Requested(returning).value in row
            && CoreResult(Some(w.result.value)) == row[Requested(returning).value]
            && CountResult(w.result.value, returning) == row[Requested(returning).value]
  {
    var w := Written(schema, db, table, data, pk, Requested(returning));
    WrittenRowShape(schema, db, table, data, pk, Requested(returning));
  }

  /** The row `Written` reports has all the table's columns. */
  lemma WrittenRowShape(schema: Schema, db: Db, table: string, data: seq<Field>, pk: seq<string>,
                        returning: Option<string>)
    requires table in schema.columns && table in db.tables && WellFormed(schema, db)
    ensures var w := Written(schema, db, table, data, pk, returning);
            schema.columns[table] <= w.db.tables[table][w.result.value.id].Keys
  {
    var t := db.tables[table];
    var key := ToRow(data);
    if HasMatch(t, key, pk) {
      var w := Written(schema, db, table, data, pk, returning);
      assert w.result.value.id in t;
    }
  }

  /** Under the arbiter, at most one row of the constrained table conflicts with a row. */
  lemma ArbiterUnique(db: Db, table: string, target: seq<string>, p: Row, i: nat, j: nat)
    requires table in db.tables && Arbiter(db, table, target)
    requires db.tempConstraint.Some? ==> UniqueOn(db.tables[db.tempConstraint.value.table], db.tempConstraint.value.columns)
    requires i in db.tables[table] && SameKey(p, db.tables[table][i], target)
    requires j in db.tables[table] && SameKey(p, db.tables[table][j], target)
    ensures i == j
  {
    var tc := db.tempConstraint.value;
    SameColumns(tc.columns, target);
    OneMatch(db.tables[table], p, tc.columns, i, j);
  }

  /** In a store whose constrained table is unique on the constraint, the merge's update
      branch rewrites the one row that conflicts. */
  lemma MergeRowAt(schema: Schema, db: Db, table: string, target: seq<string>, updates: seq<string>,
                   returning: Option<string>, p: Row, id: nat)
    requires WellFormed(schema, db) && table in db.tables && Arbiter(db, table, target)
    requires id in db.tables[table] && SameKey(p, db.tables[table][id], target)
    ensures var row := UpdatedRow(db.tables[table][id], p, updates);
            MergeRow(db, table, target, updates, returning, p)
            == Step(PutRow(db, table, id, row), Ok(Upserted(id, Returned(row, returning))))
  {
    var t := db.tables[table];
    forall j | j in t && SameKey(p, t[j], target)
      ensures j == id
    {
      ArbiterUnique(db, table, target, p, j, id);
    }
  }

  /** `Least` is the one smallest element. */
  lemma LeastUnique(ids: set<nat>, m: nat)
    requires ids != {} && m in ids && forall j :: j in ids ==> m <= j
    ensures m == Least(ids)
  {
  }

  /** A run that continues after the writes in `log`. */
  function Join(log: seq<Write>, r: Run): Run
  {
    Run(r.db, log + r.log, r.result)
  }

  /** The two upserts for one modifier: the modifier row, then its order-item-modifier link. */
  ghost function OneModifier(up: Engine, db: Db, orderId: Value, itemId: Value, m: Modifier): Run
  {
    var s1 := up(db, ModifiersTable, ModifierFields(m));
    if s1.result.Err? then Run(s1.db, [], Err(Storage(s1.result.error)))
    else
      var w1 := Logged(ModifiersTable, ModifierFields(m), s1.result.value);
      var link := OrderItemModifierFields(orderId, itemId, Scalar(s1.result.value), m);
      var s2 := up(s1.db, OrderItemModifiersTable, link);
      if s2.result.Err? then Run(s2.db, [w1], Err(Storage(s2.result.error)))
      else Run(s2.db, [w1, Logged(OrderItemModifiersTable, link, s2.result.value)], Ok(()))
  }

  /** The modifier loop is the first modifier's upserts, then the loop over the rest. */
  lemma IngestModifiersUnfold(up: Engine, db: Db, orderId: Value, itemId: Value, mods: seq<Modifier>)
    requires mods != []
    ensures var one := OneModifier(up, db, orderId, itemId, mods[0]);
            IngestModifiers(up, db, orderId, itemId, mods)
            == if one.result.Err? then one else Join(one.log, IngestModifiers(up, one.db, orderId, itemId, mods[1..]))
  {
  }

  /** One round of the modifier loop keeps its invariant, or ends the loop as it raises. */
  lemma ModifiersRound(up: Engine, start: Db, before: Db, after: Db, log: seq<Write>, one: seq<Write>,
                       r: Result<(), IngestError>, orderId: Value, itemId: Value, mods: seq<Modifier>, k: nat)
    requires k < |mods|
    requires Run(after, one, r) == OneModifier(up, before, orderId, itemId, mods[k])
    requires Join(log, IngestModifiers(up, before, orderId, itemId, mods[k..]))
             == IngestModifiers(up, start, orderId, itemId, mods)
    ensures r.Err? ==> Run(after, log + one, r) == IngestModifiers(up, start, orderId, itemId, mods)
    ensures r.Ok? ==> Join(log + one, IngestModifiers(up, after, orderId, itemId, mods[k + 1..]))
                      == IngestModifiers(up, start, orderId, itemId, mods)
  {
    assert mods[k..][0] == mods[k] && mods[k..][1..] == mods[k + 1..];
    IngestModifiersUnfold(up, before, orderId, itemId, mods[k..]);
    JoinJoin(log, one, IngestModifiers(up, after, orderId, itemId, mods[k + 1..]));
  }

  lemma JoinJoin(a: seq<Write>, b: seq<Write>, r: Run)
    ensures Join(a, Join(b, r)) == Join(a + b, r)
  {
    assert a + (b + r.log) == (a + b) + r.log;
  }

  /** The upserts for one item: the item row, its order-item link, then its modifiers. */
  ghost function OneItem(up: Engine, db: Db, orderId: Value, i: Item): Run
  {
    var s1 := up(db, ItemsTable, ItemFields(i));
    if s1.result.Err? then Run(s1.db, [], Err(Storage(s1.result.error)))
    else
      var w1 := Logged(ItemsTable, ItemFields(i), s1.result.value);
      var itemId := Scalar(s1.result.value);
      var link := OrderItemFields(orderId, itemId, i);
      var s2 := up(s1.db, OrderItemsTable, link);
      if s2.result.Err? then Run(s2.db, [w1], Err(Storage(s2.result.error)))
      else Join([w1, Logged(OrderItemsTable, link, s2.result.value)],
                IngestModifiers(up, s2.db, orderId, itemId, i.modifiers))
  }

  /** The item loop is the first item's upserts, then the loop over the rest. */
  lemma IngestItemsUnfold(up: Engine, db: Db, orderId: Value, items: seq<Item>)
    requires items != []
    ensures var one := OneItem(up, db, orderId, items[0]);
            IngestItems(up, db, orderId, items)
            == if one.result.Err? then one else Join(one.log, IngestItems(up, one.db, orderId, items[1..]))
  {
    var one := OneItem(up, db, orderId, items[0]);
    if one.result.Ok? {
      var s1 := up(db, ItemsTable, ItemFields(items[0]));
      var itemId := Scalar(s1.result.value);
      var s2 := up(s1.db, OrderItemsTable, OrderItemFields(orderId, itemId, items[0]));
      var head := [Logged(ItemsTable, ItemFields(items[0]), s1.result.value),
                   Logged(OrderItemsTable, OrderItemFields(orderId, itemId, items[0]), s2.result.value)];
      var mods := IngestModifiers(up, s2.db, orderId, itemId, items[0].modifiers);
      JoinJoin(head, mods.log, IngestItems(up, one.db, orderId, items[1..]));
    }
  }

  /** One round of the item loop keeps its invariant, or ends the loop as it raises. */
  lemma ItemsRound(up: Engine, start: Db, before: Db, after: Db, log: seq<Write>, one: seq<Write>,
                   r: Result<(), IngestError>, orderId: Value, items: seq<Item>, k: nat)
    requires k < |items|
    requires Run(after, one, r) == OneItem(up, before, orderId, items[k])
    requires Join(log, IngestItems(up, before, orderId, items[k..])) == IngestItems(up, start, orderId, items)
    ensures r.Err? ==> Run(after, log + one, r) == IngestItems(up, start, orderId, items)
    ensures r.Ok? ==> Join(log + one, IngestItems(up, after, orderId, items[k + 1..]))
                      == IngestItems(up, start, orderId, items)
  {
    assert items[k..][0] == items[k] && items[k..][1..] == items[k + 1..];
    IngestItemsUnfold(up, before, orderId, items[k..]);
    JoinJoin(log, one, IngestItems(up, after, orderId, items[k + 1..]));
  }

  class Store {
    const schema: Schema
    /** Which revision's `upsert` the store's connection runs: core/db_utils.py's when set,
        db/db_utils.py's otherwise. */
    const core: bool
    var tables: map<string, Table>
    var nextId: nat
    var staging: map<string, seq<Row>>
    var tempConstraint: Option<Constraint>

    /** The store as a value. */
    function State(): Db
      reads this
    {
      Db(tables, nextId, staging, tempConstraint)
    }

    ghost predicate Valid()
      reads this
    {
      SchemaOk(schema) && WellFormed(schema, State())
    }

    constructor (schema: Schema, core: bool, db: Db)
      requires SchemaOk(schema) && WellFormed(schema, db)
      ensures this.schema == schema && this.core == core && State() == db && Valid()
    {
      this.schema, this.core := schema, core;
      tables, nextId, staging, tempConstraint := db.tables, db.nextId, db.staging, db.tempConstraint;
    }

    /** `create_tmp_table(conn, table_name, data_dict)`. */
    method CreateTmpTable(table: string, data: seq<Field>) returns (r: Result<string, DbError>)
      modifies this
      ensures Step(State(), r) == CreateTmp(schema, old(State()), table, data)
    {
      var tmp := TmpName(table);
      staging := staging - {tmp};
      if table !in schema.columns {
        r := Err(ConnectionError(StageCreate, table));
      } else if data == [] || exists i :: 0 <= i < |data| && data[i].column !in schema.columns[table] {
        staging := staging[tmp := []];
        r := Err(ConnectionError(StageCreate, table));
      } else {
        staging := staging[tmp := [ToRow(data)]];
        r := Ok(tmp);
      }
    }

    /** `drop_tmp_table(conn, tmp_table_name)`: `DROP TABLE IF EXISTS` never fails. */
    method DropTmpTable(name: string)
      modifies this
      ensures State() == DropTmp(old(State()), name)
    {
      staging := staging - {name};
    }

    /** `add_constraints(conn, table_name, pk_cols)`. */
    method AddConstraints(table: string, pk: seq<string>) returns (r: Result<(), DbError>)
      requires Valid()
      modifies this
      ensures Valid()
      ensures Step(State(), r) == AddConstraint(schema, old(State()), table, pk)
    {
      ConstrainWellFormed(schema, State(), table, pk);
      if || table !in schema.columns
         || tempConstraint.Some?
         || pk == []
         || (exists c :: c in pk && c !in schema.columns[table])
         || !UniqueOn(tables[table], pk)
      {
        r := Err(ConnectionError(StageConstrain, table));
      } else {
        tempConstraint := Some(Constraint(table, pk));
        r := Ok(());
      }
    }

    /** `remove_constraints(conn, table_name)`. */
    method RemoveConstraints(table: string) returns (r: Result<(), DbError>)
      requires Valid()
      modifies this
      ensures Valid()
      ensures Step(State(), r) == RemoveConstraint(old(State()), table)
    {
      if tempConstraint.Some? && tempConstraint.value.table == table {
        tempConstraint := None;
        r := Ok(());
      } else {
        r := Err(ConnectionError(StageUnconstrain, table));
      }
    }

    /** The `INSERT .. SELECT .. ON CONFLICT .. DO UPDATE SET .. [RETURNING ..]` statement. */
    method Merge(m: MergeStatement, staged: Row) returns (r: Result<Upserted, DbError>)
      requires Valid()
      modifies this
      ensures Valid()
      ensures Step(State(), r) == ExecMerge(schema, old(State()), m, staged)
    {
      MergeWellFormed(schema, State(), m, staged);
      if MergeFails(schema, State(), m) {
        r := Err(ConnectionError(StageMerge, m.table));
        return;
      }
      var p := Proposed(schema, m.table, staged, m.insertColumns, nextId);
      var t := tables[m.table];
      if exists id :: id in t && SameKey(p, t[id], m.conflictTarget) {
        var id :| id in t && SameKey(p, t[id], m.conflictTarget);
        var row := UpdatedRow(t[id], p, m.updateSet);
        MergeRowAt(schema, State(), m.table, m.conflictTarget, m.updateSet, m.returning, p, id);
        tables := tables[m.table := t[id := row]];
        r := Ok(Upserted(id, Returned(row, m.returning)));
      } else {
        var id := nextId;
        tables := tables[m.table := t[id := p]];
        nextId := nextId + 1;
        r := Ok(Upserted(id, Returned(p, m.returning)));
      }
    }

    /** `upsert(conn, table_name, data_dict, pk_cols, returning_col)`, by the merge it
        performs: stage, constrain, merge, unconstrain, drop, raising at the first
        statement that fails and leaving what it created behind. */
    method Upsert(table: string, data: seq<Field>, pk: seq<string>, returning: Option<string>)
      returns (r: Result<Upserted, DbError>)
      requires Valid()
      modifies this
      ensures Valid()
      ensures Step(State(), r) == Relational.Upsert(schema, old(State()), table, data, pk, returning)
    {
      UpsertWellFormed(schema, State(), table, data, pk, returning);
      var tmp := CreateTmpTable(table, data);
      if tmp.Err? {
        r := Err(tmp.error);
        return;
      }
      var added := AddConstraints(table, pk);
      if added.Err? {
        r := Err(added.error);
        return;
      }
      r := Merge(BuildMerge(table, tmp.value, data, pk, returning), ToRow(data));
      if r.Err? {
        return;
      }
      var removed := RemoveConstraints(table);
      if removed.Err? {
        r := Err(removed.error);
        return;
      }
      DropTmpTable(tmp.value);
    }

    /** The statements core/db_utils.py's `upsert` runs: with a column asked for, the
        same five as db/db_utils.py; without one, stage, constrain, unconstrain and drop,
        the merge statement built but never executed. */
    method CoreStatements(table: string, data: seq<Field>, pk: seq<string>, returning: Option<string>)
      returns (r: Result<Option<Upserted>, DbError>)
      requires Valid()
      modifies this
      ensures Valid()
      ensures Step(State(), r) == CoreUpsert(schema, old(State()), table, data, pk, returning)
    {
      if returning.Some? {
        var u := Upsert(table, data, pk, returning);
        r := if u.Ok? then Ok(Some(u.value)) else Err(u.error);
        return;
      }
      var tmp := CreateTmpTable(table, data);
      if tmp.Err? {
        r := Err(tmp.error);
        return;
      }
      var added := AddConstraints(table, pk);
      if added.Err? {
        r := Err(added.error);
        return;
      }
      var removed := RemoveConstraints(table);
      if removed.Err? {
        r := Err(removed.error);
        return;
      }
      DropTmpTable(tmp.value);
      r := Ok(None);
    }

    /** core/db_utils.py's `upsert`, with its Python result. */
    method UpsertCore(table: string, data: seq<Field>, pk: seq<string>, returning: Option<string>)
      returns (r: Result<Value, DbError>)
      requires Valid()
      modifies this
      ensures Valid()
      ensures var s := CoreUpsert(schema, old(State()), table, data, pk, Requested(returning));
              && State() == s.db
              && r == if s.result.Ok? then Ok(CoreResult(s.result.value)) else Err(s.result.error)
    {
      var u := CoreStatements(table, data, pk, Requested(returning));
      r := if u.Ok? then Ok(CoreResult(u.value)) else Err(u.error);
    }

    /** db/db_utils.py's `upsert`, which reports the rowcount when no column is asked for. */
    method UpsertCounting(table: string, data: seq<Field>, pk: seq<string>, returning: Option<string>)
      returns (r: Result<Value, DbError>)
      requires Valid()
      modifies this
      ensures Valid()
      ensures var s := Relational.Upsert(schema, old(State()), table, data, pk, Requested(returning));
              && State() == s.db
              && r == if s.result.Ok? then Ok(CountResult(s.result.value, returning)) else Err(s.result.error)
    {
      var u := Upsert(table, data, pk, Requested(returning));
      r := if u.Ok? then Ok(CountResult(u.value, returning)) else Err(u.error);
    }

    /** The normaliser's call of `upsert` for one of its dicts, with the table's key and
        returned column: the engine of the store's revision. */
    method UpsertRow(table: string, data: seq<Field>) returns (r: Result<Upserted, DbError>)
      requires Valid() && IngestionLaws.DictOk(table, data)
      modifies this
      ensures Valid()
      ensures Step(State(), r) == Revision(schema, core)(old(State()), table, data)
    {
      if core {
        CoreUpsertIsSpec(schema, State(), table, data, KeyOf(table), RetOf(table));
        var c := CoreStatements(table, data, KeyOf(table), RetOf(table));
        r := if c.Ok? then Ok(GetOr(c.value, Unmerged)) else Err(c.error);
      } else {
        UpsertIsSpec(schema, State(), table, data, KeyOf(table), RetOf(table));
        r := Upsert(table, data, KeyOf(table), RetOf(table));
      }
    }

    /** `get_partner_id(conn, partner_name)`: the first matching row's `partner_id`, or -1. */
    method GetPartnerId(name: string) returns (v: Value)
      ensures v == PartnerId(State(), name)
    {
      var ids := NamedIds(State(), name);
      if ids == {} {
        v := Int(-1);
        return;
      }
      LeastExists(ids);
      var id :| id in ids && forall j :: j in ids ==> id <= j;
      LeastUnique(ids, id);
      var p := PartnerIdOf(State(), id);
      v := if Truthy(p) then p else Int(-1);
    }
    /** `insert_modifier` then `insert_order_item_modifier` for one modifier. */
    method InsertModifier(orderId: Value, itemId: Value, m: Modifier)
      returns (ghost log: seq<Write>, r: Result<(), IngestError>)
      requires Valid()
      modifies this
      ensures Valid()
      ensures Run(State(), log, r) == OneModifier(Revision(schema, core), old(State()), orderId, itemId, m)
    {
      IngestionLaws.ModifierDictOk(m);
      var u1 := UpsertRow(ModifiersTable, ModifierFields(m));
      if u1.Err? {
        log, r := [], Err(Storage(u1.error));
        return;
      }
      ghost var w1 := Logged(ModifiersTable, ModifierFields(m), u1.value);
      var link := OrderItemModifierFields(orderId, itemId, Scalar(u1.value), m);
      IngestionLaws.OrderItemModifierDictOk(orderId, itemId, Scalar(u1.value), m);
      var u2 := UpsertRow(OrderItemModifiersTable, link);
      if u2.Err? {
        log, r := [w1], Err(Storage(u2.error));
        return;
      }
      log, r := [w1, Logged(OrderItemModifiersTable, link, u2.value)], Ok(());
    }

    /** The inner loop of `insert_order_data`: for each modifier, `insert_modifier` then
        `insert_order_item_modifier`. `log` is the sequence of rows written. */
    method InsertModifiers(orderId: Value, itemId: Value, mods: seq<Modifier>)
      returns (ghost log: seq<Write>, r: Result<(), IngestError>)
      requires Valid()
      modifies this
      ensures Valid()
      ensures Run(State(), log, r) == IngestModifiers(Revision(schema, core), old(State()), orderId, itemId, mods)
    {
      ghost var up := Revision(schema, core);
      log := [];
      var k := 0;
      while k < |mods|
        invariant k <= |mods| && Valid()
        invariant Join(log, IngestModifiers(up, State(), orderId, itemId, mods[k..]))
                  == IngestModifiers(up, old(State()), orderId, itemId, mods)
      {
        ghost var before := State();
        ghost var one: seq<Write>;
        one, r := InsertModifier(orderId, itemId, mods[k]);
        ModifiersRound(up, old(State()), before, State(), log, one, r, orderId, itemId, mods, k);
        log := log + one;
        if r.Err? {
          return;
        }
        k := k + 1;
      }
      r := Ok(());
    }

    /** `insert_item`, `insert_order_item`, then the item's modifiers, for one item. */
    method InsertItem(orderId: Value, i: Item) returns (ghost log: seq<Write>, r: Result<(), IngestError>)
      requires Valid()
      modifies this
      ensures Valid()
      ensures Run(State(), log, r) == OneItem(Revision(schema, core), old(State()), orderId, i)
    {
      IngestionLaws.ItemDictOk(i);
      var u1 := UpsertRow(ItemsTable, ItemFields(i));
      if u1.Err? {
        log, r := [], Err(Storage(u1.error));
        return;
      }
      ghost var w1 := Logged(ItemsTable, ItemFields(i), u1.value);
      var itemId := Scalar(u1.value);
      var link := OrderItemFields(orderId, itemId, i);
      IngestionLaws.OrderItemDictOk(orderId, itemId, i);
      var u2 := UpsertRow(OrderItemsTable, link);
      if u2.Err? {
        log, r := [w1], Err(Storage(u2.error));
        return;
      }
      ghost var mlog;
      mlog, r := InsertModifiers(orderId, itemId, i.modifiers);
      log := [w1, Logged(OrderItemsTable, link, u2.value)] + mlog;
    }

    /** The outer loop of `insert_order_data`: for each item, `insert_item`,
        `insert_order_item`, then the item's modifiers. */
    method InsertItems(orderId: Value, items: seq<Item>)
      returns (ghost log: seq<Write>, r: Result<(), IngestError>)
      requires Valid()
      modifies this
      ensures Valid()
      ensures Run(State(), log, r) == IngestItems(Revision(schema, core), old(State()), orderId, items)
    {
      ghost var up := Revision(schema, core);
      log := [];
      var k := 0;
      while k < |items|
        invariant k <= |items| && Valid()
        invariant Join(log, IngestItems(up, State(), orderId, items[k..]))
                  == IngestItems(up, old(State()), orderId, items)
      {
        ghost var before := State();
        ghost var one: seq<Write>;
        one, r := InsertItem(orderId, items[k]);
        ItemsRound(up, old(State()), before, State(), log, one, r, orderId, items, k);
        log := log + one;
        if r.Err? {
          return;
        }
        k := k + 1;
      }
      r := Ok(());
    }

    /** `insert_order` followed by the item loop. */
    method InsertFromOrder(o: Order, partnerId: Value, customerId: Value)
      returns (ghost log: seq<Write>, r: Result<(), IngestError>)
      requires Valid()
      modifies this
      ensures Valid()
      ensures Run(State(), log, r) == IngestFromOrder(Revision(schema, core), old(State()), o, partnerId, customerId)
    {
      var fields := OrderFields(o, partnerId, customerId);
      if fields.Err? {
        log, r := [], Err(fields.error);
        return;
      }
      IngestionLaws.OrderFieldsOk(o, partnerId, customerId);
      var u := UpsertRow(OrdersTable, fields.value);
      if u.Err? {
        log, r := [], Err(Storage(u.error));
        return;
      }
      ghost var ilog;
      ilog, r := InsertItems(Scalar(u.value), o.items);
      log := [Logged(OrdersTable, fields.value, u.value)] + ilog;
    }

    /** `insert_order_data(conn, partner_name, order_data, is_webhook)`. */
    method InsertOrderData(partnerName: string, o: Order, isWebhook: bool)
      returns (ghost log: seq<Write>, r: Result<(), IngestError>)
      requires Valid()
      modifies this
      ensures Valid()
      ensures Run(State(), log, r) == IngestOrder(Revision(schema, core), old(State()), partnerName, o, isWebhook)
    {
      if isWebhook {
        if o.customer.None? {
          log, r := [], Err(KeyError("customer"));
          return;
        }
        var c := CustomerFields(o.customer.value);
        IngestionLaws.CustomerDictOk(o.customer.value);
        var u := UpsertRow(CustomersTable, c);
        if u.Err? {
          log, r := [], Err(Storage(u.error));
          return;
        }
        ghost var w := Logged(CustomersTable, c, u.value);
        if o.locationId.None? {
          log, r := [w], Err(KeyError("location_id"));
          return;
        }
        ghost var rest;
        rest, r := InsertFromOrder(o, o.locationId.value, Scalar(u.value));
        log := [w] + rest;
      } else {
        var partnerId := GetPartnerId(partnerName);
        if partnerId == Int(-1) {
          log, r := [], Err(UnknownPartner(partnerName));
          return;
        }
        log, r := InsertFromOrder(o, partnerId, Int(-1));
      }
    }
  }
}
