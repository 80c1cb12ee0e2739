/** Replaying a payload: once `insert_order_data` has gone through, running it again on the
    store it left writes the same rows under the same ids and leaves the store exactly as it
    was, provided every natural key it wrote was complete (no NULL in a key column, which
    under SQL's UNIQUE semantics never conflicts and would insert a second row).

    The proof runs in two passes over the first run's log. Forward, the first run leaves
    every row it wrote carrying that write's key and returned id, and holding the last value
    written to each of its columns (`Covered`). Backward, the second run from that store
    finds, for each write, the same row by its key and lays the same dict over it; the
    dicts laid so far are the accumulated map `m`, and the store mid-replay is `Overlay(s, m)`.
    At the end the overlay of everything is the store itself. */
module Replay {
  import opened Wrappers
  import opened Relational
  import opened UpsertLaws
  import opened Ingestion
  import opened IngestionLaws
  import opened IngestionRuns
  import opened IngestionStore

  // ---------------------------------------------------------------- one upsert, exactly

  /** The conditions of `Accepts` that depend on the call alone, not on the store. */
  predicate Fits(schema: Schema, table: string, data: seq<Field>)
  {
    && table in schema.columns && data != []
    && (forall i :: 0 <= i < |data| ==> data[i].column in schema.columns[table])
    && KeyOf(table) != [] && (forall c :: c in KeyOf(table) ==> c in schema.columns[table])
    && ConflictColumns(Columns(data), KeyOf(table)) != []
    && (RetOf(table).Some? ==> RetOf(table).value in schema.columns[table])
  }

  /** Exactly what an upsert as the normaliser calls it does: it succeeds iff the call fits
      and the store has the table, no leftover constraint and a unique key. */
  ghost predicate ExactStep(schema: Schema, db: Db, s: Step<Upserted>, table: string, data: seq<Field>)
  {
    && (s.result.Ok? <==> Fits(schema, table, data) && table in db.tables && db.tempConstraint.None?
                          && UniqueOn(db.tables[table], KeyOf(table)))
    && (s.result.Ok? ==> table in db.tables && ExactWrite(schema, db, s, table, data))
  }

  /** On success it drops the staging table, returns the written row's serial id, and
      either lays the dict over the one row carrying its key, or adds a row holding the dict
      under a fresh id. */
  ghost predicate ExactWrite(schema: Schema, db: Db, s: Step<Upserted>, table: string, data: seq<Field>)
    requires table in db.tables && s.result.Ok?
  {
    var pk := KeyOf(table);
    var t: Table := db.tables[table];
    var id: nat := s.result.value.id;
    && s.db.staging == db.staging - {TmpName(table)} && s.db.tempConstraint == db.tempConstraint
    && table in s.db.tables && id in s.db.tables[table]
    && s.result.value.ret == Returned(s.db.tables[table][id], RetOf(table))
    && (forall j :: j in t && SameKey(ToRow(data), t[j], pk) ==>
          && id == j && s.db.nextId == db.nextId
          && s.db.tables == db.tables[table := t[j := t[j] + ToRow(data)]])
    && (WellFormed(schema, db) && (forall j :: j in t ==> !SameKey(ToRow(data), t[j], pk)) ==>
          && id !in t
          && s.db.tables == db.tables[table := t[id := s.db.tables[table][id]]]
          && Holds(s.db.tables[table][id], ToRow(data)))
  }

  ghost predicate ExactEngine(schema: Schema, up: Engine)
  {
    forall db, table, data {:trigger up(db, table, data)} ::
      SchemaOk(schema) && table in IngestTables && DictOk(table, data) ==>
        ExactStep(schema, db, up(db, table, data), table, data)
  }

  lemma UpsertExact(schema: Schema, db: Db, table: string, data: seq<Field>)
    requires SchemaOk(schema) && table in IngestTables && DictOk(table, data)
    ensures ExactStep(schema, db, UpsertSpec(schema, db, table, data, KeyOf(table), RetOf(table)), table, data)
  {
    var pk, ret := KeyOf(table), RetOf(table);
    if Accepts(schema, db, table, data, pk, ret) {
      WrittenExact(schema, db, table, data);
    }
  }

  lemma WrittenExact(schema: Schema, db: Db, table: string, data: seq<Field>)
    requires SchemaOk(schema) && table in IngestTables
    requires Accepts(schema, db, table, data, KeyOf(table), RetOf(table))
    ensures ExactWrite(schema, db, Written(schema, db, table, data, KeyOf(table), RetOf(table)), table, data)
  {
    var pk, ret := KeyOf(table), RetOf(table);
    var t := db.tables[table];
    WrittenExactUpdate(schema, db, table, data);
    if WellFormed(schema, db) && forall j :: j in t ==> !SameKey(ToRow(data), t[j], pk) {
      WrittenInserts(schema, db, table, data, pk, ret);
      ProposedRow(schema, table, data, db.nextId);
    }
  }

  lemma WrittenExactUpdate(schema: Schema, db: Db, table: string, data: seq<Field>)
    requires Accepts(schema, db, table, data, KeyOf(table), RetOf(table))
    ensures var w := Written(schema, db, table, data, KeyOf(table), RetOf(table));
            var t := db.tables[table];
            forall j :: j in t && SameKey(ToRow(data), t[j], KeyOf(table)) ==>
              && w.result.value.id == j && w.db.nextId == db.nextId
              && w.db.tables == db.tables[table := t[j := t[j] + ToRow(data)]]
  {
    var t := db.tables[table];
    forall j | j in t && SameKey(ToRow(data), t[j], KeyOf(table))
      ensures var w := Written(schema, db, table, data, KeyOf(table), RetOf(table));
              w.result.value.id == j && w.db.nextId == db.nextId
              && w.db.tables == db.tables[table := t[j := t[j] + ToRow(data)]]
    {
      WrittenUpdates(schema, db, table, data, KeyOf(table), RetOf(table), j);
    }
  }

  /** `upsert` is exact in that sense. */
  lemma UpserterExact(schema: Schema)
    ensures ExactEngine(schema, Upserter(schema))
  {
    forall db, table, data | SchemaOk(schema) && table in IngestTables && DictOk(table, data)
      ensures ExactStep(schema, db, Upserter(schema)(db, table, data), table, data)
    {
      UpsertExact(schema, db, table, data);
    }
  }

  /** The three engine properties the replay proof uses. */
  ghost predicate Engines(schema: Schema, up: Engine)
  {
    SafeEngine(schema, up) && ExactEngine(schema, up) && IngestSchema(schema)
  }

  // ---------------------------------------------------------------- accumulated dicts

  /** Per (table, row id), the dicts written to that row so far, later ones over earlier. */
  type Acc = map<(string, nat), Row>

  function Entry(m: Acc, table: string, id: nat): Row
  {
    if (table, id) in m then m[(table, id)] else map[]
  }

  function Add(m: Acc, w: Write): Acc
  {
    m[(w.table, w.id) := Entry(m, w.table, w.id) + ToRow(w.data)]
  }

  function AccFrom(m: Acc, log: seq<Write>): Acc
    decreases |log|
  {
    if log == [] then m else AccFrom(Add(m, log[0]), log[1..])
  }

  lemma {:induction false} AccFromAppend(m: Acc, a: seq<Write>, b: seq<Write>)
    ensures AccFrom(m, a + b) == AccFrom(AccFrom(m, a), b)
    decreases |a|
  {
    if a == [] {
      assert a + b == b;
    } else {
      assert (a + b)[0] == a[0] && (a + b)[1..] == a[1..] + b;
      AccFromAppend(Add(m, a[0]), a[1..], b);
    }
  }

  lemma AccFromPair(m: Acc, w1: Write, w2: Write, rest: seq<Write>)
    ensures AccFrom(m, [w1, w2] + rest) == AccFrom(Add(Add(m, w1), w2), rest)
  {
    var l := [w1, w2] + rest;
    assert l[0] == w1 && l[1..] == [w2] + rest;
    assert ([w2] + rest)[0] == w2 && ([w2] + rest)[1..] == rest;
  }

  lemma AccFromOne(m: Acc, w: Write, rest: seq<Write>)
    ensures AccFrom(m, [w] + rest) == AccFrom(Add(m, w), rest)
  {
    assert ([w] + rest)[0] == w && ([w] + rest)[1..] == rest;
  }

  /** The store `s` with the accumulated dicts laid over its rows. */
  function Overlay(s: Db, m: Acc): Db
  {
    s.(tables := map t | t in s.tables :: OverlayTable(s.tables[t], t, m))
  }

  function OverlayTable(tb: Table, t: string, m: Acc): Table
  {
    map id | id in tb :: tb[id] + Entry(m, t, id)
  }

  /** Every accumulated dict is on a row of `d` that still holds all of it. */
  ghost predicate Covered(d: Db, m: Acc)
  {
    && (forall k :: k in m ==> k.0 in d.tables && k.1 in d.tables[k.0])
    && (forall t, id :: t in d.tables && id in d.tables[t] ==> Holds(d.tables[t][id], Entry(m, t, id)))
  }

  lemma HeldUnion(row: Row, e: Row)
    requires Holds(row, e)
    ensures row + e == row
  {
  }

  /** Laying dicts a store already holds changes nothing. */
  lemma OverlayCovered(s: Db, m: Acc)
    requires Covered(s, m)
    ensures Overlay(s, m) == s
  {
    var o := Overlay(s, m);
    forall t | t in s.tables ensures o.tables[t] == s.tables[t] {
      forall id | id in s.tables[t] ensures o.tables[t][id] == s.tables[t][id] {
        HeldUnion(s.tables[t][id], Entry(m, t, id));
      }
    }
    assert o.tables == s.tables;
  }

  /** Laying one more dict over the overlay is the overlay of one more write. */
  lemma UnionAssoc(a: Row, b: Row, c: Row)
    ensures a + (b + c) == (a + b) + c
  {
  }

  /** On the written table, one more dict changes only the written row. */
  lemma OverlayTableAdd(tb: Table, m: Acc, w: Write)
    requires w.id in tb
    ensures var t := OverlayTable(tb, w.table, m);
            OverlayTable(tb, w.table, Add(m, w)) == t[w.id := t[w.id] + ToRow(w.data)]
  {
    var t, t2 := OverlayTable(tb, w.table, m), OverlayTable(tb, w.table, Add(m, w));
    forall id | id in tb ensures t2[id] == t[w.id := t[w.id] + ToRow(w.data)][id] {
      if id == w.id {
        UnionAssoc(tb[id], Entry(m, w.table, id), ToRow(w.data));
      } else {
        assert Entry(Add(m, w), w.table, id) == Entry(m, w.table, id);
      }
    }
  }

  /** Any other table is untouched by one more dict. */
  lemma OverlayTableOther(tb: Table, table: string, m: Acc, w: Write)
    requires table != w.table
    ensures OverlayTable(tb, table, Add(m, w)) == OverlayTable(tb, table, m)
  {
    forall id | id in tb ensures Entry(Add(m, w), table, id) == Entry(m, table, id) {
    }
  }

  /** Laying one more dict over the overlay is the overlay of one more write. */
  lemma OverlayAdd(s: Db, m: Acc, w: Write)
    requires w.table in s.tables && w.id in s.tables[w.table]
    ensures var o := Overlay(s, m);
            var t: Table := o.tables[w.table];
            Overlay(s, Add(m, w)) == o.(tables := o.tables[w.table := t[w.id := t[w.id] + ToRow(w.data)]])
  {
    var o, o2 := Overlay(s, m), Overlay(s, Add(m, w));
    var t: Table := o.tables[w.table];
    OverlayTableAdd(s.tables[w.table], m, w);
    forall x | x in s.tables && x != w.table ensures o2.tables[x] == o.tables[x] {
      OverlayTableOther(s.tables[x], x, m, w);
    }
    assert o2.tables == o.tables[w.table := t[w.id := t[w.id] + ToRow(w.data)]];
  }

  // ---------------------------------------------------------------- the store the first run leaves

  /** A write of the first run, as the store it left still shows it: the call fits the
      schema, the row it wrote is still there under its id, carrying its key and the id it
      returned, no staging table or constraint is left, and the table is unique on its key. */
  ghost predicate Settled(schema: Schema, s: Db, w: Write)
  {
    && w.table in IngestTables && DictOk(w.table, w.data) && Fits(schema, w.table, w.data)
    && w.table in s.tables && w.id in s.tables[w.table]
    && SameKey(ToRow(w.data), s.tables[w.table][w.id], KeyOf(w.table))
    && w.ret == Returned(s.tables[w.table][w.id], RetOf(w.table))
    && TmpName(w.table) !in s.staging && s.tempConstraint.None?
    && UniqueOn(s.tables[w.table], KeyOf(w.table))
  }

  /** The accumulated dicts never change a key or the returned column of the row they lie on. */
  predicate Agrees(row: Row, e: Row, table: string)
  {
    && (forall c :: c in KeyOf(table) && c in e ==> c in row && e[c] == row[c])
    && (RetOf(table).Some? ==> RetOf(table).value !in e)
  }

  ghost predicate Consistent(s: Db, m: Acc)
  {
    forall t, id :: t in s.tables && id in s.tables[t] ==> Agrees(s.tables[t][id], Entry(m, t, id), t)
  }

  lemma OverlayKey(row: Row, e: Row, table: string, c: string)
    requires Agrees(row, e, table) && c in KeyOf(table)
    ensures (c in row + e <==> c in row) && (c in row ==> (row + e)[c] == row[c])
  {
  }

  /** The overlay keeps every key, so it keeps every table unique where `s` was. */
  lemma OverlayUnique(s: Db, m: Acc, table: string)
    requires Consistent(s, m) && table in s.tables && UniqueOn(s.tables[table], KeyOf(table))
    ensures UniqueOn(Overlay(s, m).tables[table], KeyOf(table))
  {
    var tb, ot := s.tables[table], Overlay(s, m).tables[table];
    var pk := KeyOf(table);
    forall i, j | i in ot && j in ot && i != j ensures !SameKey(ot[i], ot[j], pk) {
      if SameKey(ot[i], ot[j], pk) {
        forall c | c in pk ensures c in tb[i] && c in tb[j] && tb[i][c] != Null && tb[i][c] == tb[j][c] {
          OverlayKey(tb[i], Entry(m, table, i), table, c);
          OverlayKey(tb[j], Entry(m, table, j), table, c);
        }
        assert SameKey(tb[i], tb[j], pk);
      }
    }
  }

  // ---------------------------------------------------------------- the second run

  /** An exact upsert whose dict matches row `j` updates that row and returns its id. */
  lemma ExactUpdate(schema: Schema, d: Db, st: Step<Upserted>, table: string, data: seq<Field>, j: nat)
    requires ExactStep(schema, d, st, table, data) && Fits(schema, table, data)
    requires table in d.tables && d.tempConstraint.None? && UniqueOn(d.tables[table], KeyOf(table))
    requires j in d.tables[table] && SameKey(ToRow(data), d.tables[table][j], KeyOf(table))
    ensures var t: Table := d.tables[table];
            && st.result.Ok? && st.result.value.id == j && st.db.nextId == d.nextId
            && st.db.tables == d.tables[table := t[j := t[j] + ToRow(data)]]
            && st.db.staging == d.staging - {TmpName(table)} && st.db.tempConstraint == d.tempConstraint
            && st.result.value.ret == Returned(t[j] + ToRow(data), RetOf(table))
  {
  }

  /** The second run's upsert of a write of the first finds the same row by its key, lays
      the same dict over it and returns the same id. */
  /** On the overlay, the dict of a settled write still finds its row, in a table still
      unique on its key. */
  lemma OverlayMatch(schema: Schema, s: Db, m: Acc, w: Write)
    requires Settled(schema, s, w) && Consistent(s, m)
    ensures var t := Overlay(s, m).tables[w.table];
            && w.id in t && SameKey(ToRow(w.data), t[w.id], KeyOf(w.table))
            && UniqueOn(t, KeyOf(w.table))
  {
    OverlayUnique(s, m, w.table);
    var t := Overlay(s, m).tables[w.table];
    var row, e, data := s.tables[w.table][w.id], Entry(m, w.table, w.id), ToRow(w.data);
    assert t[w.id] == row + e;
    forall c | c in KeyOf(w.table) ensures c in data && c in t[w.id] && data[c] != Null && data[c] == t[w.id][c] {
      OverlayKey(row, e, w.table, c);
    }
  }

  /** Laying more dicts over a settled row leaves the returned column as the first run saw it. */
  lemma OverlayReturned(schema: Schema, s: Db, m: Acc, w: Write)
    requires Settled(schema, s, w) && Consistent(s, m)
    ensures Returned(s.tables[w.table][w.id] + Entry(m, w.table, w.id) + ToRow(w.data), RetOf(w.table)) == w.ret
  {
    var row, e, data := s.tables[w.table][w.id], Entry(m, w.table, w.id), ToRow(w.data);
    assert Agrees(row, e, w.table);
  }

  /** The second run's upsert of a write of the first finds the same row by its key, lays
      the same dict over it and returns the same id. */
  lemma ReplayStep(schema: Schema, up: Engine, s: Db, m: Acc, w: Write)
    requires SchemaOk(schema) && ExactEngine(schema, up)
    requires Settled(schema, s, w) && Consistent(s, m)
    ensures up(Overlay(s, m), w.table, w.data) == Step(Overlay(s, Add(m, w)), Ok(Upserted(w.id, w.ret)))
  {
    var d := Overlay(s, m);
    OverlayMatch(schema, s, m, w);
    OverlayAdd(s, m, w);
    OverlayReturned(schema, s, m, w);
    assert d.tables[w.table][w.id] == s.tables[w.table][w.id] + Entry(m, w.table, w.id);
    MatchedStep(schema, up, d, Overlay(s, Add(m, w)), w);
  }

  /** An exact upsert whose dict matches row `w.id` of a settled store leaves the store with
      that row updated and returns the row's id. */
  lemma MatchedStep(schema: Schema, up: Engine, d: Db, d2: Db, w: Write)
    requires SchemaOk(schema) && ExactEngine(schema, up)
    requires w.table in IngestTables && DictOk(w.table, w.data) && Fits(schema, w.table, w.data)
    requires w.table in d.tables && d.tempConstraint.None? && TmpName(w.table) !in d.staging
    requires var t: Table := d.tables[w.table];
             && UniqueOn(t, KeyOf(w.table)) && w.id in t && SameKey(ToRow(w.data), t[w.id], KeyOf(w.table))
             && d2 == d.(tables := d.tables[w.table := t[w.id := t[w.id] + ToRow(w.data)]])
             && Returned(t[w.id] + ToRow(w.data), RetOf(w.table)) == w.ret
    ensures up(d, w.table, w.data) == Step(d2, Ok(Upserted(w.id, w.ret)))
  {
    EngineUpdate(schema, up, d, w.table, w.data, w.id);
    SameDb(up(d, w.table, w.data).db, d2);
  }

  /** `ExactUpdate` for the step the engine takes. */
  lemma EngineUpdate(schema: Schema, up: Engine, d: Db, table: string, data: seq<Field>, j: nat)
    requires SchemaOk(schema) && ExactEngine(schema, up)
    requires table in IngestTables && DictOk(table, data) && Fits(schema, table, data)
    requires table in d.tables && d.tempConstraint.None? && UniqueOn(d.tables[table], KeyOf(table))
    requires j in d.tables[table] && SameKey(ToRow(data), d.tables[table][j], KeyOf(table))
    ensures var t: Table := d.tables[table];
            var st := up(d, table, data);
            && st.result.Ok? && st.result.value.id == j && st.db.nextId == d.nextId
            && st.db.tables == d.tables[table := t[j := t[j] + ToRow(data)]]
            && st.db.staging == d.staging - {TmpName(table)} && st.db.tempConstraint == d.tempConstraint
            && st.result.value.ret == Returned(t[j] + ToRow(data), RetOf(table))
  {
    assert ExactStep(schema, d, up(d, table, data), table, data);
    ExactUpdate(schema, d, up(d, table, data), table, data, j);
  }

  lemma SameDb(a: Db, b: Db)
    requires a.tables == b.tables && a.nextId == b.nextId && a.staging == b.staging
    requires a.tempConstraint == b.tempConstraint
    ensures a == b
  {
  }

  lemma ReplayStepConsistent(schema: Schema, s: Db, m: Acc, w: Write)
    requires Settled(schema, s, w) && Consistent(s, m)
    ensures Consistent(s, Add(m, w))
  {
    var row, e, data := s.tables[w.table][w.id], Entry(m, w.table, w.id), ToRow(w.data);
    assert Agrees(row, e, w.table);
    assert Agrees(row, e + data, w.table);
    forall t, id | t in s.tables && id in s.tables[t] ensures Agrees(s.tables[t][id], Entry(Add(m, w), t, id), t) {
      if (t, id) != (w.table, w.id) {
        assert Entry(Add(m, w), t, id) == Entry(m, t, id);
      }
    }
  }

  /** Both writes of one turn of the modifier loop, replayed. */
  lemma ReplayPair(schema: Schema, up: Engine, s: Db, m: Acc, w1: Write, w2: Write)
    requires SchemaOk(schema) && ExactEngine(schema, up)
    requires Settled(schema, s, w1) && Settled(schema, s, w2) && Consistent(s, m)
    ensures up(Overlay(s, m), w1.table, w1.data) == Step(Overlay(s, Add(m, w1)), Ok(Upserted(w1.id, w1.ret)))
    ensures up(Overlay(s, Add(m, w1)), w2.table, w2.data)
            == Step(Overlay(s, Add(Add(m, w1), w2)), Ok(Upserted(w2.id, w2.ret)))
    ensures Consistent(s, Add(Add(m, w1), w2))
  {
    ReplayStep(schema, up, s, m, w1);
    ReplayStepConsistent(schema, s, m, w1);
    ReplayStep(schema, up, s, Add(m, w1), w2);
    ReplayStepConsistent(schema, s, Add(m, w1), w2);
  }

  lemma {:induction false} ReplayModifiers(schema: Schema, up: Engine, s: Db, m: Acc, d: Db,
                                           orderId: Value, itemId: Value, mods: seq<Modifier>)
    requires SchemaOk(schema) && ExactEngine(schema, up) && Consistent(s, m)
    requires var r := IngestModifiers(up, d, orderId, itemId, mods);
             r.result.Ok? && forall w :: w in r.log ==> Settled(schema, s, w)
    ensures var r := IngestModifiers(up, d, orderId, itemId, mods);
            && IngestModifiers(up, Overlay(s, m), orderId, itemId, mods) == Run(Overlay(s, AccFrom(m, r.log)), r.log, Ok(()))
            && Consistent(s, AccFrom(m, r.log))
    decreases |mods|
  {
    if mods != [] {
      var r := IngestModifiers(up, d, orderId, itemId, mods);
      var md := mods[0];
      var s1 := up(d, ModifiersTable, ModifierFields(md));
      var w1 := Logged(ModifiersTable, ModifierFields(md), s1.result.value);
      var link := OrderItemModifierFields(orderId, itemId, Scalar(s1.result.value), md);
      var s2 := up(s1.db, OrderItemModifiersTable, link);
      var w2 := Logged(OrderItemModifiersTable, link, s2.result.value);
      var rest := IngestModifiers(up, s2.db, orderId, itemId, mods[1..]);
      assert r.log == [w1, w2] + rest.log;
      ReplayPair(schema, up, s, m, w1, w2);
      var m2 := Add(Add(m, w1), w2);
      ReplayModifiers(schema, up, s, m2, s2.db, orderId, itemId, mods[1..]);
      AccFromPair(m, w1, w2, rest.log);
    }
  }

  lemma {:induction false} ReplayItems(schema: Schema, up: Engine, s: Db, m: Acc, d: Db,
                                       orderId: Value, items: seq<Item>)
    requires SchemaOk(schema) && ExactEngine(schema, up) && Consistent(s, m)
    requires var r := IngestItems(up, d, orderId, items);
             r.result.Ok? && forall w :: w in r.log ==> Settled(schema, s, w)
    ensures var r := IngestItems(up, d, orderId, items);
            && IngestItems(up, Overlay(s, m), orderId, items) == Run(Overlay(s, AccFrom(m, r.log)), r.log, Ok(()))
            && Consistent(s, AccFrom(m, r.log))
    decreases |items|
  {
    if items != [] {
      var r := IngestItems(up, d, orderId, items);
      var i := items[0];
      var s1 := up(d, ItemsTable, ItemFields(i));
      var w1 := Logged(ItemsTable, ItemFields(i), s1.result.value);
      var itemId := Scalar(s1.result.value);
      var link := OrderItemFields(orderId, itemId, i);
      var s2 := up(s1.db, OrderItemsTable, link);
      var w2 := Logged(OrderItemsTable, link, s2.result.value);
      var mods := IngestModifiers(up, s2.db, orderId, itemId, i.modifiers);
      var rest := IngestItems(up, mods.db, orderId, items[1..]);
      assert r.log == [w1, w2] + (mods.log + rest.log);
      ReplayPair(schema, up, s, m, w1, w2);
      var m2 := Add(Add(m, w1), w2);
      ReplayModifiers(schema, up, s, m2, s2.db, orderId, itemId, i.modifiers);
      var m3 := AccFrom(m2, mods.log);
      ReplayItems(schema, up, s, m3, mods.db, orderId, items[1..]);
      AccFromPair(m, w1, w2, mods.log + rest.log);
      AccFromAppend(m2, mods.log, rest.log);
    }
  }

  lemma ReplayFromOrder(schema: Schema, up: Engine, s: Db, m: Acc, d: Db, o: Order, partnerId: Value,
                        customerId: Value)
    requires SchemaOk(schema) && ExactEngine(schema, up) && Consistent(s, m)
    requires var r := IngestFromOrder(up, d, o, partnerId, customerId);
             r.result.Ok? && forall w :: w in r.log ==> Settled(schema, s, w)
    ensures var r := IngestFromOrder(up, d, o, partnerId, customerId);
            && IngestFromOrder(up, Overlay(s, m), o, partnerId, customerId)
               == Run(Overlay(s, AccFrom(m, r.log)), r.log, Ok(()))
            && Consistent(s, AccFrom(m, r.log))
  {
    var r := IngestFromOrder(up, d, o, partnerId, customerId);
    var fields := OrderFields(o, partnerId, customerId).value;
    var s1 := up(d, OrdersTable, fields);
    var w := Logged(OrdersTable, fields, s1.result.value);
    var items := IngestItems(up, s1.db, Scalar(s1.result.value), o.items);
    assert r.log == [w] + items.log;
    ReplayStep(schema, up, s, m, w);
    ReplayStepConsistent(schema, s, m, w);
    ReplayItems(schema, up, s, Add(m, w), s1.db, Scalar(s1.result.value), o.items);
    AccFromOne(m, w, items.log);
  }

  // ---------------------------------------------------------------- the first run

  /** Every natural key the log wrote is complete. */
  predicate KeysComplete(log: seq<Write>)
  {
    forall w :: w in log ==> KeyComplete(w.data, KeyOf(w.table))
  }

  /** What the first run has established after some of its writes: the store is well formed
      with no constraint left over, every dict written so far is held by its row, and every
      logged write is settled. */
  ghost predicate Run1(schema: Schema, d: Db, m: Acc, log: seq<Write>)
  {
    && WellFormed(schema, d) && d.tempConstraint.None? && Covered(d, m)
    && forall w :: w in log ==> Settled(schema, d, w)
  }

  lemma HoldsKey(row: Row, data: seq<Field>, pk: seq<string>)
    requires Holds(row, ToRow(data)) && KeyComplete(data, pk)
    ensures SameKey(ToRow(data), row, pk)
  {
  }

  /** An exact upsert whose dict matches no row inserts a new row holding the dict. */
  lemma ExactInsert(schema: Schema, d: Db, st: Step<Upserted>, table: string, data: seq<Field>)
    requires ExactStep(schema, d, st, table, data) && st.result.Ok? && WellFormed(schema, d)
    requires table in d.tables && forall j :: j in d.tables[table] ==> !SameKey(ToRow(data), d.tables[table][j], KeyOf(table))
    ensures var t: Table := d.tables[table];
            var id := st.result.value.id;
            && id !in t && table in st.db.tables && id in st.db.tables[table]
            && st.db.tables == d.tables[table := t[id := st.db.tables[table][id]]]
            && Holds(st.db.tables[table][id], ToRow(data))
  {
  }

  /** The effect of a write of the first run, whichever way its upsert went: the table gains
      or changes exactly the row it names, which holds the dict and carries its key. */
  ghost predicate RowWritten(d: Db, d2: Db, w: Write)
  {
    && w.table in d.tables && w.table in d2.tables && w.id in d2.tables[w.table]
    && var t: Table := d.tables[w.table];
       var row := d2.tables[w.table][w.id];
       && d2.tables == d.tables[w.table := t[w.id := row]]
       && Holds(row, ToRow(w.data)) && SameKey(ToRow(w.data), row, KeyOf(w.table))
       && (w.id in t ==> row == t[w.id] + ToRow(w.data) && SameKey(ToRow(w.data), t[w.id], KeyOf(w.table)))
  }

  /** A write leaves an earlier write settled: its row keeps its id, its key and its
      returned column, and the tables stay unique. */
  lemma SettledKept(schema: Schema, d: Db, d2: Db, v: Write, w: Write)
    requires Settled(schema, d, v) && RowWritten(d, d2, w) && DictOk(w.table, w.data)
    requires d2.tempConstraint.None? && d2.staging.Keys <= d.staging.Keys
    requires UniqueOn(d2.tables[w.table], KeyOf(w.table))
    ensures Settled(schema, d2, v)
  {
    if v.table == w.table && v.id == w.id {
      var row := d.tables[v.table][v.id];
      var data := ToRow(w.data);
      assert d2.tables[v.table][v.id] == row + data;
      assert RetOf(w.table).Some? ==> RetOf(w.table).value !in data;
      assert forall c :: c in KeyOf(v.table) ==> c in row + data && (row + data)[c] == row[c];
    }
  }

  /** After a write, every dict written so far is still held by its row. */
  lemma CoveredKept(d: Db, d2: Db, m: Acc, w: Write)
    requires Covered(d, m) && RowWritten(d, d2, w)
    ensures Covered(d2, Add(m, w))
  {
    var t: Table := d.tables[w.table];
    var row := d2.tables[w.table][w.id];
    var m2 := Add(m, w);
    var data := ToRow(w.data);
    forall x, id | x in d2.tables && id in d2.tables[x] ensures Holds(d2.tables[x][id], Entry(m2, x, id)) {
      if x == w.table && id == w.id {
        if w.id in t {
          assert Holds(t[w.id], Entry(m, x, id));
        } else {
          assert Entry(m, x, id) == map[];
        }
      } else {
        assert Entry(m2, x, id) == Entry(m, x, id);
      }
    }
  }

  /** A write keeps the first run's invariant and settles itself. */
  lemma Run1Write(schema: Schema, d: Db, d2: Db, m: Acc, log: seq<Write>, w: Write)
    requires Run1(schema, d, m, log) && RowWritten(d, d2, w)
    requires WellFormed(schema, d2) && d2.tempConstraint.None? && d2.staging == d.staging - {TmpName(w.table)}
    requires w.table in IngestTables && DictOk(w.table, w.data) && Fits(schema, w.table, w.data)
    requires w.ret == Returned(d2.tables[w.table][w.id], RetOf(w.table))
    requires UniqueOn(d2.tables[w.table], KeyOf(w.table))
    ensures Run1(schema, d2, Add(m, w), log + [w])
  {
    forall v | v in log ensures Settled(schema, d2, v) {
      SettledKept(schema, d, d2, v, w);
    }
    CoveredKept(d, d2, m, w);
    assert Settled(schema, d2, w);
  }

  /** One upsert of the first run that goes through. */
  lemma Run1Step(schema: Schema, up: Engine, d: Db, m: Acc, log: seq<Write>, table: string, data: seq<Field>)
    requires Engines(schema, up) && Run1(schema, d, m, log)
    requires table in IngestTables && DictOk(table, data) && KeyComplete(data, KeyOf(table))
    requires up(d, table, data).result.Ok?
    ensures var s := up(d, table, data);
            Run1(schema, s.db, Add(m, Logged(table, data, s.result.value)), log + [Logged(table, data, s.result.value)])
  {
    var s := up(d, table, data);
    var w := Logged(table, data, s.result.value);
    assert StepOk(schema, d, s, table, data);
    assert ExactStep(schema, d, s, table, data);
    var t: Table := d.tables[table];
    var pk := KeyOf(table);
    if j :| j in t && SameKey(ToRow(data), t[j], pk) {
      ExactUpdate(schema, d, s, table, data, j);
    } else {
      ExactInsert(schema, d, s, table, data);
    }
    HoldsKey(s.db.tables[table][w.id], data, pk);
    assert RowWritten(d, s.db, w);
    Run1Write(schema, d, s.db, m, log, w);
  }

  lemma LogAssoc(log: seq<Write>, a: seq<Write>, b: seq<Write>)
    ensures log + (a + b) == log + a + b
  {
  }

  lemma UnitOk(x: Result<(), IngestError>)
    requires x.Ok?
    ensures x == Ok(())
  {
    match x.value {
      case () =>
    }
  }

  lemma LogEmpty(log: seq<Write>)
    ensures [] + log == log
  {
  }

  lemma LogPair(log: seq<Write>, w1: Write, w2: Write)
    ensures log + [w1] + [w2] == log + [w1, w2]
  {
  }

  /** One turn of the modifier loop in the first run: the modifier, then its link. */
  lemma Run1ModifierPair(schema: Schema, up: Engine, d: Db, m: Acc, log: seq<Write>,
                         orderId: Value, itemId: Value, md: Modifier)
    requires Engines(schema, up) && Run1(schema, d, m, log)
    requires var s1 := up(d, ModifiersTable, ModifierFields(md));
             && s1.result.Ok? && KeyComplete(ModifierFields(md), KeyOf(ModifiersTable))
             && var link := OrderItemModifierFields(orderId, itemId, Scalar(s1.result.value), md);
                up(s1.db, OrderItemModifiersTable, link).result.Ok?
                && KeyComplete(link, KeyOf(OrderItemModifiersTable))
    ensures var s1 := up(d, ModifiersTable, ModifierFields(md));
            var link := OrderItemModifierFields(orderId, itemId, Scalar(s1.result.value), md);
            var s2 := up(s1.db, OrderItemModifiersTable, link);
            var w1 := Logged(ModifiersTable, ModifierFields(md), s1.result.value);
            var w2 := Logged(OrderItemModifiersTable, link, s2.result.value);
            Run1(schema, s2.db, Add(Add(m, w1), w2), log + [w1, w2])
  {
    var s1 := up(d, ModifiersTable, ModifierFields(md));
    var w1 := Logged(ModifiersTable, ModifierFields(md), s1.result.value);
    var link := OrderItemModifierFields(orderId, itemId, Scalar(s1.result.value), md);
    var s2 := up(s1.db, OrderItemModifiersTable, link);
    var w2 := Logged(OrderItemModifiersTable, link, s2.result.value);
    ModifierDictOk(md);
    OrderItemModifierDictOk(orderId, itemId, Scalar(s1.result.value), md);
    Run1Step(schema, up, d, m, log, ModifiersTable, ModifierFields(md));
    Run1Step(schema, up, s1.db, Add(m, w1), log + [w1], OrderItemModifiersTable, link);
    LogPair(log, w1, w2);
  }

  /** The item and order-item writes of one turn of the item loop in the first run. */
  lemma Run1ItemPair(schema: Schema, up: Engine, d: Db, m: Acc, log: seq<Write>, orderId: Value, i: Item)
    requires Engines(schema, up) && Run1(schema, d, m, log)
    requires var s1 := up(d, ItemsTable, ItemFields(i));
             && s1.result.Ok? && KeyComplete(ItemFields(i), KeyOf(ItemsTable))
             && var link := OrderItemFields(orderId, Scalar(s1.result.value), i);
                up(s1.db, OrderItemsTable, link).result.Ok?
                && KeyComplete(link, KeyOf(OrderItemsTable))
    ensures var s1 := up(d, ItemsTable, ItemFields(i));
            var link := OrderItemFields(orderId, Scalar(s1.result.value), i);
            var s2 := up(s1.db, OrderItemsTable, link);
            var w1 := Logged(ItemsTable, ItemFields(i), s1.result.value);
            var w2 := Logged(OrderItemsTable, link, s2.result.value);
            Run1(schema, s2.db, Add(Add(m, w1), w2), log + [w1, w2])
  {
    var s1 := up(d, ItemsTable, ItemFields(i));
    var w1 := Logged(ItemsTable, ItemFields(i), s1.result.value);
    var link := OrderItemFields(orderId, Scalar(s1.result.value), i);
    var s2 := up(s1.db, OrderItemsTable, link);
    var w2 := Logged(OrderItemsTable, link, s2.result.value);
    ItemDictOk(i);
    OrderItemDictOk(orderId, Scalar(s1.result.value), i);
    Run1Step(schema, up, d, m, log, ItemsTable, ItemFields(i));
    Run1Step(schema, up, s1.db, Add(m, w1), log + [w1], OrderItemsTable, link);
    LogPair(log, w1, w2);
  }

  lemma {:induction false} Run1Modifiers(schema: Schema, up: Engine, d: Db, m: Acc, log: seq<Write>,
                                         orderId: Value, itemId: Value, mods: seq<Modifier>)
    requires Engines(schema, up) && Run1(schema, d, m, log)
    requires var r := IngestModifiers(up, d, orderId, itemId, mods); r.result.Ok? && KeysComplete(r.log)
    ensures var r := IngestModifiers(up, d, orderId, itemId, mods);
            Run1(schema, r.db, AccFrom(m, r.log), log + r.log)
    decreases |mods|
  {
    var r := IngestModifiers(up, d, orderId, itemId, mods);
    if mods == [] {
      assert log + r.log == log;
    } else {
      var md := mods[0];
      var s1 := up(d, ModifiersTable, ModifierFields(md));
      var w1 := Logged(ModifiersTable, ModifierFields(md), s1.result.value);
      var link := OrderItemModifierFields(orderId, itemId, Scalar(s1.result.value), md);
      var s2 := up(s1.db, OrderItemModifiersTable, link);
      var w2 := Logged(OrderItemModifiersTable, link, s2.result.value);
      var rest := IngestModifiers(up, s2.db, orderId, itemId, mods[1..]);
      assert r.log == [w1, w2] + rest.log;
      assert w1 in r.log && w2 in r.log && forall v :: v in rest.log ==> v in r.log;
      Run1ModifierPair(schema, up, d, m, log, orderId, itemId, md);
      Run1Modifiers(schema, up, s2.db, Add(Add(m, w1), w2), log + [w1, w2], orderId, itemId, mods[1..]);
      AccFromPair(m, w1, w2, rest.log);
      LogAssoc(log, [w1, w2], rest.log);
    }
  }

  lemma {:induction false} Run1Items(schema: Schema, up: Engine, d: Db, m: Acc, log: seq<Write>,
                                     orderId: Value, items: seq<Item>)
    requires Engines(schema, up) && Run1(schema, d, m, log)
    requires var r := IngestItems(up, d, orderId, items); r.result.Ok? && KeysComplete(r.log)
    ensures var r := IngestItems(up, d, orderId, items);
            Run1(schema, r.db, AccFrom(m, r.log), log + r.log)
    decreases |items|
  {
    var r := IngestItems(up, d, orderId, items);
    if items == [] {
      assert log + r.log == log;
    } else {
      var i := items[0];
      var s1 := up(d, ItemsTable, ItemFields(i));
      var w1 := Logged(ItemsTable, ItemFields(i), s1.result.value);
      var itemId := Scalar(s1.result.value);
      var link := OrderItemFields(orderId, itemId, i);
      var s2 := up(s1.db, OrderItemsTable, link);
      var w2 := Logged(OrderItemsTable, link, s2.result.value);
      var mods := IngestModifiers(up, s2.db, orderId, itemId, i.modifiers);
      var rest := IngestItems(up, mods.db, orderId, items[1..]);
      assert r.log == [w1, w2] + (mods.log + rest.log);
      assert w1 in r.log && w2 in r.log;
      assert forall v :: v in mods.log ==> v in r.log;
      assert forall v :: v in rest.log ==> v in r.log;
      Run1ItemPair(schema, up, d, m, log, orderId, i);
      var m2 := Add(Add(m, w1), w2);
      Run1Modifiers(schema, up, s2.db, m2, log + [w1, w2], orderId, itemId, i.modifiers);
      Run1Items(schema, up, mods.db, AccFrom(m2, mods.log), log + [w1, w2] + mods.log, orderId, items[1..]);
      AccFromPair(m, w1, w2, mods.log + rest.log);
      AccFromAppend(m2, mods.log, rest.log);
      LogAssoc(log, [w1, w2], mods.log + rest.log);
      LogAssoc(log + [w1, w2], mods.log, rest.log);
    }
  }

  lemma Run1FromOrder(schema: Schema, up: Engine, d: Db, m: Acc, log: seq<Write>, o: Order,
                      partnerId: Value, customerId: Value)
    requires Engines(schema, up) && Run1(schema, d, m, log)
    requires var r := IngestFromOrder(up, d, o, partnerId, customerId); r.result.Ok? && KeysComplete(r.log)
    ensures var r := IngestFromOrder(up, d, o, partnerId, customerId);
            Run1(schema, r.db, AccFrom(m, r.log), log + r.log)
  {
    var r := IngestFromOrder(up, d, o, partnerId, customerId);
    OrderFieldsOk(o, partnerId, customerId);
    var fields := OrderFields(o, partnerId, customerId).value;
    var s := up(d, OrdersTable, fields);
    var w := Logged(OrdersTable, fields, s.result.value);
    var items := IngestItems(up, s.db, Scalar(s.result.value), o.items);
    assert r.log == [w] + items.log;
    assert w in r.log && forall v :: v in items.log ==> v in r.log;
    Run1Step(schema, up, d, m, log, OrdersTable, fields);
    Run1Items(schema, up, s.db, Add(m, w), log + [w], Scalar(s.result.value), o.items);
    AccFromOne(m, w, items.log);
    LogAssoc(log, [w], items.log);
  }

  /** An upsert that goes through found no constraint left over. */
  lemma FirstStepClean(schema: Schema, up: Engine, d: Db, table: string, data: seq<Field>)
    requires SchemaOk(schema) && ExactEngine(schema, up) && table in IngestTables && DictOk(table, data)
    requires up(d, table, data).result.Ok?
    ensures d.tempConstraint.None?
  {
    assert ExactStep(schema, d, up(d, table, data), table, data);
  }

  lemma Run1Start(schema: Schema, d: Db)
    requires WellFormed(schema, d) && d.tempConstraint.None?
    ensures Run1(schema, d, map[], [])
  {
    forall x, id | x in d.tables && id in d.tables[x] ensures Holds(d.tables[x][id], Entry(map[], x, id)) {
    }
  }

  /** The first run, when it goes through, leaves every write it made settled and every
      dict it wrote held. */
  lemma Run1Order(schema: Schema, up: Engine, db: Db, partnerName: string, o: Order, isWebhook: bool)
    requires Engines(schema, up) && WellFormed(schema, db)
    requires var r := IngestOrder(up, db, partnerName, o, isWebhook); r.result.Ok? && KeysComplete(r.log)
    ensures var r := IngestOrder(up, db, partnerName, o, isWebhook);
            Run1(schema, r.db, AccFrom(map[], r.log), r.log)
  {
    if isWebhook {
      Run1Webhook(schema, up, db, partnerName, o);
    } else {
      Run1Historical(schema, up, db, o, PartnerId(db, partnerName));
    }
  }

  lemma Run1Historical(schema: Schema, up: Engine, db: Db, o: Order, partnerId: Value)
    requires Engines(schema, up) && WellFormed(schema, db)
    requires var r := IngestFromOrder(up, db, o, partnerId, Int(-1)); r.result.Ok? && KeysComplete(r.log)
    ensures var r := IngestFromOrder(up, db, o, partnerId, Int(-1));
            Run1(schema, r.db, AccFrom(map[], r.log), r.log)
  {
    var r := IngestFromOrder(up, db, o, partnerId, Int(-1));
    OrderFieldsOk(o, partnerId, Int(-1));
    FirstStepClean(schema, up, db, OrdersTable, OrderFields(o, partnerId, Int(-1)).value);
    Run1Start(schema, db);
    Run1FromOrder(schema, up, db, map[], [], o, partnerId, Int(-1));
    LogEmpty(r.log);
  }

  lemma Run1Webhook(schema: Schema, up: Engine, db: Db, partnerName: string, o: Order)
    requires Engines(schema, up) && WellFormed(schema, db)
    requires var r := IngestOrder(up, db, partnerName, o, true); r.result.Ok? && KeysComplete(r.log)
    ensures var r := IngestOrder(up, db, partnerName, o, true);
            Run1(schema, r.db, AccFrom(map[], r.log), r.log)
  {
    var r := IngestOrder(up, db, partnerName, o, true);
    var c := CustomerFields(o.customer.value);
    CustomerDictOk(o.customer.value);
    FirstStepClean(schema, up, db, CustomersTable, c);
    Run1Start(schema, db);
    var s := up(db, CustomersTable, c);
    var w := Logged(CustomersTable, c, s.result.value);
    var rest := IngestFromOrder(up, s.db, o, o.locationId.value, Scalar(s.result.value));
    assert r.log == [w] + rest.log;
    assert w in r.log && forall v :: v in rest.log ==> v in r.log;
    Run1Step(schema, up, db, map[], [], CustomersTable, c);
    LogEmpty([w]);
    Run1FromOrder(schema, up, s.db, Add(map[], w), [w], o, o.locationId.value, Scalar(s.result.value));
    AccFromOne(map[], w, rest.log);
  }

  // ---------------------------------------------------------------- the second run, whole

  lemma CoveredEmpty(d: Db)
    ensures Covered(d, map[]) && Consistent(d, map[])
  {
    forall x, id | x in d.tables && id in d.tables[x] ensures Holds(d.tables[x][id], Entry(map[], x, id)) {
    }
    forall x, id | x in d.tables && id in d.tables[x] ensures Agrees(d.tables[x][id], Entry(map[], x, id), x) {
    }
  }

  lemma ModifierPlanTables(mods: seq<Modifier>)
    ensures forall x :: x in ModifierPlan(mods) ==> x in IngestTables
    decreases |mods|
  {
    if mods != [] {
      ModifierPlanTables(mods[1..]);
    }
  }

  lemma ItemPlanTables(items: seq<Item>)
    ensures forall x :: x in ItemPlan(items) ==> x in IngestTables
    decreases |items|
  {
    if items != [] {
      ModifierPlanTables(items[0].modifiers);
      ItemPlanTables(items[1..]);
    }
  }

  /** A run writes only ingestion tables, never the partners table. */
  lemma PlanTables(o: Order, isWebhook: bool)
    ensures forall x :: x in Plan(o, isWebhook) ==> x in IngestTables
    ensures PartnersTable !in Plan(o, isWebhook)
  {
    ItemPlanTables(o.items);
  }

  /** The partner lookup reads the partners table alone. */
  lemma PartnerIdFrame(db: Db, db2: Db, name: string)
    requires (PartnersTable in db.tables <==> PartnersTable in db2.tables)
    requires PartnersTable in db.tables ==> db2.tables[PartnersTable] == db.tables[PartnersTable]
    ensures PartnerId(db2, name) == PartnerId(db, name)
  {
    assert NamedIds(db2, name) == NamedIds(db, name);
    forall id ensures PartnerIdOf(db2, id) == PartnerIdOf(db, id) {
    }
  }

  /** A historical run that goes through leaves the partner lookup as it found it. */
  lemma PartnerKept(schema: Schema, up: Engine, db: Db, partnerName: string, o: Order)
    requires SafeEngine(schema, up) && IngestSchema(schema) && WellFormed(schema, db)
    requires IngestOrder(up, db, partnerName, o, false).result.Ok?
    ensures PartnerId(IngestOrder(up, db, partnerName, o, false).db, partnerName) == PartnerId(db, partnerName)
  {
    var r := IngestOrder(up, db, partnerName, o, false);
    IngestEvolves(schema, up, db, partnerName, o, false);
    HistoricalFollowsPlan(up, db, partnerName, o);
    PlanTables(o, false);
    PartnerIdFrame(db, r.db, partnerName);
  }

  /** The order and its items, replayed from the store the first run left with the
      accumulated dicts `m` of the writes before them: the same writes, the same store. */
  lemma ReplayOrderWrites(schema: Schema, up: Engine, s: Db, m: Acc, d: Db, o: Order, partnerId: Value,
                          customerId: Value)
    requires SchemaOk(schema) && ExactEngine(schema, up) && Consistent(s, m)
    requires var r := IngestFromOrder(up, d, o, partnerId, customerId);
             && r.result.Ok? && (forall w :: w in r.log ==> Settled(schema, s, w))
             && Covered(s, AccFrom(m, r.log))
    ensures var r := IngestFromOrder(up, d, o, partnerId, customerId);
            IngestFromOrder(up, Overlay(s, m), o, partnerId, customerId) == Run(s, r.log, Ok(()))
  {
    var r := IngestFromOrder(up, d, o, partnerId, customerId);
    ReplayFromOrder(schema, up, s, m, d, o, partnerId, customerId);
    OverlayCovered(s, AccFrom(m, r.log));
  }

  lemma ReplayHistorical(schema: Schema, up: Engine, db: Db, partnerName: string, o: Order)
    requires Engines(schema, up) && WellFormed(schema, db)
    requires var r := IngestOrder(up, db, partnerName, o, false); r.result.Ok? && KeysComplete(r.log)
    ensures var r := IngestOrder(up, db, partnerName, o, false);
            IngestOrder(up, r.db, partnerName, o, false) == r
  {
    var r := IngestOrder(up, db, partnerName, o, false);
    var partnerId := PartnerId(db, partnerName);
    assert r == IngestFromOrder(up, db, o, partnerId, Int(-1));
    Run1Historical(schema, up, db, o, partnerId);
    PartnerKept(schema, up, db, partnerName, o);
    var s := r.db;
    CoveredEmpty(s);
    OverlayCovered(s, map[]);
    ReplayOrderWrites(schema, up, s, map[], db, o, partnerId, Int(-1));
    assert IngestFromOrder(up, s, o, partnerId, Int(-1)) == Run(s, r.log, Ok(()));
    UnitOk(r.result);
    assert IngestOrder(up, s, partnerName, o, false) == IngestFromOrder(up, s, o, partnerId, Int(-1));
  }

  /** The customer write of the webhook path, replayed. */
  lemma ReplayCustomer(schema: Schema, up: Engine, s: Db, db: Db, c: Customer)
    requires SchemaOk(schema) && ExactEngine(schema, up)
    requires var s1 := up(db, CustomersTable, CustomerFields(c));
             s1.result.Ok? && Settled(schema, s, Logged(CustomersTable, CustomerFields(c), s1.result.value))
    ensures var s1 := up(db, CustomersTable, CustomerFields(c));
            var w := Logged(CustomersTable, CustomerFields(c), s1.result.value);
            && up(s, CustomersTable, CustomerFields(c)) == Step(Overlay(s, Add(map[], w)), Ok(s1.result.value))
            && Consistent(s, Add(map[], w))
  {
    var s1 := up(db, CustomersTable, CustomerFields(c));
    var w := Logged(CustomersTable, CustomerFields(c), s1.result.value);
    CoveredEmpty(s);
    OverlayCovered(s, map[]);
    ReplayStep(schema, up, s, map[], w);
    ReplayStepConsistent(schema, s, map[], w);
  }

  lemma ReplayWebhook(schema: Schema, up: Engine, db: Db, partnerName: string, o: Order)
    requires Engines(schema, up) && WellFormed(schema, db)
    requires var r := IngestOrder(up, db, partnerName, o, true); r.result.Ok? && KeysComplete(r.log)
    ensures var r := IngestOrder(up, db, partnerName, o, true);
            IngestOrder(up, r.db, partnerName, o, true) == r
  {
    var r := IngestOrder(up, db, partnerName, o, true);
    Run1Webhook(schema, up, db, partnerName, o);
    var c := CustomerFields(o.customer.value);
    var s1 := up(db, CustomersTable, c);
    var w := Logged(CustomersTable, c, s1.result.value);
    var rest := IngestFromOrder(up, s1.db, o, o.locationId.value, Scalar(s1.result.value));
    assert r.log == [w] + rest.log;
    assert w in r.log && forall v :: v in rest.log ==> v in r.log;
    var s := r.db;
    ReplayCustomer(schema, up, s, db, o.customer.value);
    AccFromOne(map[], w, rest.log);
    ReplayOrderWrites(schema, up, s, Add(map[], w), s1.db, o, o.locationId.value, Scalar(s1.result.value));
    var s2 := up(s, CustomersTable, c);
    assert s2.result == Ok(s1.result.value) && s2.db == Overlay(s, Add(map[], w));
    assert IngestFromOrder(up, s2.db, o, o.locationId.value, Scalar(s1.result.value)) == Run(s, rest.log, Ok(()));
    UnitOk(r.result);
    assert IngestOrder(up, s, partnerName, o, true) == Run(s, [w] + rest.log, Ok(()));
  }

  /** Replaying a payload that went through is a no-op: `insert_order_data` run again on
      the store it left makes the same writes in the same order, gets the same ids back,
      and leaves the store exactly as it was — provided every natural key it wrote was
      complete. */
  lemma ReplayIsNoOp(schema: Schema, db: Db, partnerName: string, o: Order, isWebhook: bool)
    requires IngestSchema(schema) && WellFormed(schema, db)
    requires var r := IngestOrder(Upserter(schema), db, partnerName, o, isWebhook);
             r.result.Ok? && KeysComplete(r.log)
    ensures var r := IngestOrder(Upserter(schema), db, partnerName, o, isWebhook);
            IngestOrder(Upserter(schema), r.db, partnerName, o, isWebhook) == r
  {
    var up := Upserter(schema);
    UpserterSafe(schema);
    UpserterExact(schema);
    if isWebhook {
      ReplayWebhook(schema, up, db, partnerName, o);
    } else {
      ReplayHistorical(schema, up, db, partnerName, o);
    }
  }
}
