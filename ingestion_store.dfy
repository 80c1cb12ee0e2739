/** What a run does to the store when the engine is `upsert`: it keeps the store well
    formed and every ingestion table unique on its natural key, touches only the tables it
    logs, never removes a row or changes a row's key, keeps every order_item_modifier
    linked to an order_item, and writes nothing to orders before the payload validates. */
module IngestionStore {
  import opened Wrappers
  import opened Relational
  import opened UpsertLaws
  import opened Ingestion
  import opened IngestionLaws
  import opened IngestionRuns

  const IngestTables: set<string> :=
    {CustomersTable, OrdersTable, ItemsTable, ModifiersTable, OrderItemsTable, OrderItemModifiersTable}

  // ---------------------------------------------------------------- one step

  /** What one upsert of `data` into `table` may do to the store. */
  ghost predicate StepOk(schema: Schema, db: Db, s: Step<Upserted>, table: string, data: seq<Field>)
  {
    && WellFormed(schema, s.db)
    && s.db.tables.Keys == db.tables.Keys && table in db.tables
    && (forall t :: t in db.tables && t != table ==> s.db.tables[t] == db.tables[t])
    && (s.result.Err? ==> s.db.tables == db.tables)
    && Kept(db.tables[table], s.db.tables[table], KeyOf(table))
    && (UniqueOn(db.tables[table], KeyOf(table)) ==> UniqueOn(s.db.tables[table], KeyOf(table)))
    && (s.result.Ok? ==>
          && s.result.value.id in s.db.tables[table]
          && Holds(s.db.tables[table][s.result.value.id], ToRow(data))
          && forall id :: id in s.db.tables[table] ==> id in db.tables[table] || id == s.result.value.id)
  }

  /** An engine that behaves like `upsert` on every dict the normaliser builds. */
  ghost predicate SafeEngine(schema: Schema, up: Engine)
  {
    forall db, table, data {:trigger up(db, table, data)} ::
      SchemaOk(schema) && WellFormed(schema, db) && table in IngestTables && table in schema.columns
      && DictOk(table, data) ==>
        StepOk(schema, db, up(db, table, data), table, data)
  }

  /** `upsert` is such an engine. */
  lemma UpserterSafe(schema: Schema)
    ensures SafeEngine(schema, Upserter(schema))
  {
    var up := Upserter(schema);
    forall db, table, data | SchemaOk(schema) && WellFormed(schema, db) && table in IngestTables
                             && table in schema.columns && DictOk(table, data)
      ensures StepOk(schema, db, up(db, table, data), table, data)
    {
      UpsertFacts(schema, db, table, data, KeyOf(table), RetOf(table));
    }
  }

  // ---------------------------------------------------------------- how a store evolves

  /** Every ingestion table is unique on its natural key. */
  ghost predicate Keyed(db: Db)
  {
    forall t :: t in IngestTables && t in db.tables ==> UniqueOn(db.tables[t], KeyOf(t))
  }

  /** `db2` is `db` after some writes to the tables in `written`: well formed, the same
      tables, no row lost and no key changed, the other tables as they were, and keys
      still unique where they were. */
  ghost predicate Evolves(schema: Schema, db: Db, db2: Db, written: seq<string>)
  {
    && WellFormed(schema, db2)
    && db2.tables.Keys == db.tables.Keys
    && (forall t :: t in db.tables ==> Kept(db.tables[t], db2.tables[t], KeyOf(t)))
    && (forall t :: t in db.tables && t !in written ==> db2.tables[t] == db.tables[t])
    && (Keyed(db) ==> Keyed(db2))
  }

  lemma KeptRefl(t: Table, pk: seq<string>)
    ensures Kept(t, t, pk)
  {
  }

  lemma KeptTrans(t1: Table, t2: Table, t3: Table, pk: seq<string>)
    requires Kept(t1, t2, pk) && Kept(t2, t3, pk)
    ensures Kept(t1, t3, pk)
  {
  }

  lemma EvolvesRefl(schema: Schema, db: Db)
    requires WellFormed(schema, db)
    ensures Evolves(schema, db, db, [])
  {
  }

  lemma EvolvesTrans(schema: Schema, db1: Db, db2: Db, db3: Db, w1: seq<string>, w2: seq<string>)
    requires Evolves(schema, db1, db2, w1) && Evolves(schema, db2, db3, w2)
    ensures Evolves(schema, db1, db3, w1 + w2)
  {
    forall t | t in db1.tables ensures Kept(db1.tables[t], db3.tables[t], KeyOf(t)) {
      KeptTrans(db1.tables[t], db2.tables[t], db3.tables[t], KeyOf(t));
    }
  }

  lemma StepEvolves(schema: Schema, up: Engine, db: Db, table: string, data: seq<Field>)
    requires SafeEngine(schema, up) && SchemaOk(schema) && WellFormed(schema, db)
    requires table in IngestTables && table in schema.columns && DictOk(table, data)
    ensures var s := up(db, table, data);
            Evolves(schema, db, s.db, if s.result.Ok? then [table] else [])
  {
    var s := up(db, table, data);
    assert StepOk(schema, db, s, table, data);
    forall t | t in db.tables ensures Kept(db.tables[t], s.db.tables[t], KeyOf(t)) {
      if t != table {
        KeptRefl(db.tables[t], KeyOf(t));
      }
    }
  }

  // ---------------------------------------------------------------- a run

  /** The schema declares every ingestion table. */
  ghost predicate IngestSchema(schema: Schema)
  {
    SchemaOk(schema) && forall t :: t in IngestTables ==> t in schema.columns
  }

  /** Two upserts in a row, the first of which goes through. */
  lemma TwoStepsEvolve(schema: Schema, up: Engine, db: Db, t1: string, data1: seq<Field>,
                       t2: string, data2: seq<Field>)
    requires SafeEngine(schema, up) && IngestSchema(schema) && WellFormed(schema, db)
    requires t1 in IngestTables && DictOk(t1, data1) && t2 in IngestTables && DictOk(t2, data2)
    requires up(db, t1, data1).result.Ok?
    ensures var s2 := up(up(db, t1, data1).db, t2, data2);
            Evolves(schema, db, s2.db, if s2.result.Ok? then [t1, t2] else [t1])
  {
    StepEvolves(schema, up, db, t1, data1);
    var s1 := up(db, t1, data1);
    StepEvolves(schema, up, s1.db, t2, data2);
    var s2 := up(s1.db, t2, data2);
    EvolvesTrans(schema, db, s1.db, s2.db, [t1], if s2.result.Ok? then [t2] else []);
    NamesPair(t1, t2);
  }

  lemma NamesPair(t1: string, t2: string)
    ensures [t1] + [t2] == [t1, t2] && [t1] + [] == [t1]
  {
  }

  /** A step of the inner loop: the modifier, then its link. */
  lemma ModifierStepEvolves(schema: Schema, up: Engine, db: Db, orderId: Value, itemId: Value, m: Modifier)
    requires SafeEngine(schema, up) && IngestSchema(schema) && WellFormed(schema, db)
    requires up(db, ModifiersTable, ModifierFields(m)).result.Ok?
    ensures var s1 := up(db, ModifiersTable, ModifierFields(m));
            var s2 := up(s1.db, OrderItemModifiersTable,
                         OrderItemModifierFields(orderId, itemId, Scalar(s1.result.value), m));
            Evolves(schema, db, s2.db, if s2.result.Ok? then [ModifiersTable, OrderItemModifiersTable]
                                       else [ModifiersTable])
  {
    ModifierDictOk(m);
    var s1 := up(db, ModifiersTable, ModifierFields(m));
    var link := OrderItemModifierFields(orderId, itemId, Scalar(s1.result.value), m);
    OrderItemModifierDictOk(orderId, itemId, Scalar(s1.result.value), m);
    TwoStepsEvolve(schema, up, db, ModifiersTable, ModifierFields(m), OrderItemModifiersTable, link);
  }

  lemma TablesOne(w: Write)
    ensures Tables([w]) == [w.table]
  {
  }

  lemma TablesTwo(w1: Write, w2: Write, rest: seq<Write>)
    ensures Tables([w1, w2] + rest) == [w1.table, w2.table] + Tables(rest)
  {
    TablesAppend([w1, w2], rest);
    assert Tables([w1, w2]) == [w1.table, w2.table];
  }

  lemma {:induction false} ModifiersEvolve(schema: Schema, up: Engine, db: Db, orderId: Value, itemId: Value,
                                           mods: seq<Modifier>)
    requires SafeEngine(schema, up) && IngestSchema(schema) && WellFormed(schema, db)
    ensures var r := IngestModifiers(up, db, orderId, itemId, mods);
            Evolves(schema, db, r.db, Tables(r.log))
    decreases |mods|
  {
    var r := IngestModifiers(up, db, orderId, itemId, mods);
    if mods == [] {
      EvolvesRefl(schema, db);
    } else {
      var m := mods[0];
      var s1 := up(db, ModifiersTable, ModifierFields(m));
      if s1.result.Err? {
        ModifierDictOk(m);
        StepEvolves(schema, up, db, ModifiersTable, ModifierFields(m));
      } else {
        ModifierStepEvolves(schema, up, db, orderId, itemId, m);
        var w1 := Logged(ModifiersTable, ModifierFields(m), s1.result.value);
        var link := OrderItemModifierFields(orderId, itemId, Scalar(s1.result.value), m);
        var s2 := up(s1.db, OrderItemModifiersTable, link);
        if s2.result.Err? {
          assert r.log == [w1];
          TablesOne(w1);
        } else {
          ModifierTurnEvolves(schema, up, db, orderId, itemId, mods);
        }
      }
    }
  }

  /** A turn of the inner loop whose modifier and link go through, then the rest. */
  lemma {:induction false} ModifierTurnEvolves(schema: Schema, up: Engine, db: Db, orderId: Value, itemId: Value,
                                               mods: seq<Modifier>)
    requires SafeEngine(schema, up) && IngestSchema(schema) && WellFormed(schema, db) && mods != []
    requires var s1 := up(db, ModifiersTable, ModifierFields(mods[0]));
             && s1.result.Ok?
             && up(s1.db, OrderItemModifiersTable,
                   OrderItemModifierFields(orderId, itemId, Scalar(s1.result.value), mods[0])).result.Ok?
    ensures var r := IngestModifiers(up, db, orderId, itemId, mods);
            Evolves(schema, db, r.db, Tables(r.log))
    decreases |mods|, 0
  {
    var r := IngestModifiers(up, db, orderId, itemId, mods);
    var m := mods[0];
    var s1 := up(db, ModifiersTable, ModifierFields(m));
    ModifierStepEvolves(schema, up, db, orderId, itemId, m);
    var w1 := Logged(ModifiersTable, ModifierFields(m), s1.result.value);
    var link := OrderItemModifierFields(orderId, itemId, Scalar(s1.result.value), m);
    var s2 := up(s1.db, OrderItemModifiersTable, link);
    var w2 := Logged(OrderItemModifiersTable, link, s2.result.value);
    var rest := IngestModifiers(up, s2.db, orderId, itemId, mods[1..]);
    assert r.db == rest.db && r.log == [w1, w2] + rest.log;
    ModifiersEvolve(schema, up, s2.db, orderId, itemId, mods[1..]);
    EvolvesTrans(schema, db, s2.db, rest.db, [ModifiersTable, OrderItemModifiersTable], Tables(rest.log));
    TablesTwo(w1, w2, rest.log);
  }

  /** A step of the outer loop before its modifiers: the item, then its order item. */
  lemma ItemStepEvolves(schema: Schema, up: Engine, db: Db, orderId: Value, i: Item)
    requires SafeEngine(schema, up) && IngestSchema(schema) && WellFormed(schema, db)
    requires up(db, ItemsTable, ItemFields(i)).result.Ok?
    ensures var s1 := up(db, ItemsTable, ItemFields(i));
            var s2 := up(s1.db, OrderItemsTable, OrderItemFields(orderId, Scalar(s1.result.value), i));
            Evolves(schema, db, s2.db, if s2.result.Ok? then [ItemsTable, OrderItemsTable] else [ItemsTable])
  {
    ItemDictOk(i);
    var s1 := up(db, ItemsTable, ItemFields(i));
    var link := OrderItemFields(orderId, Scalar(s1.result.value), i);
    OrderItemDictOk(orderId, Scalar(s1.result.value), i);
    TwoStepsEvolve(schema, up, db, ItemsTable, ItemFields(i), OrderItemsTable, link);
  }

  lemma {:induction false} ItemsEvolve(schema: Schema, up: Engine, db: Db, orderId: Value, items: seq<Item>)
    requires SafeEngine(schema, up) && IngestSchema(schema) && WellFormed(schema, db)
    ensures var r := IngestItems(up, db, orderId, items);
            Evolves(schema, db, r.db, Tables(r.log))
    decreases |items|
  {
    var r := IngestItems(up, db, orderId, items);
    if items == [] {
      EvolvesRefl(schema, db);
    } else {
      var i := items[0];
      var s1 := up(db, ItemsTable, ItemFields(i));
      if s1.result.Err? {
        ItemDictOk(i);
        StepEvolves(schema, up, db, ItemsTable, ItemFields(i));
      } else {
        ItemStepEvolves(schema, up, db, orderId, i);
        var w1 := Logged(ItemsTable, ItemFields(i), s1.result.value);
        var itemId := Scalar(s1.result.value);
        var link := OrderItemFields(orderId, itemId, i);
        var s2 := up(s1.db, OrderItemsTable, link);
        if s2.result.Err? {
          assert r.log == [w1];
          TablesOne(w1);
        } else {
          ItemTurnEvolves(schema, up, db, orderId, items);
        }
      }
    }
  }

  /** A turn of the outer loop whose item and order item go through, then the rest. */
  lemma {:induction false} ItemTurnEvolves(schema: Schema, up: Engine, db: Db, orderId: Value, items: seq<Item>)
    requires SafeEngine(schema, up) && IngestSchema(schema) && WellFormed(schema, db) && items != []
    requires var s1 := up(db, ItemsTable, ItemFields(items[0]));
             && s1.result.Ok?
             && up(s1.db, OrderItemsTable, OrderItemFields(orderId, Scalar(s1.result.value), items[0])).result.Ok?
    ensures var r := IngestItems(up, db, orderId, items);
            Evolves(schema, db, r.db, Tables(r.log))
    decreases |items|, 0
  {
    var r := IngestItems(up, db, orderId, items);
    var i := items[0];
    var s1 := up(db, ItemsTable, ItemFields(i));
    ItemStepEvolves(schema, up, db, orderId, i);
    var w1 := Logged(ItemsTable, ItemFields(i), s1.result.value);
    var itemId := Scalar(s1.result.value);
    var link := OrderItemFields(orderId, itemId, i);
    var s2 := up(s1.db, OrderItemsTable, link);
    var w2 := Logged(OrderItemsTable, link, s2.result.value);
    var mods := IngestModifiers(up, s2.db, orderId, itemId, i.modifiers);
    ModifiersEvolve(schema, up, s2.db, orderId, itemId, i.modifiers);
    EvolvesTrans(schema, db, s2.db, mods.db, [ItemsTable, OrderItemsTable], Tables(mods.log));
    if mods.result.Err? {
      assert r.db == mods.db && r.log == [w1, w2] + mods.log;
      TablesTwo(w1, w2, mods.log);
    } else {
      var rest := IngestItems(up, mods.db, orderId, items[1..]);
      assert r.db == rest.db && r.log == [w1, w2] + mods.log + rest.log;
      ItemsEvolve(schema, up, mods.db, orderId, items[1..]);
      EvolvesTrans(schema, db, mods.db, rest.db, [ItemsTable, OrderItemsTable] + Tables(mods.log), Tables(rest.log));
      TablesThree(w1, w2, mods.log, rest.log);
    }
  }

  lemma TablesThree(w1: Write, w2: Write, a: seq<Write>, b: seq<Write>)
    ensures Tables([w1, w2] + a + b) == [w1.table, w2.table] + Tables(a) + Tables(b)
  {
    TablesAppend([w1, w2] + a, b);
    TablesTwo(w1, w2, a);
  }

  lemma OrderEvolves(schema: Schema, up: Engine, db: Db, o: Order, partnerId: Value, customerId: Value)
    requires SafeEngine(schema, up) && IngestSchema(schema) && WellFormed(schema, db)
    ensures var r := IngestFromOrder(up, db, o, partnerId, customerId);
            Evolves(schema, db, r.db, Tables(r.log))
  {
    var fields := OrderFields(o, partnerId, customerId);
    OrderFieldsOk(o, partnerId, customerId);
    if fields.Err? {
      EvolvesRefl(schema, db);
    } else {
      StepEvolves(schema, up, db, OrdersTable, fields.value);
      var s := up(db, OrdersTable, fields.value);
      if s.result.Ok? {
        var w := Logged(OrdersTable, fields.value, s.result.value);
        var items := IngestItems(up, s.db, Scalar(s.result.value), o.items);
        ItemsEvolve(schema, up, s.db, Scalar(s.result.value), o.items);
        EvolvesTrans(schema, db, s.db, items.db, [OrdersTable], Tables(items.log));
        TablesAppend([w], items.log);
      }
    }
  }

  /** A whole run keeps the store well formed and every ingestion table unique on its key,
      never loses a row or changes a row's key, and changes only the tables it logs. */
  lemma IngestEvolves(schema: Schema, up: Engine, db: Db, partnerName: string, o: Order, isWebhook: bool)
    requires SafeEngine(schema, up) && IngestSchema(schema) && WellFormed(schema, db)
    ensures var r := IngestOrder(up, db, partnerName, o, isWebhook);
            Evolves(schema, db, r.db, Tables(r.log))
  {
    if isWebhook {
      WebhookEvolves(schema, up, db, partnerName, o);
    } else {
      var partnerId := PartnerId(db, partnerName);
      if partnerId == Int(-1) {
        EvolvesRefl(schema, db);
      } else {
        OrderEvolves(schema, up, db, o, partnerId, Int(-1));
      }
    }
  }

  lemma WebhookEvolves(schema: Schema, up: Engine, db: Db, partnerName: string, o: Order)
    requires SafeEngine(schema, up) && IngestSchema(schema) && WellFormed(schema, db)
    ensures var r := IngestOrder(up, db, partnerName, o, true);
            Evolves(schema, db, r.db, Tables(r.log))
  {
    if o.customer.None? {
      EvolvesRefl(schema, db);
    } else {
      var c := CustomerFields(o.customer.value);
      CustomerDictOk(o.customer.value);
      StepEvolves(schema, up, db, CustomersTable, c);
      var s := up(db, CustomersTable, c);
      if s.result.Ok? {
        var w := Logged(CustomersTable, c, s.result.value);
        assert Tables([w]) == [CustomersTable];
        if o.locationId.Some? {
          var rest := IngestFromOrder(up, s.db, o, o.locationId.value, Scalar(s.result.value));
          OrderEvolves(schema, up, s.db, o, o.locationId.value, Scalar(s.result.value));
          EvolvesTrans(schema, db, s.db, rest.db, [CustomersTable], Tables(rest.log));
          TablesAppend([w], rest.log);
        }
      }
    }
  }

  // ---------------------------------------------------------------- validation before writes

  /** Only a storage error can stop the run once the order row is being written. */
  lemma OrderErrorsBeforeWrites(up: Engine, db: Db, o: Order, partnerId: Value, customerId: Value)
    ensures var r := IngestFromOrder(up, db, o, partnerId, customerId);
            r.result.Err? && !r.result.error.Storage? ==> r.db == db && r.log == []
  {
    var fields := OrderFields(o, partnerId, customerId);
    if fields.Ok? {
      var s := up(db, OrdersTable, fields.value);
      if s.result.Ok? {
        ItemsFollowPlan(up, s.db, Scalar(s.result.value), o.items);
      }
    }
  }

  /** On the historical path, every error other than a storage error (an unknown partner,
      a missing key, a malformed timestamp) is raised before anything is written: the
      store is exactly as it was. An unknown partner in particular writes nothing. */
  lemma HistoricalErrorsBeforeWrites(up: Engine, db: Db, partnerName: string, o: Order)
    ensures var r := IngestOrder(up, db, partnerName, o, false);
            && (r.result.Err? && !r.result.error.Storage? ==> r.db == db && r.log == [])
            && (PartnerId(db, partnerName) == Int(-1) ==>
                  r == Run(db, [], Err(UnknownPartner(partnerName))))
  {
    var partnerId := PartnerId(db, partnerName);
    if partnerId != Int(-1) {
      OrderErrorsBeforeWrites(up, db, o, partnerId, Int(-1));
    }
  }

  /** On the webhook path, such an error leaves at most the customer written: the orders
      table and every table but customers are as they were. */
  lemma WebhookErrorsBeforeWrites(schema: Schema, up: Engine, db: Db, partnerName: string, o: Order)
    requires SafeEngine(schema, up) && IngestSchema(schema) && WellFormed(schema, db)
    ensures var r := IngestOrder(up, db, partnerName, o, true);
            r.result.Err? && !r.result.error.Storage? ==>
              && Tables(r.log) <= [CustomersTable]
              && forall t :: t in db.tables && t != CustomersTable ==> t in r.db.tables && r.db.tables[t] == db.tables[t]
  {
    WebhookEvolves(schema, up, db, partnerName, o);
    if o.customer.Some? {
      var c := CustomerFields(o.customer.value);
      var s := up(db, CustomersTable, c);
      if s.result.Ok? {
        var w := Logged(CustomersTable, c, s.result.value);
        TablesOne(w);
        if o.locationId.Some? {
          OrderErrorsBeforeWrites(up, s.db, o, o.locationId.value, Scalar(s.result.value));
          var rest := IngestFromOrder(up, s.db, o, o.locationId.value, Scalar(s.result.value));
          if rest.result.Err? && !rest.result.error.Storage? {
            assert [w] + rest.log == [w];
          }
        }
      }
    }
  }

}
