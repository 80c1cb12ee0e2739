/** Referential completeness of a run: the normaliser writes each item's order_items row
    before any of that item's order_item_modifiers rows, with the same order and item ids,
    and no later write removes a row or changes its key. So a store in which every
    order_item_modifiers row has an order_items row with its (order_id, item_id) stays so. */
module IngestionRefs {
  import opened Wrappers
  import opened Relational
  import opened UpsertLaws
  import opened Ingestion
  import opened IngestionLaws
  import opened IngestionRuns
  import opened IngestionStore

  /** Some order_items row carries this (order_id, item_id). */
  ghost predicate LinksTo(orderItems: Table, orderId: Value, itemId: Value)
  {
    exists j :: j in orderItems && LinkRow(orderItems[j], orderId, itemId)
  }

  predicate LinkRow(row: Row, orderId: Value, itemId: Value)
  {
    "order_id" in row && "item_id" in row && row["order_id"] == orderId && row["item_id"] == itemId
  }

  /** Every order_item_modifiers row has an order_items row with its (order_id, item_id). */
  ghost predicate RefComplete(db: Db)
  {
    && OrderItemsTable in db.tables && OrderItemModifiersTable in db.tables
    && forall id :: id in db.tables[OrderItemModifiersTable] ==>
         var row := db.tables[OrderItemModifiersTable][id];
         "order_id" in row && "item_id" in row
         && LinksTo(db.tables[OrderItemsTable], row["order_id"], row["item_id"])
  }

  /** A link survives any change that keeps the order_items keys. */
  lemma LinksToKept(t: Table, t2: Table, orderId: Value, itemId: Value)
    requires LinksTo(t, orderId, itemId) && Kept(t, t2, KeyOf(OrderItemsTable))
    ensures LinksTo(t2, orderId, itemId)
  {
    var j :| j in t && LinkRow(t[j], orderId, itemId);
    assert "order_id" in KeyOf(OrderItemsTable) && "item_id" in KeyOf(OrderItemsTable);
    assert LinkRow(t2[j], orderId, itemId);
  }

  /** The store stays referentially complete while order_item_modifiers is untouched and
      order_items keeps its keys. */
  lemma RefFrame(db: Db, db2: Db)
    requires RefComplete(db)
    requires OrderItemsTable in db2.tables && OrderItemModifiersTable in db2.tables
    requires db2.tables[OrderItemModifiersTable] == db.tables[OrderItemModifiersTable]
    requires Kept(db.tables[OrderItemsTable], db2.tables[OrderItemsTable], KeyOf(OrderItemsTable))
    ensures RefComplete(db2)
  {
    var oi, oi2 := db.tables[OrderItemsTable], db2.tables[OrderItemsTable];
    forall id | id in db2.tables[OrderItemModifiersTable]
      ensures var row := db2.tables[OrderItemModifiersTable][id];
              "order_id" in row && "item_id" in row && LinksTo(oi2, row["order_id"], row["item_id"])
    {
      var row := db.tables[OrderItemModifiersTable][id];
      LinksToKept(oi, oi2, row["order_id"], row["item_id"]);
    }
  }

  /** A write to any ingestion table but order_item_modifiers keeps the store well formed
      and referentially complete, and keeps every link. */
  lemma OtherWriteKeepsRefs(schema: Schema, up: Engine, db: Db, table: string, data: seq<Field>,
                            orderId: Value, itemId: Value)
    requires SafeEngine(schema, up) && IngestSchema(schema) && WellFormed(schema, db) && RefComplete(db)
    requires table in IngestTables && table != OrderItemModifiersTable && DictOk(table, data)
    ensures var s := up(db, table, data);
            && WellFormed(schema, s.db) && RefComplete(s.db)
            && (LinksTo(db.tables[OrderItemsTable], orderId, itemId) ==>
                  LinksTo(s.db.tables[OrderItemsTable], orderId, itemId))
  {
    var s := up(db, table, data);
    assert StepOk(schema, db, s, table, data);
    if table != OrderItemsTable {
      KeptRefl(db.tables[OrderItemsTable], KeyOf(OrderItemsTable));
    }
    RefFrame(db, s.db);
    if LinksTo(db.tables[OrderItemsTable], orderId, itemId) {
      LinksToKept(db.tables[OrderItemsTable], s.db.tables[OrderItemsTable], orderId, itemId);
    }
  }

  /** An order_item_modifiers write whose (order_id, item_id) is already linked keeps the
      store referentially complete. */
  lemma LinkWriteKeepsRefs(schema: Schema, up: Engine, db: Db, orderId: Value, itemId: Value,
                           modifierId: Value, m: Modifier)
    requires SafeEngine(schema, up) && IngestSchema(schema) && WellFormed(schema, db)
    requires RefComplete(db) && LinksTo(db.tables[OrderItemsTable], orderId, itemId)
    ensures var s := up(db, OrderItemModifiersTable, OrderItemModifierFields(orderId, itemId, modifierId, m));
            && WellFormed(schema, s.db) && RefComplete(s.db)
            && LinksTo(s.db.tables[OrderItemsTable], orderId, itemId)
  {
    var link := OrderItemModifierFields(orderId, itemId, modifierId, m);
    OrderItemModifierDictOk(orderId, itemId, modifierId, m);
    var s := up(db, OrderItemModifiersTable, link);
    assert StepOk(schema, db, s, OrderItemModifiersTable, link);
    var oim, oim2 := db.tables[OrderItemModifiersTable], s.db.tables[OrderItemModifiersTable];
    var oi := db.tables[OrderItemsTable];
    assert s.db.tables[OrderItemsTable] == oi;
    assert "order_id" in KeyOf(OrderItemModifiersTable) && "item_id" in KeyOf(OrderItemModifiersTable);
    forall id | id in oim2
      ensures "order_id" in oim2[id] && "item_id" in oim2[id] && LinksTo(oi, oim2[id]["order_id"], oim2[id]["item_id"])
    {
      if id !in oim {
        assert LinkRow(oim2[id], orderId, itemId);
      }
    }
  }

  lemma {:induction false} ModifiersKeepRefs(schema: Schema, up: Engine, db: Db, orderId: Value, itemId: Value,
                                             mods: seq<Modifier>)
    requires SafeEngine(schema, up) && IngestSchema(schema) && WellFormed(schema, db)
    requires RefComplete(db) && LinksTo(db.tables[OrderItemsTable], orderId, itemId)
    ensures var r := IngestModifiers(up, db, orderId, itemId, mods);
            WellFormed(schema, r.db) && RefComplete(r.db)
    decreases |mods|
  {
    if mods != [] {
      var m := mods[0];
      ModifierDictOk(m);
      OtherWriteKeepsRefs(schema, up, db, ModifiersTable, ModifierFields(m), orderId, itemId);
      var s1 := up(db, ModifiersTable, ModifierFields(m));
      if s1.result.Ok? {
        var link := OrderItemModifierFields(orderId, itemId, Scalar(s1.result.value), m);
        LinkWriteKeepsRefs(schema, up, s1.db, orderId, itemId, Scalar(s1.result.value), m);
        var s2 := up(s1.db, OrderItemModifiersTable, link);
        if s2.result.Ok? {
          ModifiersKeepRefs(schema, up, s2.db, orderId, itemId, mods[1..]);
        }
      }
    }
  }

  /** The order_items write of an item links its (order_id, item_id). */
  lemma OrderItemWriteLinks(schema: Schema, up: Engine, db: Db, orderId: Value, itemId: Value, i: Item)
    requires SafeEngine(schema, up) && IngestSchema(schema) && WellFormed(schema, db) && RefComplete(db)
    ensures var s := up(db, OrderItemsTable, OrderItemFields(orderId, itemId, i));
            && WellFormed(schema, s.db) && RefComplete(s.db)
            && (s.result.Ok? ==> LinksTo(s.db.tables[OrderItemsTable], orderId, itemId))
  {
    var link := OrderItemFields(orderId, itemId, i);
    OrderItemDictOk(orderId, itemId, i);
    OtherWriteKeepsRefs(schema, up, db, OrderItemsTable, link, orderId, itemId);
    var s := up(db, OrderItemsTable, link);
    if s.result.Ok? {
      assert StepOk(schema, db, s, OrderItemsTable, link);
      var id := s.result.value.id;
      var row, key := s.db.tables[OrderItemsTable][id], ToRow(link);
      assert Holds(row, key);
      assert "order_id" in key && "item_id" in key;
      assert LinkRow(row, orderId, itemId);
    }
  }

  lemma {:induction false} ItemsKeepRefs(schema: Schema, up: Engine, db: Db, orderId: Value, items: seq<Item>)
    requires SafeEngine(schema, up) && IngestSchema(schema) && WellFormed(schema, db) && RefComplete(db)
    ensures RefComplete(IngestItems(up, db, orderId, items).db)
    decreases |items|
  {
    if items != [] {
      var i := items[0];
      ItemDictOk(i);
      OtherWriteKeepsRefs(schema, up, db, ItemsTable, ItemFields(i), orderId, Null);
      var s1 := up(db, ItemsTable, ItemFields(i));
      if s1.result.Ok? {
        var itemId := Scalar(s1.result.value);
        OrderItemWriteLinks(schema, up, s1.db, orderId, itemId, i);
        var s2 := up(s1.db, OrderItemsTable, OrderItemFields(orderId, itemId, i));
        if s2.result.Ok? {
          var mods := IngestModifiers(up, s2.db, orderId, itemId, i.modifiers);
          ModifiersKeepRefs(schema, up, s2.db, orderId, itemId, i.modifiers);
          if mods.result.Ok? {
            ItemsKeepRefs(schema, up, mods.db, orderId, items[1..]);
          }
        }
      }
    }
  }

  /** A run that starts from a referentially complete store leaves it so, whether it
      succeeds or stops early: every order_item_modifiers row it writes has the order_items
      row written just before it. */
  lemma IngestKeepsRefs(schema: Schema, up: Engine, db: Db, partnerName: string, o: Order, isWebhook: bool)
    requires SafeEngine(schema, up) && IngestSchema(schema) && WellFormed(schema, db) && RefComplete(db)
    ensures RefComplete(IngestOrder(up, db, partnerName, o, isWebhook).db)
  {
    var partnerId := PartnerId(db, partnerName);
    if isWebhook && o.customer.Some? {
      var c := CustomerFields(o.customer.value);
      CustomerDictOk(o.customer.value);
      OtherWriteKeepsRefs(schema, up, db, CustomersTable, c, Null, Null);
      var s := up(db, CustomersTable, c);
      if s.result.Ok? && o.locationId.Some? {
        OrderKeepsRefs(schema, up, s.db, o, o.locationId.value, Scalar(s.result.value));
      }
    } else if !isWebhook && partnerId != Int(-1) {
      OrderKeepsRefs(schema, up, db, o, partnerId, Int(-1));
    }
  }

  lemma OrderKeepsRefs(schema: Schema, up: Engine, db: Db, o: Order, partnerId: Value, customerId: Value)
    requires SafeEngine(schema, up) && IngestSchema(schema) && WellFormed(schema, db) && RefComplete(db)
    ensures RefComplete(IngestFromOrder(up, db, o, partnerId, customerId).db)
  {
    var fields := OrderFields(o, partnerId, customerId);
    OrderFieldsOk(o, partnerId, customerId);
    if fields.Ok? {
      OtherWriteKeepsRefs(schema, up, db, OrdersTable, fields.value, Null, Null);
      var s := up(db, OrdersTable, fields.value);
      if s.result.Ok? {
        ItemsKeepRefs(schema, up, s.db, Scalar(s.result.value), o.items);
      }
    }
  }
}
