/** How the two revisions of the normaliser differ. core/order_manager.py runs over
    core/db_utils.py, whose `upsert` executes the merge only when a column is asked for;
    db/order_manager.py runs over db/db_utils.py, which always executes it. The normaliser
    asks for no column when it writes order_items and order_item_modifiers, so the core
    revision builds those two merges and never runs them. */
module CoreRevision {
  import opened Wrappers
  import opened Relational
  import opened UpsertLaws
  import opened Ingestion
  import IngestionLaws
  import IngestionRuns
  import Webhook

  /** No call of the engine changes table `t`. */
  ghost predicate Leaves(up: Engine, t: string)
  {
    forall db: Db, table: string, data: seq<Field> :: t in db.tables ==>
      t in up(db, table, data).db.tables && up(db, table, data).db.tables[t] == db.tables[t]
  }

  /** A core `upsert` changes no table but its own, and not even that one when no column
      is asked for. */
  lemma CoreOtherTables(schema: Schema, db: Db, table: string, data: seq<Field>, pk: seq<string>,
                        returning: Option<string>, t: string)
    requires t in db.tables && (t != table || returning.None?)
    ensures var s := CoreSpec(schema, db, table, data, pk, returning);
            t in s.db.tables && s.db.tables[t] == db.tables[t]
  {
    if returning.Some? && Accepts(schema, db, table, data, pk, returning) {
      var w := Written(schema, db, table, data, pk, returning);
      assert t in w.db.tables && w.db.tables[t] == db.tables[t];
    }
  }

  /** The core engine never changes order_items or order_item_modifiers. */
  lemma CoreLeavesLinks(schema: Schema)
    ensures Leaves(CoreUpserter(schema), OrderItemsTable)
    ensures Leaves(CoreUpserter(schema), OrderItemModifiersTable)
  {
    forall db: Db, table: string, data: seq<Field>, t: string |
      (t == OrderItemsTable || t == OrderItemModifiersTable) && t in db.tables
      ensures t in CoreUpserter(schema)(db, table, data).db.tables
              && CoreUpserter(schema)(db, table, data).db.tables[t] == db.tables[t]
    {
      CoreOtherTables(schema, db, table, data, KeyOf(table), RetOf(table), t);
    }
  }

  lemma {:induction false} ModifiersLeave(up: Engine, t: string, db: Db, orderId: Value, itemId: Value,
                                          mods: seq<Modifier>)
    requires Leaves(up, t) && t in db.tables
    ensures var r := IngestModifiers(up, db, orderId, itemId, mods);
            t in r.db.tables && r.db.tables[t] == db.tables[t]
    decreases |mods|
  {
    if mods != [] {
      var m := mods[0];
      var s1 := up(db, ModifiersTable, ModifierFields(m));
      if s1.result.Ok? {
        var link := OrderItemModifierFields(orderId, itemId, Scalar(s1.result.value), m);
        var s2 := up(s1.db, OrderItemModifiersTable, link);
        if s2.result.Ok? {
          ModifiersLeave(up, t, s2.db, orderId, itemId, mods[1..]);
        }
      }
    }
  }

  lemma {:induction false} ItemsLeave(up: Engine, t: string, db: Db, orderId: Value, items: seq<Item>)
    requires Leaves(up, t) && t in db.tables
    ensures var r := IngestItems(up, db, orderId, items);
            t in r.db.tables && r.db.tables[t] == db.tables[t]
    decreases |items|
  {
    if items != [] {
      var i := items[0];
      var s1 := up(db, ItemsTable, ItemFields(i));
      if s1.result.Ok? {
        var itemId := Scalar(s1.result.value);
        var s2 := up(s1.db, OrderItemsTable, OrderItemFields(orderId, itemId, i));
        if s2.result.Ok? {
          ModifiersLeave(up, t, s2.db, orderId, itemId, i.modifiers);
          var mods := IngestModifiers(up, s2.db, orderId, itemId, i.modifiers);
          if mods.result.Ok? {
            ItemsLeave(up, t, mods.db, orderId, items[1..]);
          }
        }
      }
    }
  }

  lemma {:induction false} FromOrderLeave(up: Engine, t: string, db: Db, o: Order, partnerId: Value, customerId: Value)
    requires Leaves(up, t) && t in db.tables
    ensures var r := IngestFromOrder(up, db, o, partnerId, customerId);
            t in r.db.tables && r.db.tables[t] == db.tables[t]
  {
    var fields := OrderFields(o, partnerId, customerId);
    if fields.Ok? {
      var s := up(db, OrdersTable, fields.value);
      if s.result.Ok? {
        ItemsLeave(up, t, s.db, Scalar(s.result.value), o.items);
      }
    }
  }

  /** A whole run with an engine that never changes `t` leaves `t` as it was. */
  lemma {:induction false} IngestLeaves(up: Engine, t: string, db: Db, partnerName: string, o: Order, isWebhook: bool)
    requires Leaves(up, t) && t in db.tables
    ensures var r := IngestOrder(up, db, partnerName, o, isWebhook);
            t in r.db.tables && r.db.tables[t] == db.tables[t]
  {
    if isWebhook && o.customer.Some? {
      var s := up(db, CustomersTable, CustomerFields(o.customer.value));
      if s.result.Ok? && o.locationId.Some? {
        FromOrderLeave(up, t, s.db, o, o.locationId.value, Scalar(s.result.value));
      }
    } else if !isWebhook {
      FromOrderLeave(up, t, db, o, PartnerId(db, partnerName), Int(-1));
    }
  }

  /** A run over an engine that never changes the two link tables leaves both as they
      were, and a run that returns has still made every call of its plan. */
  lemma {:induction false} LinksLeftAlone(up: Engine, db: Db, partnerName: string, o: Order, isWebhook: bool)
    requires Leaves(up, OrderItemsTable) && Leaves(up, OrderItemModifiersTable)
    requires OrderItemsTable in db.tables && OrderItemModifiersTable in db.tables
    ensures var r := IngestOrder(up, db, partnerName, o, isWebhook);
            && OrderItemsTable in r.db.tables && r.db.tables[OrderItemsTable] == db.tables[OrderItemsTable]
            && OrderItemModifiersTable in r.db.tables
            && r.db.tables[OrderItemModifiersTable] == db.tables[OrderItemModifiersTable]
            && (r.result.Ok? ==> IngestionRuns.Tables(r.log) == IngestionRuns.Plan(o, isWebhook))
  {
    IngestLeaves(up, OrderItemsTable, db, partnerName, o, isWebhook);
    IngestLeaves(up, OrderItemModifiersTable, db, partnerName, o, isWebhook);
    if isWebhook {
      IngestionRuns.WebhookFollowsPlan(up, db, partnerName, o);
    } else {
      IngestionRuns.HistoricalFollowsPlan(up, db, partnerName, o);
    }
  }

  /** core's `insert_order_data` as written: whatever the payload, and whether the run
      raises or not, order_items and order_item_modifiers are left as they were, although
      a run that returns has made every call of its plan, one order_items call per item
      and one order_item_modifiers call per modifier. */
  lemma {:induction false} CoreIngestSkipsLinks(schema: Schema, db: Db, partnerName: string, o: Order, isWebhook: bool)
    requires OrderItemsTable in db.tables && OrderItemModifiersTable in db.tables
    ensures var r := IngestOrder(CoreUpserter(schema), db, partnerName, o, isWebhook);
            && OrderItemsTable in r.db.tables && r.db.tables[OrderItemsTable] == db.tables[OrderItemsTable]
            && OrderItemModifiersTable in r.db.tables
            && r.db.tables[OrderItemModifiersTable] == db.tables[OrderItemModifiersTable]
            && (r.result.Ok? ==> IngestionRuns.Tables(r.log) == IngestionRuns.Plan(o, isWebhook))
  {
    CoreLeavesLinks(schema);
    LinksLeftAlone(CoreUpserter(schema), db, partnerName, o, isWebhook);
  }

  /** The merging engine writes what a link call asks for: an accepted order_items or
      order_item_modifiers dict ends up in a row of its table. Core's engine returns from
      the same call with every table unchanged. */
  lemma MergingWritesLinks(schema: Schema, db: Db, table: string, data: seq<Field>)
    requires SchemaOk(schema) && WellFormed(schema, db)
    requires table == OrderItemsTable || table == OrderItemModifiersTable
    requires Accepts(schema, db, table, data, KeyOf(table), None)
    ensures var s := Upserter(schema)(db, table, data);
            && s.result.Ok? && table in s.db.tables && s.result.value.id in s.db.tables[table]
            && Holds(s.db.tables[table][s.result.value.id], ToRow(data))
    ensures var c := CoreUpserter(schema)(db, table, data);
            c.result == Ok(Unmerged) && c.db.tables == db.tables
  {
    IngestionLaws.WrittenHolds(schema, db, table, data, KeyOf(table), None);
  }

  /** The webhook stores through core/order_manager.py, so no notification, whatever the
      order, the sync outcome or the environment, ever changes order_items or
      order_item_modifiers. */
  lemma WebhookSkipsLinks(schema: Schema, db: Db, n: Webhook.Notification, prod: bool, occurredAt: string,
                          syncOk: bool)
    requires OrderItemsTable in db.tables && OrderItemModifiersTable in db.tables
    ensures var s := Webhook.Serve(CoreUpserter(schema), db, n, prod, occurredAt, syncOk);
            && OrderItemsTable in s.db.tables && s.db.tables[OrderItemsTable] == db.tables[OrderItemsTable]
            && OrderItemModifiersTable in s.db.tables
            && s.db.tables[OrderItemModifiersTable] == db.tables[OrderItemModifiersTable]
  {
    var up := CoreUpserter(schema);
    if Webhook.Rejected(n) || !Webhook.Identified(n.order.items) || Webhook.Canceled(n) {
      Webhook.ServeLeavesStore(up, db, n, prod, occurredAt, syncOk);
    } else {
      Webhook.ServeStores(up, db, n, prod, occurredAt, syncOk);
      CoreIngestSkipsLinks(schema, db, n.restaurantName, n.order, true);
    }
  }
}
