/** Laws of a whole run of `insert_order_data`: the writes follow the payload, a run only
    touches the tables it writes, keeps the store well formed and every ingestion table
    unique on its key, keeps every order_item_modifier linked to an order_item, and raises
    every error other than a storage error before anything reaches the orders table. */
module IngestionRuns {
  import opened Wrappers
  import opened Relational
  import opened UpsertLaws
  import opened Ingestion
  import opened IngestionLaws

  // ---------------------------------------------------------------- write order

  /** The tables of a log, in order. */
  function Tables(log: seq<Write>): (ts: seq<string>)
    ensures |ts| == |log|
    ensures forall i :: 0 <= i < |log| ==> ts[i] == log[i].table
  {
    if log == [] then [] else [log[0].table] + Tables(log[1..])
  }

  lemma TablesAppend(a: seq<Write>, b: seq<Write>)
    ensures Tables(a + b) == Tables(a) + Tables(b)
  {
  }

  /** The writes the inner loop makes: a modifier, then its link, for each modifier. */
  function ModifierPlan(mods: seq<Modifier>): seq<string>
  {
    if mods == [] then [] else [ModifiersTable, OrderItemModifiersTable] + ModifierPlan(mods[1..])
  }

  /** The writes the outer loop makes: an item, its order item, then its modifiers'. */
  function ItemPlan(items: seq<Item>): seq<string>
  {
    if items == [] then []
    else [ItemsTable, OrderItemsTable] + ModifierPlan(items[0].modifiers) + ItemPlan(items[1..])
  }

  /** Every write of a run, in order: the customer on the webhook path, the order, then
      the items. */
  function Plan(o: Order, isWebhook: bool): seq<string>
  {
    (if isWebhook then [CustomersTable] else []) + [OrdersTable] + ItemPlan(o.items)
  }

  lemma {:induction false} ModifiersFollowPlan(up: Engine, db: Db, orderId: Value, itemId: Value,
                                               mods: seq<Modifier>)
    ensures var r := IngestModifiers(up, db, orderId, itemId, mods);
            && (r.result.Ok? ==> Tables(r.log) == ModifierPlan(mods))
            && (r.result.Err? ==> Tables(r.log) < ModifierPlan(mods) && r.result.error.Storage?)
    decreases |mods|
  {
    if mods != [] {
      var r := IngestModifiers(up, db, orderId, itemId, mods);
      var s1 := up(db, ModifiersTable, ModifierFields(mods[0]));
      if s1.result.Ok? {
        var link := OrderItemModifierFields(orderId, itemId, Scalar(s1.result.value), mods[0]);
        var s2 := up(s1.db, OrderItemModifiersTable, link);
        if s2.result.Ok? {
          var rest := IngestModifiers(up, s2.db, orderId, itemId, mods[1..]);
          ModifiersFollowPlan(up, s2.db, orderId, itemId, mods[1..]);
          var head := [Logged(ModifiersTable, ModifierFields(mods[0]), s1.result.value),
                       Logged(OrderItemModifiersTable, link, s2.result.value)];
          TablesAppend(head, rest.log);
        }
      }
    }
  }

  /** A strict prefix stays one under a common head and any tail. */
  lemma StrictPrefix(p: seq<string>, a: seq<string>, b: seq<string>, c: seq<string>)
    requires a < b
    ensures p + a < p + b + c
  {
    assert (p + b + c)[..|p + a|] == p + a;
  }

  lemma {:induction false} ItemsFollowPlan(up: Engine, db: Db, orderId: Value, items: seq<Item>)
    ensures var r := IngestItems(up, db, orderId, items);
            && (r.result.Ok? ==> Tables(r.log) == ItemPlan(items))
            && (r.result.Err? ==> Tables(r.log) < ItemPlan(items) && r.result.error.Storage?)
  {
    ItemsCompletePlan(up, db, orderId, items);
    ItemsStopEarly(up, db, orderId, items);
  }

  lemma {:induction false} ItemsCompletePlan(up: Engine, db: Db, orderId: Value, items: seq<Item>)
    ensures var r := IngestItems(up, db, orderId, items);
            r.result.Ok? ==> Tables(r.log) == ItemPlan(items)
    decreases |items|
  {
    var r := IngestItems(up, db, orderId, items);
    if items != [] && r.result.Ok? {
      var i := items[0];
      var s1 := up(db, ItemsTable, ItemFields(i));
      var itemId := Scalar(s1.result.value);
      var link := OrderItemFields(orderId, itemId, i);
      var s2 := up(s1.db, OrderItemsTable, link);
      var head := [Logged(ItemsTable, ItemFields(i), s1.result.value),
                   Logged(OrderItemsTable, link, s2.result.value)];
      var mods := IngestModifiers(up, s2.db, orderId, itemId, i.modifiers);
      ModifiersFollowPlan(up, s2.db, orderId, itemId, i.modifiers);
      var rest := IngestItems(up, mods.db, orderId, items[1..]);
      ItemsCompletePlan(up, mods.db, orderId, items[1..]);
      assert r.log == head + mods.log + rest.log;
      TablesAppend(head, mods.log);
      TablesAppend(head + mods.log, rest.log);
    }
  }

  lemma {:induction false} ItemsStopEarly(up: Engine, db: Db, orderId: Value, items: seq<Item>)
    ensures var r := IngestItems(up, db, orderId, items);
            r.result.Err? ==> Tables(r.log) < ItemPlan(items) && r.result.error.Storage?
    decreases |items|
  {
    if items != [] {
      var i := items[0];
      var s1 := up(db, ItemsTable, ItemFields(i));
      var later := ModifierPlan(i.modifiers) + ItemPlan(items[1..]);
      assert ItemPlan(items) == [ItemsTable, OrderItemsTable] + later;
      if s1.result.Ok? {
        var link := OrderItemFields(orderId, Scalar(s1.result.value), i);
        var s2 := up(s1.db, OrderItemsTable, link);
        if s2.result.Err? {
          StrictPrefix([ItemsTable], [], [OrderItemsTable], later);
        } else {
          ItemTurnStopsEarly(up, db, orderId, items);
        }
      }
    }
  }

  /** A turn of the outer loop whose item and order item go through, then the rest. */
  lemma {:induction false} ItemTurnStopsEarly(up: Engine, db: Db, orderId: Value, items: seq<Item>)
    requires items != []
    requires var s1 := up(db, ItemsTable, ItemFields(items[0]));
             && s1.result.Ok?
             && up(s1.db, OrderItemsTable, OrderItemFields(orderId, Scalar(s1.result.value), items[0])).result.Ok?
    ensures var r := IngestItems(up, db, orderId, items);
            r.result.Err? ==> Tables(r.log) < ItemPlan(items) && r.result.error.Storage?
    decreases |items|, 0
  {
    var r := IngestItems(up, db, orderId, items);
    var i := items[0];
    var s1 := up(db, ItemsTable, ItemFields(i));
    var itemId := Scalar(s1.result.value);
    var link := OrderItemFields(orderId, itemId, i);
    var s2 := up(s1.db, OrderItemsTable, link);
    var pair := [ItemsTable, OrderItemsTable];
    assert ItemPlan(items) == pair + ModifierPlan(i.modifiers) + ItemPlan(items[1..]);
    var head := [Logged(ItemsTable, ItemFields(i), s1.result.value),
                 Logged(OrderItemsTable, link, s2.result.value)];
    assert Tables(head) == pair;
    var mods := IngestModifiers(up, s2.db, orderId, itemId, i.modifiers);
    ModifiersFollowPlan(up, s2.db, orderId, itemId, i.modifiers);
    TablesAppend(head, mods.log);
    if mods.result.Err? {
      StrictPrefix(pair, Tables(mods.log), ModifierPlan(i.modifiers), ItemPlan(items[1..]));
    } else {
      var rest := IngestItems(up, mods.db, orderId, items[1..]);
      ItemsStopEarly(up, mods.db, orderId, items[1..]);
      TablesAppend(head + mods.log, rest.log);
      if rest.result.Err? {
        StrictPrefix(pair + ModifierPlan(i.modifiers), Tables(rest.log), ItemPlan(items[1..]), []);
      }
    }
  }

  lemma OrderFollowsPlan(up: Engine, db: Db, o: Order, partnerId: Value, customerId: Value)
    ensures var r := IngestFromOrder(up, db, o, partnerId, customerId);
            && (r.result.Ok? ==> Tables(r.log) == [OrdersTable] + ItemPlan(o.items))
            && (r.result.Err? ==> Tables(r.log) < [OrdersTable] + ItemPlan(o.items))
  {
    var r := IngestFromOrder(up, db, o, partnerId, customerId);
    var fields := OrderFields(o, partnerId, customerId);
    if fields.Ok? {
      var s := up(db, OrdersTable, fields.value);
      if s.result.Ok? {
        var w := Logged(OrdersTable, fields.value, s.result.value);
        var items := IngestItems(up, s.db, Scalar(s.result.value), o.items);
        ItemsFollowPlan(up, s.db, Scalar(s.result.value), o.items);
        TablesAppend([w], items.log);
        if items.result.Err? {
          StrictPrefix([OrdersTable], Tables(items.log), ItemPlan(o.items), []);
        }
      }
    }
  }

  /** On the webhook path the writes follow the payload: the customer, the order, then for
      each item the item, its order item, and each modifier and its link, in payload order.
      A run that succeeds makes every write of the plan; one that raises has made a strict
      prefix of it. */
  lemma WebhookFollowsPlan(up: Engine, db: Db, partnerName: string, o: Order)
    ensures var r := IngestOrder(up, db, partnerName, o, true);
            && (r.result.Ok? <==> Tables(r.log) == Plan(o, true))
            && (r.result.Err? ==> Tables(r.log) < Plan(o, true))
  {
    var r := IngestOrder(up, db, partnerName, o, true);
    var tail := [OrdersTable] + ItemPlan(o.items);
    assert Plan(o, true) == [CustomersTable] + tail;
    if o.customer.Some? {
      var c := CustomerFields(o.customer.value);
      var s := up(db, CustomersTable, c);
      if s.result.Ok? {
        var w := Logged(CustomersTable, c, s.result.value);
        if o.locationId.Some? {
          var rest := IngestFromOrder(up, s.db, o, o.locationId.value, Scalar(s.result.value));
          assert r == Run(rest.db, [w] + rest.log, rest.result);
          OrderFollowsPlan(up, s.db, o, o.locationId.value, Scalar(s.result.value));
          TablesAppend([w], rest.log);
          if rest.result.Err? {
            StrictPrefix([CustomersTable], Tables(rest.log), tail, []);
          }
        } else {
          StrictPrefix([CustomersTable], [], tail, []);
        }
      }
    }
    if r.result.Err? {
      assert |Tables(r.log)| < |Plan(o, true)|;
    }
  }

  /** The same on the historical path, which writes no customer. */
  lemma HistoricalFollowsPlan(up: Engine, db: Db, partnerName: string, o: Order)
    ensures var r := IngestOrder(up, db, partnerName, o, false);
            && (r.result.Ok? <==> Tables(r.log) == Plan(o, false))
            && (r.result.Err? ==> Tables(r.log) < Plan(o, false))
  {
    var r := IngestOrder(up, db, partnerName, o, false);
    assert Plan(o, false) == [OrdersTable] + ItemPlan(o.items);
    var partnerId := PartnerId(db, partnerName);
    if partnerId != Int(-1) {
      OrderFollowsPlan(up, db, o, partnerId, Int(-1));
    }
    if r.result.Err? {
      assert |Tables(r.log)| < |Plan(o, false)|;
    }
  }
}
