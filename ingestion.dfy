/** The order normaliser (core/order_manager.py, and its near-copy db/order_manager.py):
    one nested order payload becomes upserts into customers, orders, items, modifiers,
    order_items and order_item_modifiers, in payload order.

    `IngestOrder` is the specification: the store after the run, the log of every upsert
    that went through (table, row id, dict, returned value), and the outcome. Python's
    exceptions are the `Err` cases of `IngestError`. The run takes the upsert it calls as
    a parameter, so laws that hold for any engine (the order of the writes, which errors
    come first) are proved once for all. The two revisions differ only in that engine:
    `Upserter(schema)` is db/db_utils.py's `upsert`, which always merges, and
    `CoreUpserter(schema)` is core/db_utils.py's, which merges only when a column is asked
    for. */
module Ingestion {
  import opened Wrappers
  import opened DateTimes
  import opened Relational
  import opened UpsertLaws

  // ---------------------------------------------------------------- payload

  datatype Customer = Customer(firstName: Value, contactNumber: Value, contactAccessCode: Value)

  /** One modifier of an ordered item; `fractional` is `total_price.fractional`. */
  datatype Modifier = Modifier(posItemId: Value, name: Value, operationalName: Value,
                               quantity: Value, fractional: Value)

  datatype Item = Item(posItemId: Value, name: Value, operationalName: Value,
                       quantity: Value, fractional: Value, modifiers: seq<Modifier>)

  /** The order payload. `statusLog` holds the `at` of each status-log entry. The keys the
      normaliser may find missing are `Option`s: `prepare_for`, `start_preparing_at`, and on
      the webhook path `customer` and `location_id`. */
  datatype Order = Order(id: Value, orderNumber: Value, status: Value, statusLog: seq<string>,
                         prepareFor: Option<string>, startPreparingAt: Option<string>,
                         locationId: Option<Value>, customer: Option<Customer>, items: seq<Item>)

  /** What `insert_order_data` raises: `KeyError`, `IndexError`, `ValueError` (an unparsable
      timestamp, an unknown partner) or the engine's `ConnectionError`. */
  datatype IngestError =
    | KeyError(key: string)
    | IndexError
    | BadTimestamp(text: string)
    | UnknownPartner(name: string)
    | Storage(error: DbError)

  /** One upsert that went through: its table, the id of the row it wrote, its dict, and
      what it returned. */
  datatype Write = Write(table: string, id: nat, data: seq<Field>, ret: Option<Value>)

  /** The store after a run, the upserts it made, and whether it raised. */
  datatype Run = Run(db: Db, log: seq<Write>, result: Result<(), IngestError>)

  // ---------------------------------------------------------------- tables and keys

  const CustomersTable := "customers"
  const OrdersTable := "orders"
  const ItemsTable := "items"
  const ModifiersTable := "modifiers"
  const OrderItemsTable := "order_items"
  const OrderItemModifiersTable := "order_item_modifiers"
  const PartnersTable := "partners"

  /** The `pk_cols` each table is upserted with. */
  function KeyOf(table: string): (pk: seq<string>)
    ensures (table in {CustomersTable, OrdersTable, ItemsTable, ModifiersTable,
                       OrderItemsTable, OrderItemModifiersTable}) ==> pk != []
  {
    if table == CustomersTable then ["contact_number"]
    else if table == OrdersTable then ["platform_order_id"]
    else if table == ItemsTable then ["item_name"]
    else if table == ModifiersTable then ["modifier_name"]
    else if table == OrderItemsTable then ["order_id", "item_id"]
    else if table == OrderItemModifiersTable then ["order_id", "item_id", "modifier_id"]
    else []
  }

  /** The `returning_col` each table is upserted with: its serial id, for the four tables
      whose id the normaliser needs next. */
  function RetOf(table: string): Option<string>
  {
    if table == CustomersTable then Some("customer_id")
    else if table == OrdersTable then Some("order_id")
    else if table == ItemsTable then Some("item_id")
    else if table == ModifiersTable then Some("modifier_id")
    else None
  }

  /** An upsert as the normaliser calls it: store, table and dict in, the new store and
      the written row's id and returned value (or the error) out. */
  type Engine = (Db, string, seq<Field>) -> Step<Upserted>

  /** The engine of db/db_utils.py's `upsert`, called with each table's key and returned
      column. */
  ghost function Upserter(schema: Schema): Engine
  {
    (db: Db, table: string, data: seq<Field>) => UpsertSpec(schema, db, table, data, KeyOf(table), RetOf(table))
  }

  /** What the log records for a call whose merge core/db_utils.py skipped: no row was
      written and nothing returned. Only order_items and order_item_modifiers are called
      that way, and the normaliser discards what those calls return. */
  const Unmerged := Upserted(0, None)

  /** The engine of core/db_utils.py's `upsert`, called with each table's key and returned
      column. */
  ghost function CoreUpserter(schema: Schema): Engine
  {
    (db: Db, table: string, data: seq<Field>) =>
      var s := CoreSpec(schema, db, table, data, KeyOf(table), RetOf(table));
      Step(s.db, if s.result.Ok? then Ok(GetOr(s.result.value, Unmerged)) else Err(s.result.error))
  }

  /** The engine of the revision a connection's normaliser imports. */
  ghost function Revision(schema: Schema, core: bool): Engine
  {
    if core then CoreUpserter(schema) else Upserter(schema)
  }

  /** `.scalar()` of the merge: the returned value, `None` when nothing was returned. */
  function Scalar(u: Upserted): Value
  {
    GetOr(u.ret, Null)
  }

  // ---------------------------------------------------------------- the dicts

  function CustomerFields(c: Customer): seq<Field>
  {
    [Field("first_name", c.firstName), Field("contact_number", c.contactNumber),
     Field("contact_access_code", c.contactAccessCode)]
  }

  function ItemFields(i: Item): seq<Field>
  {
    [Field("platform_item_id", i.posItemId), Field("item_name", i.name),
     Field("item_operational_name", i.operationalName)]
  }

  function ModifierFields(m: Modifier): seq<Field>
  {
    [Field("platform_modifier_id", m.posItemId), Field("modifier_name", m.name),
     Field("modifier_operational_name", m.operationalName)]
  }

  function OrderItemFields(orderId: Value, itemId: Value, i: Item): seq<Field>
  {
    [Field("order_id", orderId), Field("item_id", itemId), Field("quantity", i.quantity),
     Field("fractional_price", i.fractional)]
  }

  function OrderItemModifierFields(orderId: Value, itemId: Value, modifierId: Value, m: Modifier): seq<Field>
  {
    [Field("order_id", orderId), Field("item_id", itemId), Field("modifier_id", modifierId),
     Field("quantity", m.quantity), Field("fractional_price", m.fractional)]
  }

  /** `customer_id if customer_id != -1 else None`. */
  function CustomerRef(customerId: Value): (v: Value)
    ensures customerId == Int(-1) ==> v == Null
    ensures customerId != Int(-1) ==> v == customerId
  {
    if customerId == Int(-1) then Null else customerId
  }

  /** Parses one timestamp, raising `ValueError` on failure. */
  function Timestamp(s: string): (r: Result<Value, IngestError>)
    ensures r.Ok? <==> ParseDateTime(s).Some?
    ensures r.Ok? ==> r.value == Stamp(ParseDateTime(s).value)
    ensures r.Err? ==> r.error == BadTimestamp(s)
  {
    match ParseDateTime(s)
    case Some(dt) => Ok(Stamp(dt))
    case None => Err(BadTimestamp(s))
  }

  /** The dict `insert_order` builds, evaluated entry by entry: the first entry that raises
      decides the error. */
  function OrderFields(o: Order, partnerId: Value, customerId: Value): (r: Result<seq<Field>, IngestError>)
    ensures r.Ok? ==> |o.statusLog| >= 2 && o.prepareFor.Some? && o.startPreparingAt.Some?
    ensures r.Err? ==> !r.error.Storage? && !r.error.UnknownPartner?
  {
    if |o.statusLog| < 1 then Err(IndexError)
    else
      var placed := Timestamp(o.statusLog[0]);
      if placed.Err? then Err(placed.error)
      else if |o.statusLog| < 2 then Err(IndexError)
      else
        var updated := Timestamp(TruncateSubseconds(o.statusLog[1]));
        if updated.Err? then Err(updated.error)
        else if o.prepareFor.None? then Err(KeyError("prepare_for"))
        else
          var prepareFor := Timestamp(o.prepareFor.value);
          if prepareFor.Err? then Err(prepareFor.error)
          else if o.startPreparingAt.None? then Err(KeyError("start_preparing_at"))
          else
            var started := Timestamp(o.startPreparingAt.value);
            if started.Err? then Err(started.error)
            else Ok(OrderDict(o, placed.value, updated.value, prepareFor.value, started.value,
                              CustomerRef(customerId), partnerId))
  }

  /** The dict of `insert_order`, its timestamps already parsed. */
  function OrderDict(o: Order, placed: Value, updated: Value, prepareFor: Value, started: Value,
                     customerId: Value, partnerId: Value): seq<Field>
  {
    [Field("platform_order_id", o.id), Field("platform_order_number", o.orderNumber),
     Field("order_status", o.status), Field("order_placed_timestamp", placed),
     Field("order_updated_timestamp", updated), Field("order_prepare_for_timestamp", prepareFor),
     Field("order_start_prepping_at_timestamp", started), Field("customer_id", customerId),
     Field("partner_id", partnerId)]
  }

  // ---------------------------------------------------------------- partner lookup

  /** Python truthiness of a scalar, for `result or -1`. */
  predicate Truthy(v: Value)
  {
    v != Null && v != Int(0) && v != Text("")
  }

  predicate Named(row: Row, name: string)
  {
    "partner_name" in row && row["partner_name"] == Text(name)
  }

  /** The rows of `partners` carrying the name. */
  function NamedIds(db: Db, name: string): (ids: set<nat>)
    ensures PartnersTable in db.tables ==>
              forall id :: id in ids <==> id in db.tables[PartnersTable] && Named(db.tables[PartnersTable][id], name)
    ensures PartnersTable !in db.tables ==> ids == {}
  {
    if PartnersTable in db.tables then
      set id | id in db.tables[PartnersTable] && Named(db.tables[PartnersTable][id], name)
    else {}
  }

  /** `get_partner_id`: the `partner_id` of the first row named `name` (the lowest id: the
      query has no ORDER BY, and rows come back in insertion order), or -1 when there is no
      such row or its id is falsy. */
  ghost function PartnerId(db: Db, name: string): (v: Value)
    ensures NamedIds(db, name) == {} ==> v == Int(-1)
    ensures NamedIds(db, name) != {} ==>
              exists id :: id in NamedIds(db, name) && v == (var p := PartnerIdOf(db, id); if Truthy(p) then p else Int(-1))
  {
    var ids := NamedIds(db, name);
    if ids == {} then Int(-1)
    else
      var id := Least(ids);
      var p := PartnerIdOf(db, id);
      if Truthy(p) then p else Int(-1)
  }

  /** The `partner_id` column of one partners row. */
  function PartnerIdOf(db: Db, id: nat): Value
  {
    if PartnersTable in db.tables && id in db.tables[PartnersTable] && "partner_id" in db.tables[PartnersTable][id]
    then db.tables[PartnersTable][id]["partner_id"] else Null
  }

  /** `m` is the smallest element of `ids`. */
  ghost predicate IsLeast(m: nat, ids: set<nat>)
  {
    m in ids && forall j :: j in ids ==> m <= j
  }

  ghost function Least(ids: set<nat>): (m: nat)
    requires ids != {}
    ensures IsLeast(m, ids)
  {
    LeastExists(ids);
    var m :| IsLeast(m, ids);
    m
  }

  lemma {:induction false} LeastExists(ids: set<nat>)
    requires ids != {}
    ensures exists m :: IsLeast(m, ids)
    decreases ids
  {
    var x :| x in ids;
    if ids == {x} {
      assert IsLeast(x, ids);
    } else {
      LeastExists(ids - {x});
      var m :| IsLeast(m, ids - {x});
      var least := if x < m then x else m;
      forall j | j in ids
        ensures least <= j
      {
        if j != x {
          assert j in ids - {x};
        }
      }
      assert IsLeast(least, ids);
    }
  }

  // ---------------------------------------------------------------- the run

  /** The log entry of an upsert that went through. */
  function Logged(table: string, data: seq<Field>, u: Upserted): Write
  {
    Write(table, u.id, data, u.ret)
  }

  /** The inner loop: for each modifier, upsert it, then the order-item-modifier row that
      links it to the order and the item. */
  ghost function IngestModifiers(up: Engine, db: Db, orderId: Value, itemId: Value, mods: seq<Modifier>): Run
    decreases |mods|
  {
    if mods == [] then Run(db, [], Ok(()))
    else
      var m := mods[0];
      var s1 := up(db, ModifiersTable, ModifierFields(m));
      if s1.result.Err? then Run(s1.db, [], Err(Storage(s1.result.error)))
      else
        var w1 := Logged(ModifiersTable, ModifierFields(m), s1.result.value);
        var link := OrderItemModifierFields(orderId, itemId, Scalar(s1.result.value), m);
        var s2 := up(s1.db, OrderItemModifiersTable, link);
        if s2.result.Err? then Run(s2.db, [w1], Err(Storage(s2.result.error)))
        else
          var rest := IngestModifiers(up, s2.db, orderId, itemId, mods[1..]);
          Run(rest.db, [w1, Logged(OrderItemModifiersTable, link, s2.result.value)] + rest.log, rest.result)
  }

  /** The outer loop: for each item, upsert it, then its order-item row, then its modifiers. */
  ghost function IngestItems(up: Engine, db: Db, orderId: Value, items: seq<Item>): Run
    decreases |items|
  {
    if items == [] then Run(db, [], Ok(()))
    else
      var i := items[0];
      var s1 := up(db, ItemsTable, ItemFields(i));
      if s1.result.Err? then Run(s1.db, [], Err(Storage(s1.result.error)))
      else
        var w1 := Logged(ItemsTable, ItemFields(i), s1.result.value);
        var itemId := Scalar(s1.result.value);
        var link := OrderItemFields(orderId, itemId, i);
        var s2 := up(s1.db, OrderItemsTable, link);
        if s2.result.Err? then Run(s2.db, [w1], Err(Storage(s2.result.error)))
        else
          var head := [w1, Logged(OrderItemsTable, link, s2.result.value)];
          var mods := IngestModifiers(up, s2.db, orderId, itemId, i.modifiers);
          if mods.result.Err? then Run(mods.db, head + mods.log, mods.result)
          else
            var rest := IngestItems(up, mods.db, orderId, items[1..]);
            Run(rest.db, head + mods.log + rest.log, rest.result)
  }

  /** `insert_order` followed by the item loop, given the partner and customer ids. */
  ghost function IngestFromOrder(up: Engine, db: Db, o: Order, partnerId: Value, customerId: Value): Run
  {
    var fields := OrderFields(o, partnerId, customerId);
    if fields.Err? then Run(db, [], Err(fields.error))
    else
      var s := up(db, OrdersTable, fields.value);
      if s.result.Err? then Run(s.db, [], Err(Storage(s.result.error)))
      else
        var items := IngestItems(up, s.db, Scalar(s.result.value), o.items);
        Run(items.db, [Logged(OrdersTable, fields.value, s.result.value)] + items.log, items.result)
  }

  /** `insert_order_data(conn, partner_name, order_data, is_webhook)`. The webhook path
      upserts the customer and takes the payload's `location_id` as the partner id; the
      historical path looks the partner up by name, raises for an unknown one, and stores no
      customer. */
  ghost function IngestOrder(up: Engine, db: Db, partnerName: string, o: Order, isWebhook: bool): Run
  {
    if isWebhook then
      if o.customer.None? then Run(db, [], Err(KeyError("customer")))
      else
        var c := CustomerFields(o.customer.value);
        var s := up(db, CustomersTable, c);
        if s.result.Err? then Run(s.db, [], Err(Storage(s.result.error)))
        else
          var w := Logged(CustomersTable, c, s.result.value);
          if o.locationId.None? then Run(s.db, [w], Err(KeyError("location_id")))
          else
            var r := IngestFromOrder(up, s.db, o, o.locationId.value, Scalar(s.result.value));
            Run(r.db, [w] + r.log, r.result)
    else
      var partnerId := PartnerId(db, partnerName);
      if partnerId == Int(-1) then Run(db, [], Err(UnknownPartner(partnerName)))
      else IngestFromOrder(up, db, o, partnerId, Int(-1))
  }
}
