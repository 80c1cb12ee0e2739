/** What a run of the normaliser does to the store, proved on `IngestOrder`: the dicts, the
    order of the writes, which tables a run can touch, the invariants it keeps, and
    referential completeness of order_item_modifiers. */
module IngestionLaws {
  import opened Wrappers
  import opened DateTimes
  import opened Relational
  import opened UpsertLaws
  import opened Ingestion

  // ---------------------------------------------------------------- the dicts

  /** A dict the normaliser hands to `upsert` for `table`: its key columns are among its
      columns, it never names the returned serial column, and it repeats no column. */
  predicate DictOk(table: string, data: seq<Field>)
  {
    && DistinctColumns(data)
    && (forall c :: c in KeyOf(table) ==> c in ToRow(data))
    && (RetOf(table).Some? ==> RetOf(table).value !in ToRow(data))
  }

  lemma CustomerDictOk(c: Customer)
    ensures DictOk(CustomersTable, CustomerFields(c))
  {
    FieldsNamed(CustomerFields(c), ["first_name", "contact_number", "contact_access_code"]);
  }

  lemma ItemDictOk(i: Item)
    ensures DictOk(ItemsTable, ItemFields(i))
  {
    FieldsNamed(ItemFields(i), ["platform_item_id", "item_name", "item_operational_name"]);
  }

  lemma ModifierDictOk(m: Modifier)
    ensures DictOk(ModifiersTable, ModifierFields(m))
  {
    FieldsNamed(ModifierFields(m), ["platform_modifier_id", "modifier_name", "modifier_operational_name"]);
  }

  /** The order-item dict, and the link it carries. */
  lemma OrderItemDictOk(orderId: Value, itemId: Value, i: Item)
    ensures var d := OrderItemFields(orderId, itemId, i);
            && DictOk(OrderItemsTable, d) && "order_id" in ToRow(d) && "item_id" in ToRow(d)
            && ToRow(d)["order_id"] == orderId && ToRow(d)["item_id"] == itemId
  {
    var d := OrderItemFields(orderId, itemId, i);
    var cs := ["order_id", "item_id", "quantity", "fractional_price"];
    FieldsNamed(d, cs);
    assert ToRow(d)[cs[0]] == d[0].value && ToRow(d)[cs[1]] == d[1].value;
  }

  /** The order-item-modifier dict, and the link it carries. */
  lemma OrderItemModifierDictOk(orderId: Value, itemId: Value, modifierId: Value, m: Modifier)
    ensures var d := OrderItemModifierFields(orderId, itemId, modifierId, m);
            && DictOk(OrderItemModifiersTable, d) && "order_id" in ToRow(d) && "item_id" in ToRow(d)
            && ToRow(d)["order_id"] == orderId && ToRow(d)["item_id"] == itemId
  {
    var d := OrderItemModifierFields(orderId, itemId, modifierId, m);
    var cs := ["order_id", "item_id", "modifier_id", "quantity", "fractional_price"];
    FieldsNamed(d, cs);
    assert ToRow(d)[cs[0]] == d[0].value && ToRow(d)[cs[1]] == d[1].value;
  }

  /** An order that `insert_order` can build a dict for: two status-log entries, the
      placed time and the truncated update time parse, and `prepare_for` and
      `start_preparing_at` are present and parse. */
  predicate OrderParses(o: Order)
  {
    && |o.statusLog| >= 2
    && ParseDateTime(o.statusLog[0]).Some?
    && ParseDateTime(TruncateSubseconds(o.statusLog[1])).Some?
    && o.prepareFor.Some? && ParseDateTime(o.prepareFor.value).Some?
    && o.startPreparingAt.Some? && ParseDateTime(o.startPreparingAt.value).Some?
  }

  const OrderColumns: seq<string> :=
    ["platform_order_id", "platform_order_number", "order_status", "order_placed_timestamp",
     "order_updated_timestamp", "order_prepare_for_timestamp", "order_start_prepping_at_timestamp",
     "customer_id", "partner_id"]

  lemma OrderColumnsDistinct()
    ensures forall i, j :: 0 <= i < j < |OrderColumns| ==> OrderColumns[i] != OrderColumns[j]
    ensures "order_id" !in OrderColumns
  {
  }

  lemma OrderDictColumns(o: Order, placed: Value, updated: Value, prepareFor: Value, started: Value,
                         customerId: Value, partnerId: Value)
    ensures var d := OrderDict(o, placed, updated, prepareFor, started, customerId, partnerId);
            |d| == |OrderColumns| && forall i :: 0 <= i < |d| ==> d[i].column == OrderColumns[i]
  {
  }

  /** A dict whose columns are the distinct names `cs` holds each value under its name,
      and no column outside `cs`. */
  lemma NamedDict(d: seq<Field>, cs: seq<string>, absent: string)
    requires |d| == |cs| && forall i :: 0 <= i < |d| ==> d[i].column == cs[i]
    requires forall i, j :: 0 <= i < j < |cs| ==> cs[i] != cs[j]
    requires absent !in cs
    ensures DistinctColumns(d) && absent !in ToRow(d)
    ensures forall i :: 0 <= i < |d| ==> cs[i] in ToRow(d) && ToRow(d)[cs[i]] == d[i].value
  {
    FieldsNamed(d, cs);
  }

  /** The order dict is keyed on `platform_order_id` and carries the given values. */
  lemma OrderDictOk(o: Order, placed: Value, updated: Value, prepareFor: Value, started: Value,
                    customerId: Value, partnerId: Value)
    ensures var d := OrderDict(o, placed, updated, prepareFor, started, customerId, partnerId);
            && DictOk(OrdersTable, d)
            && ToRow(d)["platform_order_id"] == o.id
            && "order_placed_timestamp" in ToRow(d) && ToRow(d)["order_placed_timestamp"] == placed
            && "order_updated_timestamp" in ToRow(d) && ToRow(d)["order_updated_timestamp"] == updated
            && "customer_id" in ToRow(d) && ToRow(d)["customer_id"] == customerId
            && "partner_id" in ToRow(d) && ToRow(d)["partner_id"] == partnerId
  {
    var d := OrderDict(o, placed, updated, prepareFor, started, customerId, partnerId);
    OrderColumnsDistinct();
    OrderDictColumns(o, placed, updated, prepareFor, started, customerId, partnerId);
    NamedDict(d, OrderColumns, "order_id");
    assert ToRow(d)[OrderColumns[0]] == d[0].value && ToRow(d)[OrderColumns[3]] == d[3].value;
    assert ToRow(d)[OrderColumns[4]] == d[4].value && ToRow(d)[OrderColumns[7]] == d[7].value;
    assert ToRow(d)[OrderColumns[8]] == d[8].value;
  }

  /** `insert_order` builds its dict exactly when the order parses; the dict stores -1 as
      a NULL `customer_id`, takes the partner as given, and stores the placed time and the
      truncated update time parsed. */
  lemma OrderFieldsOk(o: Order, partnerId: Value, customerId: Value)
    ensures var r := OrderFields(o, partnerId, customerId);
            && (r.Ok? <==> OrderParses(o))
            && (r.Ok? ==>
                  && DictOk(OrdersTable, r.value)
                  && ToRow(r.value)["platform_order_id"] == o.id
                  && Field("order_placed_timestamp", Stamp(ParseDateTime(o.statusLog[0]).value)) in r.value
                  && Field("order_updated_timestamp",
                           Stamp(ParseDateTime(TruncateSubseconds(o.statusLog[1])).value)) in r.value
                  && Field("partner_id", partnerId) in r.value
                  && Field("customer_id", if customerId == Int(-1) then Null else customerId) in r.value)
  {
    if OrderParses(o) {
      OrderDictOk(o, Stamp(ParseDateTime(o.statusLog[0]).value),
                  Stamp(ParseDateTime(TruncateSubseconds(o.statusLog[1])).value),
                  Stamp(ParseDateTime(o.prepareFor.value).value),
                  Stamp(ParseDateTime(o.startPreparingAt.value).value),
                  CustomerRef(customerId), partnerId);
    }
  }

  /** The dict's entries are evaluated in order, so the first missing or malformed entry
      decides the error: a status log shorter than two entries is an `IndexError` once its
      first entry parses, and a missing `prepare_for` is a `KeyError` once both status-log
      times parse. */
  lemma OrderFieldsErrors(o: Order, partnerId: Value, customerId: Value)
    ensures var r := OrderFields(o, partnerId, customerId);
            && (|o.statusLog| == 0 ==> r == Err(IndexError))
            && (|o.statusLog| == 1 && ParseDateTime(o.statusLog[0]).Some? ==> r == Err(IndexError))
            && (|o.statusLog| >= 1 && ParseDateTime(o.statusLog[0]).None? ==> r == Err(BadTimestamp(o.statusLog[0])))
            && (|o.statusLog| >= 2 && ParseDateTime(o.statusLog[0]).Some?
                && ParseDateTime(TruncateSubseconds(o.statusLog[1])).Some? && o.prepareFor.None?
                ==> r == Err(KeyError("prepare_for")))
  {
  }

  // ---------------------------------------------------------------- one upsert

  /** Every row of `t` is still in `t2` under the same id, with the same key values. */
  ghost predicate Kept(t: Table, t2: Table, pk: seq<string>)
  {
    forall id :: id in t ==> id in t2 && forall c :: c in pk && c in t[id] ==> c in t2[id] && t2[id][c] == t[id][c]
  }

  /** What `UpsertSpec` does for any key: it keeps the store well formed and the table
      unique on its key, touches no other table, keeps every existing row under its id with
      its key, changes no table when it raises, and on success the row it names holds the
      dict. */
  lemma UpsertFacts(schema: Schema, db: Db, table: string, data: seq<Field>, pk: seq<string>,
                    returning: Option<string>)
    requires SchemaOk(schema) && WellFormed(schema, db)
    requires forall c :: c in pk ==> c in ToRow(data)
    ensures var s := UpsertSpec(schema, db, table, data, pk, returning);
            && WellFormed(schema, s.db)
            && (forall t :: t in db.tables && t != table ==> s.db.tables[t] == db.tables[t])
            && (s.result.Err? ==> s.db.tables == db.tables && s.db.nextId == db.nextId)
            && (table in db.tables ==> Kept(db.tables[table], s.db.tables[table], pk))
            && (table in db.tables && UniqueOn(db.tables[table], pk) ==> UniqueOn(s.db.tables[table], pk))
            && (s.result.Ok? ==> forall id :: id in s.db.tables[table] ==> id in db.tables[table] || id == s.result.value.id)
            && (s.result.Ok? ==>
                  && table in db.tables
                  && s.result.value.id in s.db.tables[table]
                  && Holds(s.db.tables[table][s.result.value.id], ToRow(data)))
  {
    UpsertSpecWellFormed(schema, db, table, data, pk, returning);
    if Accepts(schema, db, table, data, pk, returning) {
      WrittenFacts(schema, db, table, data, pk, returning);
    }
  }

  lemma WrittenFacts(schema: Schema, db: Db, table: string, data: seq<Field>, pk: seq<string>,
                     returning: Option<string>)
    requires SchemaOk(schema) && WellFormed(schema, db)
    requires forall c :: c in pk ==> c in ToRow(data)
    requires Accepts(schema, db, table, data, pk, returning)
    ensures var s := Written(schema, db, table, data, pk, returning);
            && Kept(db.tables[table], s.db.tables[table], pk)
            && (forall id :: id in s.db.tables[table] ==> id in db.tables[table] || id == s.result.value.id)
            && UniqueOn(s.db.tables[table], pk)
            && Holds(s.db.tables[table][s.result.value.id], ToRow(data))
  {
    WrittenKeepsUnique(schema, db, table, data, pk, returning);
    WrittenKept(schema, db, table, data, pk, returning);
    WrittenHolds(schema, db, table, data, pk, returning);
  }

  lemma WrittenKept(schema: Schema, db: Db, table: string, data: seq<Field>, pk: seq<string>,
                    returning: Option<string>)
    requires WellFormed(schema, db) && table in schema.columns && UniqueOn(db.tables[table], pk)
    ensures var s := Written(schema, db, table, data, pk, returning);
            && Kept(db.tables[table], s.db.tables[table], pk)
            && (forall id :: id in s.db.tables[table] ==> id in db.tables[table] || id == s.result.value.id)
  {
    var t := db.tables[table];
    var key := ToRow(data);
    if HasMatch(t, key, pk) {
      var id :| id in t && SameKey(key, t[id], pk);
      WrittenUpdates(schema, db, table, data, pk, returning, id);
      UpdateKept(t, id, key, pk);
    } else {
      WrittenInserts(schema, db, table, data, pk, returning);
    }
  }

  /** Laying a dict that carries a row's key over that row keeps every key. */
  lemma UpdateKept(t: Table, id: nat, key: Row, pk: seq<string>)
    requires id in t && SameKey(key, t[id], pk)
    ensures Kept(t, t[id := t[id] + key], pk)
  {
    var t2 := t[id := t[id] + key];
    forall j | j in t ensures j in t2 && forall c :: c in pk && c in t[j] ==> c in t2[j] && t2[j][c] == t[j][c] {
      if j == id {
        assert forall c :: c in pk ==> c in key && key[c] == t[j][c];
      }
    }
  }

  lemma WrittenHolds(schema: Schema, db: Db, table: string, data: seq<Field>, pk: seq<string>,
                     returning: Option<string>)
    requires SchemaOk(schema) && WellFormed(schema, db) && table in schema.columns
    requires UniqueOn(db.tables[table], pk)
    requires forall i :: 0 <= i < |data| ==> data[i].column in schema.columns[table]
    ensures var s := Written(schema, db, table, data, pk, returning);
            Holds(s.db.tables[table][s.result.value.id], ToRow(data))
  {
    var t := db.tables[table];
    var key := ToRow(data);
    if HasMatch(t, key, pk) {
      var id :| id in t && SameKey(key, t[id], pk);
      WrittenUpdates(schema, db, table, data, pk, returning, id);
    } else {
      WrittenInserts(schema, db, table, data, pk, returning);
      ProposedRow(schema, table, data, db.nextId);
    }
  }
}
