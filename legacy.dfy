/** The legacy get-or-create store (database/database_manager.py): a `DatabaseManager`
    holding one psycopg2 connection, whose methods issue plain INSERTs and SELECTs in one
    open transaction, and the module-level `insert_order_data` that drives it.

    The connection is modelled by what the database has committed (`saved`), what the
    open transaction sees (`db`), and the serial counter (`next`), which a rollback does
    not wind back. `with self.conn:` commits the transaction when its block ends and rolls
    it back when the block raises; the block raises at once when `self.conn` is None. */
module Legacy {
  import opened Wrappers
  import opened DateTimes
  import opened Relational
  import Ingestion
  import opened Loading

  // ---------------------------------------------------------------- payload

  datatype Address = Address(line1: Value, line2: Value, postcode: Value)

  /** A modifier of the legacy payload, keyed by its `id`. */
  datatype LegacyModifier = LegacyModifier(id: Value, name: Value, operationalName: Value,
                                           quantity: Value, fractional: Value)

  datatype LegacyItem = LegacyItem(posItemId: Value, name: Value, operationalName: Value,
                                   quantity: Value, fractional: Value, modifiers: seq<LegacyModifier>)

  /** `order_data["body"]["order"]`; the keys that may be missing are `Option`s. */
  datatype LegacyOrder = LegacyOrder(id: Value, orderNumber: Value, status: Value, statusLog: seq<string>,
                                     customer: Option<Ingestion.Customer>, deliveryAddress: Option<Address>,
                                     locationId: Option<Value>, items: seq<LegacyItem>)

  // ---------------------------------------------------------------- tables

  datatype CustomerRow = CustomerRow(customerId: Value, firstName: Value, contactNumber: Value,
                                     contactAccessCode: Value)
  datatype AddressRow = AddressRow(addressId: Value, line1: Value, line2: Value, postcode: Value)
  datatype DeliveryRow = DeliveryRow(customerId: Value, addressId: Value)
  datatype OrderRow = OrderRow(orderId: Value, deliverooOrderId: Value, deliverooOrderNumber: Value,
                               status: Value, timestamp: Value, customerId: Value, partnerId: Value)
  datatype ItemRow = ItemRow(itemId: Value, deliverooItemId: Value, name: Value, operationalName: Value)
  datatype OrderItemRow = OrderItemRow(orderId: Value, itemId: Value, quantity: Value, fractional: Value)
  datatype ModifierRow = ModifierRow(modifierId: Value, deliverooModifierId: Value, name: Value,
                                     operationalName: Value)
  datatype LinkRow = LinkRow(orderId: Value, itemId: Value, modifierId: Value, quantity: Value,
                             fractional: Value)

  /** The legacy tables, each in insertion order (the order `fetchone` scans). */
  datatype Tables = Tables(customers: seq<CustomerRow>, addresses: seq<AddressRow>,
                           deliveries: seq<DeliveryRow>, orders: seq<OrderRow>, items: seq<ItemRow>,
                           orderItems: seq<OrderItemRow>, modifiers: seq<ModifierRow>,
                           links: seq<LinkRow>)

  /** The connection: whether `self.conn` is set, the committed tables, the open
      transaction's view of them, and the next serial value. */
  datatype Conn = Conn(open: bool, saved: Tables, db: Tables, next: nat)

  /** What a method raises. `NotAContextManager` is `with None:`; `TypeError` is `None[0]`
      when `fetchone()` finds no row. */
  datatype Raised = NotAContextManager | TypeError | IndexError | ValueError | KeyError(key: string)

  /** A statement's effect on the connection, and what it returns or raises. */
  datatype Out<T> = Out(conn: Conn, result: Result<T, Raised>)

  function Committed(c: Conn): (r: Conn)
    ensures r.db == c.db && r.next == c.next && r.open == c.open
  {
    if c.open then c.(saved := c.db) else c
  }

  function RolledBack(c: Conn): (r: Conn)
    ensures r.saved == c.saved && r.next == c.next && r.open == c.open
  {
    if c.open then c.(db := c.saved) else c
  }

  // ---------------------------------------------------------------- SELECT .. WHERE k = %s

  /** The first row, in scan order, whose key equals `key` under SQL `=`. */
  function FirstMatch(keys: seq<Value>, key: Value): (r: Option<nat>)
    ensures r.Some? ==> r.value < |keys| && Matches(keys[r.value], key)
    ensures r.Some? ==> forall j :: 0 <= j < r.value ==> !Matches(keys[j], key)
    ensures r.None? <==> forall j :: 0 <= j < |keys| ==> !Matches(keys[j], key)
    decreases |keys|
  {
    if keys == [] then None
    else if Matches(keys[0], key) then Some(0)
    else
      var r := FirstMatch(keys[1..], key);
      if r.None? then None else Some(r.value + 1)
  }

  function ContactNumbers(rows: seq<CustomerRow>): (keys: seq<Value>)
    ensures |keys| == |rows| && forall j :: 0 <= j < |rows| ==> keys[j] == rows[j].contactNumber
  {
    seq(|rows|, j requires 0 <= j < |rows| => rows[j].contactNumber)
  }

  function DeliverooItemIds(rows: seq<ItemRow>): (keys: seq<Value>)
    ensures |keys| == |rows| && forall j :: 0 <= j < |rows| ==> keys[j] == rows[j].deliverooItemId
  {
    seq(|rows|, j requires 0 <= j < |rows| => rows[j].deliverooItemId)
  }

  function DeliverooModifierIds(rows: seq<ModifierRow>): (keys: seq<Value>)
    ensures |keys| == |rows| && forall j :: 0 <= j < |rows| ==> keys[j] == rows[j].deliverooModifierId
  {
    seq(|rows|, j requires 0 <= j < |rows| => rows[j].deliverooModifierId)
  }

  /** `get_customer_id_by_contact_number`: the first matching row's `customer_id`, None when
      no row matches or there is no connection. */
  function CustomerIdByContact(c: Conn, contact: Value): (v: Value)
    ensures !c.open || FirstMatch(ContactNumbers(c.db.customers), contact).None? ==> v == Null
    ensures c.open && FirstMatch(ContactNumbers(c.db.customers), contact).Some? ==>
              v == c.db.customers[FirstMatch(ContactNumbers(c.db.customers), contact).value].customerId
  {
    if !c.open then Null
    else match FirstMatch(ContactNumbers(c.db.customers), contact)
      case None => Null
      case Some(j) => c.db.customers[j].customerId
  }

  /** `item_exists`: `fetchone()[0]`, so an id with no row raises instead of giving None. With
      `fixed`, the lookup `get_customer_id_by_contact_number` uses: None for no row. */
  function ItemLookup(c: Conn, pos: Value, fixed: bool): (r: Result<Value, Raised>)
    ensures r.Err? <==> c.open && !fixed && FirstMatch(DeliverooItemIds(c.db.items), pos).None?
    ensures r.Err? ==> r.error == TypeError
  {
    if !c.open then Ok(Null)
    else match FirstMatch(DeliverooItemIds(c.db.items), pos)
      case None => if fixed then Ok(Null) else Err(TypeError)
      case Some(j) => Ok(c.db.items[j].itemId)
  }

  /** `modifier_exists`, and its `fixed` counterpart. */
  function ModifierLookup(c: Conn, id: Value, fixed: bool): (r: Result<Value, Raised>)
    ensures r.Err? <==> c.open && !fixed && FirstMatch(DeliverooModifierIds(c.db.modifiers), id).None?
    ensures r.Err? ==> r.error == TypeError
  {
    if !c.open then Ok(Null)
    else match FirstMatch(DeliverooModifierIds(c.db.modifiers), id)
      case None => if fixed then Ok(Null) else Err(TypeError)
      case Some(j) => Ok(c.db.modifiers[j].modifierId)
  }

  // ---------------------------------------------------------------- single statements

  /** `insert_customer`: the customer with that contact number if its id is truthy, else a new
      row. No connection: None and no effect. */
  function CustomerStep(c: Conn, cust: Ingestion.Customer): (r: Out<Value>)
    ensures r.result.Ok? && r.conn.open == c.open && r.conn.saved == c.saved
    ensures r.conn.db == c.db.(customers := r.conn.db.customers) && c.db.customers <= r.conn.db.customers
    ensures c.open && cust.contactNumber == Null ==> |r.conn.db.customers| == |c.db.customers| + 1
  {
    if !c.open then Out(c, Ok(Null))
    else
      var existing := CustomerIdByContact(c, cust.contactNumber);
      if Ingestion.Truthy(existing) then Out(c, Ok(existing))
      else
        var row := CustomerRow(Int(c.next), cust.firstName, cust.contactNumber, cust.contactAccessCode);
        Out(c.(db := c.db.(customers := c.db.customers + [row]), next := c.next + 1), Ok(Int(c.next)))
  }

  /** Every stored customer id is truthy, as the serial column (from 1) gives it. */
  predicate CustomerIdsSet(rows: seq<CustomerRow>)
  {
    forall j :: 0 <= j < |rows| ==> Ingestion.Truthy(rows[j].customerId)
  }

  /** `insert_customer` is get-or-create for a customer with a contact number: a second call
      with the same customer returns the same id and adds nothing. */
  lemma CustomerStepIdempotent(c: Conn, cust: Ingestion.Customer)
    requires c.open && cust.contactNumber != Null && c.next >= 1 && CustomerIdsSet(c.db.customers)
    ensures var a := CustomerStep(c, cust);
      && CustomerIdsSet(a.conn.db.customers)
      && CustomerStep(a.conn, cust) == a
  {
    var a := CustomerStep(c, cust);
    var before := ContactNumbers(c.db.customers);
    var after := ContactNumbers(a.conn.db.customers);
    if FirstMatch(before, cust.contactNumber).None? {
      assert Matches(after[|after| - 1], cust.contactNumber);
      assert FirstMatch(after, cust.contactNumber) == Some(|before|);
    }
  }

  /** `insert_address`. */
  function AddressStep(c: Conn, a: Address): (r: Out<Value>)
    ensures r.result.Ok? && r.conn.open == c.open && r.conn.saved == c.saved
    ensures r.conn.db == c.db.(addresses := r.conn.db.addresses)
    ensures c.open ==> r.conn.db.addresses == c.db.addresses + [AddressRow(r.result.value, a.line1, a.line2, a.postcode)]
  {
    if !c.open then Out(c, Ok(Null))
    else
      var row := AddressRow(Int(c.next), a.line1, a.line2, a.postcode);
      Out(c.(db := c.db.(addresses := c.db.addresses + [row]), next := c.next + 1), Ok(Int(c.next)))
  }

  /** `insert_delivery_address`. */
  function DeliveryStep(c: Conn, customerId: Value, addressId: Value): (r: Conn)
    ensures r.open == c.open && r.saved == c.saved && r.next == c.next
    ensures r.db == c.db.(deliveries := r.db.deliveries)
    ensures c.open ==> r.db.deliveries == c.db.deliveries + [DeliveryRow(customerId, addressId)]
  {
    if !c.open then c
    else c.(db := c.db.(deliveries := c.db.deliveries + [DeliveryRow(customerId, addressId)]))
  }

  /** `datetime.fromisoformat(s.replace("Z", "+00:00"))` on the one ISO 8601 form the
      platform sends, `YYYY-MM-DDTHH:MM:SSZ` with two-digit fields: a valid date and time
      written that way is read back, and every other string is refused as a `ValueError`
      (one-digit fields among them, which `strptime` would take). */
  function IsoTimestamp(s: string): (r: Option<Value>)
    ensures r.Some? ==> exists dt :: Valid(dt) && Format(dt) == s && r.value == Stamp(dt)
    ensures r.Some? ==> |s| == 20
  {
    match ParseDateTime(s)
    case Some(dt) => if Format(dt) == s then Some(Stamp(dt)) else None
    case None => None
  }

  /** Every valid time in the fixed-width form is read back as itself. */
  lemma IsoTimestampFormat(dt: DateTime)
    requires Valid(dt)
    ensures IsoTimestamp(Format(dt)) == Some(Stamp(dt))
  {
    ParseFormat(dt);
  }

  /** A time with one-digit fields, which `strptime` accepts, is refused. */
  lemma IsoShortFieldsRefused()
    ensures IsoTimestamp("2024-1-5T7:3:9Z") == None
  {
  }

  /** `insert_order`: always a new row, whatever the store already holds. */
  function OrderStep(c: Conn, o: LegacyOrder, customerId: Value, partnerId: Value): (r: Out<Value>)
    ensures r.conn.open == c.open && r.conn.saved == c.saved
    ensures r.conn.db == c.db.(orders := r.conn.db.orders)
  {
    if !c.open then Out(c, Ok(Null))
    else if |o.statusLog| == 0 then Out(c, Err(IndexError))
    else match IsoTimestamp(o.statusLog[0])
      case None => Out(c, Err(ValueError))
      case Some(at) =>
        var row := OrderRow(Int(c.next), o.id, o.orderNumber, o.status, at, customerId, partnerId);
        Out(c.(db := c.db.(orders := c.db.orders + [row]), next := c.next + 1), Ok(Int(c.next)))
  }

  /** `insert_item`. */
  function ItemStep(c: Conn, item: LegacyItem): (r: Out<Value>)
    ensures r.result.Ok? && r.conn.open == c.open && r.conn.saved == c.saved
    ensures r.conn.db == c.db.(items := r.conn.db.items)
  {
    if !c.open then Out(c, Ok(Null))
    else
      var row := ItemRow(Int(c.next), item.posItemId, item.name, item.operationalName);
      Out(c.(db := c.db.(items := c.db.items + [row]), next := c.next + 1), Ok(Int(c.next)))
  }

  /** `insert_modifier`. */
  function ModifierStep(c: Conn, m: LegacyModifier): (r: Out<Value>)
    ensures r.result.Ok? && r.conn.open == c.open && r.conn.saved == c.saved
    ensures r.conn.db == c.db.(modifiers := r.conn.db.modifiers)
  {
    if !c.open then Out(c, Ok(Null))
    else
      var row := ModifierRow(Int(c.next), m.id, m.name, m.operationalName);
      Out(c.(db := c.db.(modifiers := c.db.modifiers + [row]), next := c.next + 1), Ok(Int(c.next)))
  }

  // ---------------------------------------------------------------- the with-blocks

  /** The order_items rows the item loop writes: one per payload item, in payload order,
      carrying the item id it found. */
  function OrderItemRows(orderId: Value, items: seq<LegacyItem>, ids: seq<Value>): (rows: seq<OrderItemRow>)
    requires |ids| == |items|
    ensures |rows| == |items|
    decreases |items|
  {
    if items == [] then []
    else [OrderItemRow(orderId, ids[0], items[0].quantity, items[0].fractional)]
         + OrderItemRows(orderId, items[1..], ids[1..])
  }

  /** Row k of `OrderItemRows` is the k-th item's. */
  lemma {:induction false} OrderItemRowAt(orderId: Value, items: seq<LegacyItem>, ids: seq<Value>, k: nat)
    requires |ids| == |items| && k < |items|
    ensures OrderItemRows(orderId, items, ids)[k] == OrderItemRow(orderId, ids[k], items[k].quantity, items[k].fractional)
    decreases k
  {
    if k > 0 {
      OrderItemRowAt(orderId, items[1..], ids[1..], k - 1);
    }
  }

  /** Every item row has an integer id, as the serial column gives it. */
  predicate ItemIdsSet(rows: seq<ItemRow>)
  {
    forall j :: 0 <= j < |rows| ==> rows[j].itemId.Int?
  }

  /** One pass of `insert_order_items`' loop: the item's id (`item_exists`, or
      `insert_item` when that gives None), then one order_items row. */
  function OrderItemStep(c: Conn, orderId: Value, item: LegacyItem, fixed: bool): (r: Out<Value>)
    requires c.open
    ensures r.conn.open && r.conn.saved == c.saved
    ensures r.conn.db.orders == c.db.orders && r.conn.db.links == c.db.links
    ensures r.result.Err? ==> r.conn == c
    ensures r.result.Ok? ==>
              r.conn.db.orderItems == c.db.orderItems + [OrderItemRow(orderId, r.result.value, item.quantity, item.fractional)]
  {
    var found := ItemLookup(c, item.posItemId, fixed);
    if found.Err? then Out(c, Err(found.error))
    else
      var s := if found.value == Null then ItemStep(c, item) else Out(c, found);
      var id := s.result.value;
      var row := OrderItemRow(orderId, id, item.quantity, item.fractional);
      Out(s.conn.(db := s.conn.db.(orderItems := s.conn.db.orderItems + [row])), Ok(id))
  }

  /** Some stored item row has `pos_item_id` as its deliveroo_item_id (SQL `=`: never NULL). */
  predicate Known(rows: seq<ItemRow>, pos: Value)
  {
    exists j :: 0 <= j < |rows| && Matches(rows[j].deliverooItemId, pos)
  }

  /** Every item of the payload is already in the items table. */
  predicate AllSeen(rows: seq<ItemRow>, items: seq<LegacyItem>)
  {
    forall k :: 0 <= k < |items| ==> Known(rows, items[k].posItemId)
  }

  /** Every item of the payload that has a `pos_item_id` is in the items table. */
  predicate AllKnown(rows: seq<ItemRow>, items: seq<LegacyItem>)
  {
    forall k :: 0 <= k < |items| && items[k].posItemId != Null ==> Known(rows, items[k].posItemId)
  }

  lemma KnownFound(rows: seq<ItemRow>, pos: Value)
    ensures FirstMatch(DeliverooItemIds(rows), pos).Some? <==> Known(rows, pos)
  {
    var keys := DeliverooItemIds(rows);
    if Known(rows, pos) {
      var j :| 0 <= j < |rows| && Matches(rows[j].deliverooItemId, pos);
      assert Matches(keys[j], pos);
    }
  }

  /** What one pass does to the items table: it only grows; as written it raises exactly
      when no row has the item's `pos_item_id`, and adds no row while every stored row
      has an id; with `fixed` it never raises and leaves a row for the item's id. */
  lemma OrderItemStepItems(c: Conn, orderId: Value, item: LegacyItem, fixed: bool)
    requires c.open
    ensures var r := OrderItemStep(c, orderId, item, fixed);
      && c.db.items <= r.conn.db.items
      && (r.result.Err? <==> !fixed && !Known(c.db.items, item.posItemId))
      && (ItemIdsSet(c.db.items) ==> ItemIdsSet(r.conn.db.items))
      && (!fixed && ItemIdsSet(c.db.items) ==> r.conn.db.items == c.db.items)
      && (fixed && item.posItemId != Null ==> Known(r.conn.db.items, item.posItemId))
      && (ItemIdsSet(c.db.items) && r.result.Ok? ==> r.result.value.Int?)
  {
    var r := OrderItemStep(c, orderId, item, fixed);
    KnownFound(c.db.items, item.posItemId);
    var rows := r.conn.db.items;
    if fixed && item.posItemId != Null && !Known(c.db.items, item.posItemId) {
      assert Matches(rows[|rows| - 1].deliverooItemId, item.posItemId);
    }
  }

  /** The body of `insert_order_items`' `with` block: one pass per item. The result lists
      the ids the rows got. */
  function ItemsLoop(c: Conn, orderId: Value, items: seq<LegacyItem>, fixed: bool): (r: Out<seq<Value>>)
    requires c.open
    ensures r.conn.open && r.conn.saved == c.saved
    ensures r.conn.db.orders == c.db.orders && r.conn.db.links == c.db.links
    ensures r.result.Ok? ==> |r.result.value| == |items|
    ensures r.result.Ok? ==>
              r.conn.db.orderItems == c.db.orderItems + OrderItemRows(orderId, items, r.result.value)
    decreases |items|
  {
    if items == [] then Out(c, Ok([]))
    else
      var one := OrderItemStep(c, orderId, items[0], fixed);
      if one.result.Err? then Out(one.conn, Err(one.result.error))
      else
        var rest := ItemsLoop(one.conn, orderId, items[1..], fixed);
        if rest.result.Err? then rest
        else
          RowsCons(orderId, items, one.result.value, rest.result.value);
          Out(rest.conn, Ok([one.result.value] + rest.result.value))
  }

  lemma RowsCons(orderId: Value, items: seq<LegacyItem>, id: Value, ids: seq<Value>)
    requires items != [] && |ids| == |items| - 1
    ensures OrderItemRows(orderId, items, [id] + ids)
            == [OrderItemRow(orderId, id, items[0].quantity, items[0].fractional)] + OrderItemRows(orderId, items[1..], ids)
  {
    assert ([id] + ids)[1..] == ids;
  }

  /** As written, the item loop succeeds exactly when every payload item is already stored,
      and it never adds an item row: `item_exists` raises on an unseen `pos_item_id` before
      `insert_item` can run. */
  lemma {:induction false} ItemsLoopAsWritten(c: Conn, orderId: Value, items: seq<LegacyItem>)
    requires c.open && ItemIdsSet(c.db.items)
    ensures var r := ItemsLoop(c, orderId, items, false);
      && (r.result.Ok? <==> AllSeen(c.db.items, items))
      && r.conn.db.items == c.db.items
      && (r.result.Ok? ==> forall k :: 0 <= k < |r.result.value| ==> r.result.value[k].Int?)
    decreases |items|
  {
    if items != [] {
      OrderItemStepItems(c, orderId, items[0], false);
      var one := OrderItemStep(c, orderId, items[0], false);
      if one.result.Ok? {
        ItemsLoopAsWritten(one.conn, orderId, items[1..]);
        assert AllSeen(c.db.items, items) <==> AllSeen(c.db.items, items[1..]) by {
          if AllSeen(c.db.items, items[1..]) {
            forall k | 1 <= k < |items| ensures Known(c.db.items, items[k].posItemId) {
              assert items[1..][k - 1] == items[k];
            }
          }
        }
      }
    }
  }

  /** With `fixed` lookups the item loop always succeeds, keeps every stored item, and
      leaves a row for every payload item that has a `pos_item_id`. */
  lemma {:induction false} ItemsLoopFixed(c: Conn, orderId: Value, items: seq<LegacyItem>)
    requires c.open && ItemIdsSet(c.db.items)
    ensures var r := ItemsLoop(c, orderId, items, true);
      && r.result.Ok?
      && c.db.items <= r.conn.db.items
      && ItemIdsSet(r.conn.db.items)
      && AllKnown(r.conn.db.items, items)
    decreases |items|
  {
    if items != [] {
      OrderItemStepItems(c, orderId, items[0], true);
      var one := OrderItemStep(c, orderId, items[0], true);
      ItemsLoopFixed(one.conn, orderId, items[1..]);
      var r := ItemsLoop(c, orderId, items, true);
      forall k | 0 <= k < |items| && items[k].posItemId != Null
        ensures Known(r.conn.db.items, items[k].posItemId)
      {
        if k == 0 {
          var j :| 0 <= j < |one.conn.db.items| && Matches(one.conn.db.items[j].deliverooItemId, items[0].posItemId);
          assert r.conn.db.items[j] == one.conn.db.items[j];
        } else {
          assert items[1..][k - 1] == items[k];
        }
      }
    }
  }

  /** `insert_order_items(order_id, items)`: the loop in `with self.conn:`. */
  function OrderItemsStep(c: Conn, orderId: Value, items: seq<LegacyItem>, fixed: bool): (r: Out<seq<Value>>)
    ensures !c.open ==> r == Out(c, Err(NotAContextManager))
    ensures c.open ==> r.conn.open && r.conn.db == r.conn.saved
  {
    if !c.open then Out(c, Err(NotAContextManager))
    else
      var l := ItemsLoop(c, orderId, items, fixed);
      if l.result.Err? then Out(RolledBack(l.conn), l.result) else Out(Committed(l.conn), l.result)
  }

  /** The link rows added after `before`, all for one order and one item id. */
  predicate LinksFor(before: seq<LinkRow>, after: seq<LinkRow>, orderId: Value, itemId: Value)
  {
    && before <= after
    && forall j :: |before| <= j < |after| ==> after[j].orderId == orderId && after[j].itemId == itemId
  }

  /** One pass of `insert_order_item_modifiers`' loop: the modifier's id (`modifier_exists`,
      or `insert_modifier` when that gives None), then one order_item_modifiers row. */
  function LinkStep(c: Conn, orderId: Value, itemId: Value, m: LegacyModifier, fixed: bool): (r: Out<()>)
    requires c.open
    ensures r.conn.open && r.conn.saved == c.saved
    ensures r.conn.db == c.db.(modifiers := r.conn.db.modifiers, links := r.conn.db.links)
    ensures r.result.Err? ==> r.conn == c
    ensures LinksFor(c.db.links, r.conn.db.links, orderId, itemId)
  {
    var found := ModifierLookup(c, m.id, fixed);
    if found.Err? then Out(c, Err(found.error))
    else
      var s := if found.value == Null then ModifierStep(c, m) else Out(c, found);
      var row := LinkRow(orderId, itemId, s.result.value, m.quantity, m.fractional);
      Out(s.conn.(db := s.conn.db.(links := s.conn.db.links + [row])), Ok(()))
  }

  /** The body of `insert_order_item_modifiers`' `with` block. */
  function ModsLoop(c: Conn, orderId: Value, itemId: Value, mods: seq<LegacyModifier>, fixed: bool): (r: Out<()>)
    requires c.open
    ensures r.conn.open && r.conn.saved == c.saved
    ensures r.conn.db == c.db.(modifiers := r.conn.db.modifiers, links := r.conn.db.links)
    ensures LinksFor(c.db.links, r.conn.db.links, orderId, itemId)
    decreases |mods|
  {
    if mods == [] then Out(c, Ok(()))
    else
      var one := LinkStep(c, orderId, itemId, mods[0], fixed);
      if one.result.Err? then one else ModsLoop(one.conn, orderId, itemId, mods[1..], fixed)
  }

  /** `insert_order_item_modifiers(order_id, item_id, modifiers)`. */
  function LinksStep(c: Conn, orderId: Value, itemId: Value, mods: seq<LegacyModifier>, fixed: bool): (r: Out<()>)
    ensures c.saved == c.db ==> r.conn.saved == r.conn.db
    ensures c.saved == c.db ==> r.conn.db == c.db.(modifiers := r.conn.db.modifiers, links := r.conn.db.links)
    ensures c.saved == c.db ==> LinksFor(c.db.links, r.conn.db.links, orderId, itemId)
  {
    if !c.open then Out(c, Err(NotAContextManager))
    else
      var l := ModsLoop(c, orderId, itemId, mods, fixed);
      if l.result.Err? then Out(RolledBack(l.conn), l.result) else Out(Committed(l.conn), l.result)
  }

  /** The item id `insert_order_data` passes for the k-th item's modifiers: the payload's
      `pos_item_id` as written; the id its order_items row got, with `fixed`. */
  function LinkItemIds(items: seq<LegacyItem>, ids: seq<Value>, fixed: bool): (keys: seq<Value>)
    requires |ids| == |items|
    ensures |keys| == |items|
    ensures forall k :: 0 <= k < |items| ==> keys[k] == if fixed then ids[k] else items[k].posItemId
  {
    if fixed then ids else seq(|items|, k requires 0 <= k < |items| => items[k].posItemId)
  }

  /** The link rows added after `before` all belong to `orderId` and name one of `itemIds`. */
  predicate LinksAmong(before: seq<LinkRow>, after: seq<LinkRow>, orderId: Value, itemIds: seq<Value>)
  {
    && before <= after
    && forall j :: |before| <= j < |after| ==> after[j].orderId == orderId && after[j].itemId in itemIds
  }

  /** The loop of `insert_order_data` over the items' modifiers, from the k-th item on; the
      first call that raises ends it. */
  function AllLinks(c: Conn, orderId: Value, items: seq<LegacyItem>, ids: seq<Value>, k: nat, fixed: bool): (r: Out<()>)
    requires |ids| == |items| && k <= |items|
    ensures c.saved == c.db ==> r.conn.saved == r.conn.db
    ensures c.saved == c.db ==> r.conn.db == c.db.(modifiers := r.conn.db.modifiers, links := r.conn.db.links)
    ensures c.saved == c.db ==> LinksAmong(c.db.links, r.conn.db.links, orderId, LinkItemIds(items, ids, fixed))
    decreases |items| - k
  {
    if k == |items| then Out(c, Ok(()))
    else
      var keys := LinkItemIds(items, ids, fixed);
      var s := LinksStep(c, orderId, keys[k], items[k].modifiers, fixed);
      if s.result.Err? then s else AllLinks(s.conn, orderId, items, ids, k + 1, fixed)
  }

  /** `insert_customer`, then, when the payload has a `delivery_address`, `insert_address`
      and `insert_delivery_address`. The result is the customer id. */
  function Prelude(c: Conn, cust: Ingestion.Customer, address: Option<Address>): (r: Out<Value>)
    ensures r.result.Ok? && r.conn.open == c.open && r.conn.saved == c.saved
    ensures r.conn.db == c.db.(customers := r.conn.db.customers, addresses := r.conn.db.addresses,
                               deliveries := r.conn.db.deliveries)
    ensures c.open ==> |r.conn.db.addresses| == |c.db.addresses| + (if address.Some? then 1 else 0)
    ensures c.open ==> |r.conn.db.deliveries| == |c.db.deliveries| + (if address.Some? then 1 else 0)
    ensures c.open && address.Some? ==>
              r.conn.db.deliveries[|c.db.deliveries|] == DeliveryRow(r.result.value, r.conn.db.addresses[|c.db.addresses|].addressId)
  {
    var s := CustomerStep(c, cust);
    if address.None? then s
    else
      var a := AddressStep(s.conn, address.value);
      Out(DeliveryStep(a.conn, s.result.value, a.result.value), s.result)
  }

  /** The `try` block of `insert_order_data`, from a fresh connection. */
  function Body(c: Conn, o: LegacyOrder, fixed: bool): (r: Out<()>)
    ensures r.result.Ok? ==> r.conn.saved == r.conn.db
  {
    if o.customer.None? then Out(c, Err(KeyError("customer")))
    else
      var p := Prelude(c, o.customer.value, o.deliveryAddress);
      if o.locationId.None? then Out(p.conn, Err(KeyError("location_id")))
      else
        var s := OrderStep(p.conn, o, p.result.value, o.locationId.value);
        if s.result.Err? then Out(s.conn, Err(s.result.error))
        else
          var oi := OrderItemsStep(s.conn, s.result.value, o.items, fixed);
          if oi.result.Err? then Out(oi.conn, Err(oi.result.error))
          else
            var l := AllLinks(oi.conn, s.result.value, o.items, oi.result.value, 0, fixed);
            if l.result.Err? then l else Out(Committed(l.conn), Ok(()))
  }

  /** `insert_order_data(order_data)`: connect (`reachable` says whether that succeeds), run
      the body, swallow whatever it raises, close. The result is what the database holds
      afterwards: closing discards what was not committed. */
  function Ingest(t: Tables, next: nat, reachable: bool, o: LegacyOrder, fixed: bool): (r: Tables)
    ensures !reachable ==> r == t
  {
    Body(Conn(reachable, t, t, next), o, fixed).conn.saved
  }

  // ---------------------------------------------------------------- what an ingestion leaves

  /** The payload has everything `insert_order` reads: a customer, a `location_id`, and a
      first status-log entry whose timestamp parses. */
  predicate WellFormedOrder(o: LegacyOrder)
  {
    && o.customer.Some? && o.locationId.Some?
    && |o.statusLog| > 0 && IsoTimestamp(o.statusLog[0]).Some?
  }

  /** `r` is `t` with one more order row for `o`, its order_items rows, and link rows for
      that order naming the item ids `insert_order_data` passes. */
  ghost predicate Recorded(t: Tables, r: Tables, o: LegacyOrder, fixed: bool)
  {
    && WellFormedOrder(o)
    && |r.orders| == |t.orders| + 1 && t.orders <= r.orders
    && var row := r.orders[|t.orders|];
    && row.deliverooOrderId == o.id && row.deliverooOrderNumber == o.orderNumber && row.status == o.status
    && Some(row.timestamp) == IsoTimestamp(o.statusLog[0]) && row.partnerId == o.locationId.value
    && exists ids :: |ids| == |o.items|
         && r.orderItems == t.orderItems + OrderItemRows(row.orderId, o.items, ids)
         && LinksAmong(t.links, r.links, row.orderId, LinkItemIds(o.items, ids, fixed))
  }

  /** `insert_order_data` either leaves the database as it was, or commits the order with all
      of its order_items rows: they are committed together by `insert_order_items`' `with`
      block, and a later failure among the modifiers does not undo them. */
  lemma IngestOutcome(t: Tables, next: nat, reachable: bool, o: LegacyOrder, fixed: bool)
    ensures var r := Ingest(t, next, reachable, o, fixed);
      r == t || (reachable && Recorded(t, r, o, fixed))
  {
    var c := Conn(reachable, t, t, next);
    if o.customer.Some? && o.locationId.Some? {
      var p := Prelude(c, o.customer.value, o.deliveryAddress);
      var s := OrderStep(p.conn, o, p.result.value, o.locationId.value);
      if reachable && s.result.Ok? {
        var l := ItemsLoop(s.conn, s.result.value, o.items, fixed);
        if l.result.Ok? {
          var ids := l.result.value;
          var a := AllLinks(Committed(l.conn), s.result.value, o.items, ids, 0, fixed);
          assert Ingest(t, next, reachable, o, fixed) == a.conn.db;
          assert Recorded(t, a.conn.db, o, fixed) by {
            assert s.conn.db.orders[|t.orders|].orderId == s.result.value;
          }
        }
      }
    }
  }

  /** As written, an order naming an item the items table does not hold is dropped whole:
      its customer, address, order and order_items rows are rolled back with the `with`
      block that raised. */
  lemma IngestDropsUnseenItem(t: Tables, next: nat, o: LegacyOrder)
    requires ItemIdsSet(t.items) && !AllSeen(t.items, o.items)
    ensures Ingest(t, next, true, o, false) == t
  {
    var c := Conn(true, t, t, next);
    if o.customer.Some? && o.locationId.Some? {
      var p := Prelude(c, o.customer.value, o.deliveryAddress);
      var s := OrderStep(p.conn, o, p.result.value, o.locationId.value);
      if s.result.Ok? {
        ItemsLoopAsWritten(s.conn, s.result.value, o.items);
      }
    }
  }

  /** A well-formed order is recorded: with `fixed` lookups whatever its items, as written only
      when the items table already holds every one of them. Afterwards every item the payload
      names has a row, and as written the items table is unchanged. */
  lemma IngestRecordsOrder(t: Tables, next: nat, o: LegacyOrder, fixed: bool)
    requires ItemIdsSet(t.items) && WellFormedOrder(o)
    requires !fixed ==> AllSeen(t.items, o.items)
    ensures var r := Ingest(t, next, true, o, fixed);
      && Recorded(t, r, o, fixed)
      && t.items <= r.items && ItemIdsSet(r.items) && AllKnown(r.items, o.items)
      && (!fixed ==> r.items == t.items)
  {
    var c := Conn(true, t, t, next);
    var p := Prelude(c, o.customer.value, o.deliveryAddress);
    var s := OrderStep(p.conn, o, p.result.value, o.locationId.value);
    if fixed {
      ItemsLoopFixed(s.conn, s.result.value, o.items);
    } else {
      ItemsLoopAsWritten(s.conn, s.result.value, o.items);
    }
    IngestOutcome(t, next, true, o, fixed);
    var l := ItemsLoop(s.conn, s.result.value, o.items, fixed);
    var a := AllLinks(Committed(l.conn), s.result.value, o.items, l.result.value, 0, fixed);
    assert Ingest(t, next, true, o, fixed) == a.conn.db;
  }

  /** Ingesting the same order twice records it twice: nothing in the legacy path looks for an
      order with the same deliveroo_order_id. */
  lemma OrderReplayDuplicates(t: Tables, n1: nat, n2: nat, o: LegacyOrder, fixed: bool)
    requires ItemIdsSet(t.items) && WellFormedOrder(o)
    requires !fixed ==> AllSeen(t.items, o.items)
    ensures var r := Ingest(Ingest(t, n1, true, o, fixed), n2, true, o, fixed);
      && |r.orders| == |t.orders| + 2 && t.orders <= r.orders
      && r.orders[|t.orders|].deliverooOrderId == o.id
      && r.orders[|t.orders| + 1].deliverooOrderId == o.id
  {
    var r1 := Ingest(t, n1, true, o, fixed);
    IngestRecordsOrder(t, n1, o, fixed);
    IngestRecordsOrder(r1, n2, o, fixed);
  }

  /** As written, the modifiers of the k-th item are linked to its `pos_item_id`, not to the
      id its order_items row got. Deliveroo's item ids are strings and item ids are serial
      integers, so no link row added for the order shares an item id with any of the order's
      order_items rows, and the join that loads an order never pairs a modifier with its item. */
  lemma IngestLinksMissItems(t: Tables, next: nat, o: LegacyOrder)
    requires ItemIdsSet(t.items) && WellFormedOrder(o) && AllSeen(t.items, o.items)
    requires forall k :: 0 <= k < |o.items| ==> o.items[k].posItemId.Text?
    ensures var r := Ingest(t, next, true, o, false);
      forall j, i :: |t.links| <= j < |r.links| && |t.orderItems| <= i < |r.orderItems| ==>
        r.links[j].itemId != r.orderItems[i].itemId
  {
    var c := Conn(true, t, t, next);
    var p := Prelude(c, o.customer.value, o.deliveryAddress);
    var s := OrderStep(p.conn, o, p.result.value, o.locationId.value);
    ItemsLoopAsWritten(s.conn, s.result.value, o.items);
    var l := ItemsLoop(s.conn, s.result.value, o.items, false);
    var ids := l.result.value;
    var a := AllLinks(Committed(l.conn), s.result.value, o.items, ids, 0, false);
    var r := Ingest(t, next, true, o, false);
    assert r == a.conn.db;
    forall j, i | |t.links| <= j < |r.links| && |t.orderItems| <= i < |r.orderItems|
      ensures r.links[j].itemId != r.orderItems[i].itemId
    {
      OrderItemRowAt(s.result.value, o.items, ids, i - |t.orderItems|);
      assert r.links[j].itemId in LinkItemIds(o.items, ids, false);
    }
  }

  /** The j-th link row has the order id and item id of an order_items row added after `t`. */
  predicate PairsWithItem(t: Tables, r: Tables, j: nat)
    requires j < |r.links|
  {
    exists i :: |t.orderItems| <= i < |r.orderItems|
      && r.orderItems[i].orderId == r.links[j].orderId && r.orderItems[i].itemId == r.links[j].itemId
  }

  /** With `fixed`, each item's modifiers are linked to the id its order_items row got: every
      link row added for the order pairs with one of the order's order_items rows. */
  lemma IngestLinksMatchItems(t: Tables, next: nat, o: LegacyOrder)
    requires ItemIdsSet(t.items) && WellFormedOrder(o)
    ensures var r := Ingest(t, next, true, o, true);
      forall j :: |t.links| <= j < |r.links| ==> PairsWithItem(t, r, j)
  {
    var r := Ingest(t, next, true, o, true);
    IngestRecordsOrder(t, next, o, true);
    var oid := r.orders[|t.orders|].orderId;
    var ids :| |ids| == |o.items|
         && r.orderItems == t.orderItems + OrderItemRows(oid, o.items, ids)
         && LinksAmong(t.links, r.links, oid, LinkItemIds(o.items, ids, true));
    forall j | |t.links| <= j < |r.links|
      ensures PairsWithItem(t, r, j)
    {
      var k :| 0 <= k < |ids| && ids[k] == r.links[j].itemId;
      OrderItemRowAt(oid, o.items, ids, k);
      assert r.orderItems[|t.orderItems| + k] == OrderItemRows(oid, o.items, ids)[k];
    }
  }
}
