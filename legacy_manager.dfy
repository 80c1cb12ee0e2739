/** The legacy `DatabaseManager` as a class over one connection, and the module-level
    `insert_order_data` that drives it (database/database_manager.py). Each method is
    proved to do what the matching function of `Legacy` says, so every law proved there
    holds of these methods. The lookups run as written: `item_exists` and
    `modifier_exists` raise when no row matches. */
module LegacyManager {
  import opened Wrappers
  import opened Relational
  import Ingestion
  import opened Legacy
  import Loading

  /** The scan behind `SELECT .. WHERE k = %s` followed by `fetchone()`: the first row, in
      table order, whose key equals `key`. */
  method Scan(keys: seq<Value>, key: Value) returns (r: Option<nat>)
    ensures r == FirstMatch(keys, key)
  {
    var i := 0;
    while i < |keys|
      invariant i <= |keys|
      invariant forall j :: 0 <= j < i ==> !Loading.Matches(keys[j], key)
    {
      if Loading.Matches(keys[i], key) {
        return Some(i);
      }
      i := i + 1;
    }
    return None;
  }

  /** The database as seen through one `DatabaseManager`: whether `self.conn` is set, what
      is committed, what the open transaction sees, and the next serial value. */
  class DatabaseManager {
    var open: bool
    var saved: Tables
    var db: Tables
    var next: nat

    function State(): Conn
      reads this
    {
      Conn(open, saved, db, next)
    }

    /** `DatabaseManager()`: `self.conn = None`, over a database holding `t`. */
    constructor (t: Tables, next: nat)
      ensures State() == Conn(false, t, t, next)
    {
      open := false;
      saved := t;
      db := t;
      this.next := next;
    }

    /** `connect`: a new connection, seeing what is committed, when the database is
        `reachable`; otherwise the error is printed and `self.conn` is left as it was. */
    method Connect(reachable: bool)
      modifies this
      ensures State() == if reachable then Conn(true, old(saved), old(saved), old(next)) else old(State())
    {
      if reachable {
        open := true;
        db := saved;
      }
    }

    method Commit()
      modifies this
      ensures State() == Committed(old(State()))
    {
      if open {
        saved := db;
      }
    }

    method Rollback()
      modifies this
      ensures State() == RolledBack(old(State()))
    {
      if open {
        db := saved;
      }
    }

    /** `close_connection`: what was not committed is gone. */
    method CloseConnection()
      modifies this
      ensures State() == if old(open) then Conn(false, old(saved), old(saved), old(next)) else old(State())
    {
      if open {
        db := saved;
        open := false;
      }
    }

    method GetCustomerIdByContactNumber(contact: Value) returns (v: Value)
      ensures v == CustomerIdByContact(State(), contact)
    {
      if !open {
        return Null;
      }
      var found := Scan(ContactNumbers(db.customers), contact);
      v := if found.None? then Null else db.customers[found.value].customerId;
    }

    method InsertCustomer(cust: Ingestion.Customer) returns (v: Value)
      modifies this
      ensures Out(State(), Ok(v)) == CustomerStep(old(State()), cust)
    {
      if !open {
        return Null;
      }
      var existing := GetCustomerIdByContactNumber(cust.contactNumber);
      if Ingestion.Truthy(existing) {
        return existing;
      }
      v := Int(next);
      db := db.(customers := db.customers + [CustomerRow(v, cust.firstName, cust.contactNumber, cust.contactAccessCode)]);
      next := next + 1;
    }

    method InsertAddress(a: Address) returns (v: Value)
      modifies this
      ensures Out(State(), Ok(v)) == AddressStep(old(State()), a)
    {
      if !open {
        return Null;
      }
      v := Int(next);
      db := db.(addresses := db.addresses + [AddressRow(v, a.line1, a.line2, a.postcode)]);
      next := next + 1;
    }

    method InsertDeliveryAddress(customerId: Value, addressId: Value)
      modifies this
      ensures State() == DeliveryStep(old(State()), customerId, addressId)
    {
      if open {
        db := db.(deliveries := db.deliveries + [DeliveryRow(customerId, addressId)]);
      }
    }

    method InsertOrder(o: LegacyOrder, customerId: Value, partnerId: Value) returns (r: Result<Value, Raised>)
      modifies this
      ensures Out(State(), r) == OrderStep(old(State()), o, customerId, partnerId)
    {
      if !open {
        return Ok(Null);
      }
      if |o.statusLog| == 0 {
        return Err(IndexError);
      }
      var at := IsoTimestamp(o.statusLog[0]);
      if at.None? {
        return Err(ValueError);
      }
      r := Ok(Int(next));
      db := db.(orders := db.orders + [OrderRow(Int(next), o.id, o.orderNumber, o.status, at.value, customerId, partnerId)]);
      next := next + 1;
    }

    method ItemExists(pos: Value) returns (r: Result<Value, Raised>)
      ensures r == ItemLookup(State(), pos, false)
    {
      if !open {
        return Ok(Null);
      }
      var found := Scan(DeliverooItemIds(db.items), pos);
      r := if found.None? then Err(TypeError) else Ok(db.items[found.value].itemId);
    }

    method InsertItem(item: LegacyItem) returns (v: Value)
      modifies this
      ensures Out(State(), Ok(v)) == ItemStep(old(State()), item)
    {
      if !open {
        return Null;
      }
      v := Int(next);
      db := db.(items := db.items + [ItemRow(v, item.posItemId, item.name, item.operationalName)]);
      next := next + 1;
    }

    /** One pass of `insert_order_items`' loop. */
    method InsertOrderItem(orderId: Value, item: LegacyItem) returns (r: Result<Value, Raised>)
      requires open
      modifies this
      ensures Out(State(), r) == OrderItemStep(old(State()), orderId, item, false)
    {
      var found := ItemExists(item.posItemId);
      if found.Err? {
        return found;
      }
      var id := found.value;
      if id == Null {
        id := InsertItem(item);
      }
      db := db.(orderItems := db.orderItems + [OrderItemRow(orderId, id, item.quantity, item.fractional)]);
      r := Ok(id);
    }

    /** `insert_order_items`: one order_items row per payload item, in one `with` block. The
        result lists the item ids the rows got. */
    method InsertOrderItems(orderId: Value, items: seq<LegacyItem>) returns (r: Result<seq<Value>, Raised>)
      modifies this
      ensures Out(State(), r) == OrderItemsStep(old(State()), orderId, items, false)
    {
      if !open {
        return Err(NotAContextManager);
      }
      ghost var start := State();
      var ids: seq<Value> := [];
      var k := 0;
      assert items[k..] == items;
      PrependNothing(ItemsLoop(start, orderId, items, false));
      while k < |items|
        invariant k <= |items| && open && saved == start.saved
        invariant ItemsLoop(start, orderId, items, false) == Prepend(ids, ItemsLoop(State(), orderId, items[k..], false))
      {
        PrependStep(State(), orderId, items, k, ids);
        var one := InsertOrderItem(orderId, items[k]);
        if one.Err? {
          Rollback();
          return Err(one.error);
        }
        ids := ids + [one.value];
        k := k + 1;
      }
      assert items[k..] == [] && ids + [] == ids;
      Commit();
      r := Ok(ids);
    }

    method ModifierExists(id: Value) returns (r: Result<Value, Raised>)
      ensures r == ModifierLookup(State(), id, false)
    {
      if !open {
        return Ok(Null);
      }
      var found := Scan(DeliverooModifierIds(db.modifiers), id);
      r := if found.None? then Err(TypeError) else Ok(db.modifiers[found.value].modifierId);
    }

    method InsertModifier(m: LegacyModifier) returns (v: Value)
      modifies this
      ensures Out(State(), Ok(v)) == ModifierStep(old(State()), m)
    {
      if !open {
        return Null;
      }
      v := Int(next);
      db := db.(modifiers := db.modifiers + [ModifierRow(v, m.id, m.name, m.operationalName)]);
      next := next + 1;
    }

    /** One pass of `insert_order_item_modifiers`' loop. */
    method InsertOrderItemModifier(orderId: Value, itemId: Value, m: LegacyModifier) returns (r: Result<(), Raised>)
      requires open
      modifies this
      ensures Out(State(), r) == LinkStep(old(State()), orderId, itemId, m, false)
    {
      var found := ModifierExists(m.id);
      if found.Err? {
        return Err(found.error);
      }
      var id := found.value;
      if id == Null {
        id := InsertModifier(m);
      }
      db := db.(links := db.links + [LinkRow(orderId, itemId, id, m.quantity, m.fractional)]);
      r := Ok(());
    }

    /** `insert_order_item_modifiers`: one order_item_modifiers row per modifier, in one
        `with` block. */
    method InsertOrderItemModifiers(orderId: Value, itemId: Value, mods: seq<LegacyModifier>) returns (r: Result<(), Raised>)
      modifies this
      ensures Out(State(), r) == LinksStep(old(State()), orderId, itemId, mods, false)
    {
      if !open {
        return Err(NotAContextManager);
      }
      ghost var start := State();
      var k := 0;
      while k < |mods|
        invariant k <= |mods| && open && saved == start.saved
        invariant ModsLoop(start, orderId, itemId, mods, false) == ModsLoop(State(), orderId, itemId, mods[k..], false)
      {
        assert mods[k..][0] == mods[k] && mods[k..][1..] == mods[k + 1..];
        var one := InsertOrderItemModifier(orderId, itemId, mods[k]);
        if one.Err? {
          Rollback();
          return one;
        }
        k := k + 1;
      }
      Commit();
      r := Ok(());
    }
  }

  /** `ids` before the ids of a loop's successful rest; a failure is passed through. */
  function Prepend(ids: seq<Value>, r: Out<seq<Value>>): Out<seq<Value>>
  {
    if r.result.Ok? then Out(r.conn, Ok(ids + r.result.value)) else r
  }

  lemma PrependNothing(r: Out<seq<Value>>)
    ensures Prepend([], r) == r
  {
    if r.result.Ok? {
      assert [] + r.result.value == r.result.value;
    }
  }

  /** One pass of the item loop, seen from the ids gathered so far. */
  lemma PrependStep(c: Conn, orderId: Value, items: seq<LegacyItem>, k: nat, ids: seq<Value>)
    requires c.open && k < |items|
    ensures var one := OrderItemStep(c, orderId, items[k], false);
      && (one.result.Err? ==> Prepend(ids, ItemsLoop(c, orderId, items[k..], false)) == Out(c, Err(one.result.error)))
      && (one.result.Ok? ==> Prepend(ids, ItemsLoop(c, orderId, items[k..], false))
                             == Prepend(ids + [one.result.value], ItemsLoop(one.conn, orderId, items[k + 1..], false)))
  {
    assert items[k..][0] == items[k] && items[k..][1..] == items[k + 1..];
    var one := OrderItemStep(c, orderId, items[k], false);
    if one.result.Ok? {
      var rest := ItemsLoop(one.conn, orderId, items[k + 1..], false);
      if rest.result.Ok? {
        assert ids + ([one.result.value] + rest.result.value) == ids + [one.result.value] + rest.result.value;
      }
    }
  }

  /** `insert_order_data(order_data)`: a fresh manager, connected when the database is
      `reachable`; every exception is swallowed and the connection closed. The result is what
      the database holds afterwards. */
  method InsertOrderData(t: Tables, next: nat, reachable: bool, o: LegacyOrder) returns (after: Tables)
    ensures after == Ingest(t, next, reachable, o, false)
  {
    var m := new DatabaseManager(t, next);
    m.Connect(reachable);
    after := t;
    if o.customer.None? {
      m.CloseConnection();
      return m.saved;
    }
    var customerId := m.InsertCustomer(o.customer.value);
    if o.deliveryAddress.Some? {
      var addressId := m.InsertAddress(o.deliveryAddress.value);
      m.InsertDeliveryAddress(customerId, addressId);
    }
    if o.locationId.None? {
      m.CloseConnection();
      return m.saved;
    }
    var orderId := m.InsertOrder(o, customerId, o.locationId.value);
    if orderId.Err? {
      m.CloseConnection();
      return m.saved;
    }
    var ids := m.InsertOrderItems(orderId.value, o.items);
    if ids.Err? {
      m.CloseConnection();
      return m.saved;
    }
    ghost var linked := m.State();
    var k := 0;
    while k < |o.items|
      invariant k <= |o.items| && |ids.value| == |o.items|
      invariant AllLinks(linked, orderId.value, o.items, ids.value, 0, false)
                == AllLinks(m.State(), orderId.value, o.items, ids.value, k, false)
    {
      var done := m.InsertOrderItemModifiers(orderId.value, o.items[k].posItemId, o.items[k].modifiers);
      if done.Err? {
        m.CloseConnection();
        return m.saved;
      }
      k := k + 1;
    }
    m.Commit();
    m.CloseConnection();
    after := m.saved;
  }
}
