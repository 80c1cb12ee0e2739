/** `load_order_data(conn, partner_name)` (core/db_utils.py, db/db_utils.py): the chain
    `orders FULL JOIN customers FULL JOIN partners FULL JOIN order_items FULL JOIN items
    FULL JOIN order_item_modifiers FULL JOIN modifiers WHERE partners.partner_name = name`.

    The WHERE clause keeps only rows that carry a partner row with that name, and no later
    join can supply a partner, so the surviving rows are exactly those of the left outer
    joins that start from the named partners. A result row is identified by the row it
    takes from each table (`None` where the outer join found no match); the DataFrame has
    one row per such handle, with the 27 selected columns read through it. */
module Loading {
  import opened Wrappers
  import opened Relational
  import opened Ingestion

  /** One result row: the row it takes from each joined table. */
  datatype Handle = Handle(partner: nat, order: Option<nat>, customer: Option<nat>,
                           orderItem: Option<nat>, item: Option<nat>, link: Option<nat>,
                           modifier: Option<nat>)

  /** A DataFrame row: the query's 27 selected columns, in select-list order. */
  datatype FrameRow = FrameRow(
    orderId: Value, platformOrderId: Value, platformOrderNumber: Value, orderStatus: Value,
    orderPlacedTimestamp: Value, orderUpdatedTimestamp: Value, orderPrepareForTimestamp: Value,
    orderStartPreppingAtTimestamp: Value,
    customerId: Value, firstName: Value, contactNumber: Value, contactAccessCode: Value,
    partnerId: Value, partnerName: Value,
    itemId: Value, platformItemId: Value, itemName: Value, itemOperationalName: Value,
    itemFractionalCost: Value,
    itemQuantity: Value, itemFractionalPrice: Value,
    modifierId: Value, platformModifierId: Value, modifierName: Value, modifierOperationalName: Value,
    modifierQuantity: Value, modifierFractionalPrice: Value)

  /** The rows of a table; a table the store lacks has none. */
  function Rows(db: Db, table: string): Table
  {
    if table in db.tables then db.tables[table] else map[]
  }

  /** A column of a joined row; NULL where the join found no row. */
  function Col(db: Db, table: string, id: Option<nat>, column: string): Value
  {
    if id.Some? && id.value in Rows(db, table) && column in Rows(db, table)[id.value]
    then Rows(db, table)[id.value][column] else Null
  }

  /** SQL `=` in an ON clause: NULL matches nothing. */
  predicate Matches(a: Value, b: Value)
  {
    a != Null && a == b
  }

  /** The rows a left outer join attaches: every match, or one NULL row when there is none. */
  function Outer(ids: set<nat>): (r: set<Option<nat>>)
    ensures ids == {} ==> r == {None}
    ensures ids != {} ==> forall x :: x in r <==> x.Some? && x.value in ids
  {
    if ids == {} then {None} else set id | id in ids :: Some(id)
  }

  /** The rows of `t` whose `column` equals `key` under SQL `=`. */
  function JoinOn(t: Table, column: string, key: Value): (ids: set<nat>)
    ensures forall i :: i in ids <==> i in t && column in t[i] && Matches(key, t[i][column])
  {
    set i | i in t && column in t[i] && Matches(key, t[i][column])
  }

  /** `ON orders.partner_id = partners.partner_id` */
  function OrderIds(db: Db, p: nat): set<nat>
  {
    JoinOn(Rows(db, OrdersTable), "partner_id", Col(db, PartnersTable, Some(p), "partner_id"))
  }

  /** `ON orders.customer_id = customers.customer_id` */
  function CustomerIds(db: Db, o: Option<nat>): set<nat>
  {
    JoinOn(Rows(db, CustomersTable), "customer_id", Col(db, OrdersTable, o, "customer_id"))
  }

  /** `ON orders.order_id = order_items.order_id` */
  function OrderItemIds(db: Db, o: Option<nat>): set<nat>
  {
    JoinOn(Rows(db, OrderItemsTable), "order_id", Col(db, OrdersTable, o, "order_id"))
  }

  /** `ON order_items.item_id = items.item_id` */
  function ItemIds(db: Db, oi: Option<nat>): set<nat>
  {
    JoinOn(Rows(db, ItemsTable), "item_id", Col(db, OrderItemsTable, oi, "item_id"))
  }

  /** `ON order_items.order_id = order_item_modifiers.order_id AND order_items.item_id =
      order_item_modifiers.item_id` */
  function LinkIds(db: Db, oi: Option<nat>): set<nat>
  {
    set l | l in Rows(db, OrderItemModifiersTable)
              && Matches(Col(db, OrderItemsTable, oi, "order_id"), Col(db, OrderItemModifiersTable, Some(l), "order_id"))
              && Matches(Col(db, OrderItemsTable, oi, "item_id"), Col(db, OrderItemModifiersTable, Some(l), "item_id"))
  }

  /** `ON order_item_modifiers.modifier_id = modifiers.modifier_id` */
  function ModifierIds(db: Db, l: Option<nat>): set<nat>
  {
    JoinOn(Rows(db, ModifiersTable), "modifier_id", Col(db, OrderItemModifiersTable, l, "modifier_id"))
  }

  /** A handle is a row of the outer joins from the partners named `name`. */
  predicate Joined(db: Db, name: string, h: Handle)
  {
    && h.partner in NamedIds(db, name)
    && h.order in Outer(OrderIds(db, h.partner))
    && h.customer in Outer(CustomerIds(db, h.order))
    && h.orderItem in Outer(OrderItemIds(db, h.order))
    && h.item in Outer(ItemIds(db, h.orderItem))
    && h.link in Outer(LinkIds(db, h.orderItem))
    && h.modifier in Outer(ModifierIds(db, h.link))
  }

  /** The rows of `load_order_data(conn, name)`. */
  function LoadOrderData(db: Db, name: string): (r: set<Handle>)
    ensures forall h :: h in r <==> Joined(db, name, h)
  {
    set p, o, c, oi, i, l, m |
      && p in NamedIds(db, name)
      && o in Outer(OrderIds(db, p))
      && c in Outer(CustomerIds(db, o))
      && oi in Outer(OrderItemIds(db, o))
      && i in Outer(ItemIds(db, oi))
      && l in Outer(LinkIds(db, oi))
      && m in Outer(ModifierIds(db, l))
      :: Handle(p, o, c, oi, i, l, m)
  }

  /** The DataFrame row of a handle: each column read from the row its table contributes
      (`order_items.quantity AS item_quantity` and the like for the aliased ones). */
  function Frame(db: Db, h: Handle): FrameRow
  {
    var o := h.order;
    var c := h.customer;
    var p := Some(h.partner);
    var i := h.item;
    var oi := h.orderItem;
    var m := h.modifier;
    var l := h.link;
    FrameRow(
      Col(db, OrdersTable, o, "order_id"), Col(db, OrdersTable, o, "platform_order_id"),
      Col(db, OrdersTable, o, "platform_order_number"), Col(db, OrdersTable, o, "order_status"),
      Col(db, OrdersTable, o, "order_placed_timestamp"), Col(db, OrdersTable, o, "order_updated_timestamp"),
      Col(db, OrdersTable, o, "order_prepare_for_timestamp"),
      Col(db, OrdersTable, o, "order_start_prepping_at_timestamp"),
      Col(db, CustomersTable, c, "customer_id"), Col(db, CustomersTable, c, "first_name"),
      Col(db, CustomersTable, c, "contact_number"), Col(db, CustomersTable, c, "contact_access_code"),
      Col(db, PartnersTable, p, "partner_id"), Col(db, PartnersTable, p, "partner_name"),
      Col(db, ItemsTable, i, "item_id"), Col(db, ItemsTable, i, "platform_item_id"),
      Col(db, ItemsTable, i, "item_name"), Col(db, ItemsTable, i, "item_operational_name"),
      Col(db, ItemsTable, i, "item_fractional_cost"),
      Col(db, OrderItemsTable, oi, "quantity"), Col(db, OrderItemsTable, oi, "fractional_price"),
      Col(db, ModifiersTable, m, "modifier_id"), Col(db, ModifiersTable, m, "platform_modifier_id"),
      Col(db, ModifiersTable, m, "modifier_name"), Col(db, ModifiersTable, m, "modifier_operational_name"),
      Col(db, OrderItemModifiersTable, l, "quantity"), Col(db, OrderItemModifiersTable, l, "fractional_price"))
  }

  /** The modifier columns of a row are all NULL. */
  predicate NoModifierColumns(r: FrameRow)
  {
    && r.modifierId == Null && r.platformModifierId == Null && r.modifierName == Null
    && r.modifierOperationalName == Null && r.modifierQuantity == Null && r.modifierFractionalPrice == Null
  }

  /** Only the named partner's rows come back, and every row names it. */
  lemma OnlyNamedPartner(db: Db, name: string, h: Handle)
    requires Joined(db, name, h)
    ensures h.partner in NamedIds(db, name)
    ensures Frame(db, h).partnerName == Text(name)
  {
  }

  /** An outer join always attaches something. */
  lemma OuterPick(ids: set<nat>) returns (x: Option<nat>)
    ensures x in Outer(ids)
  {
    if ids == {} {
      x := None;
    } else {
      var id :| id in ids;
      x := Some(id);
    }
  }

  /** Every partner row with the name yields at least one row, whether or not it has orders. */
  lemma EveryNamedPartner(db: Db, name: string, p: nat)
    requires p in NamedIds(db, name)
    ensures exists h :: Joined(db, name, h) && h.partner == p
  {
    var o := OuterPick(OrderIds(db, p));
    var c := OuterPick(CustomerIds(db, o));
    var oi := OuterPick(OrderItemIds(db, o));
    var i := OuterPick(ItemIds(db, oi));
    var l := OuterPick(LinkIds(db, oi));
    var m := OuterPick(ModifierIds(db, l));
    assert Joined(db, name, Handle(p, o, c, oi, i, l, m));
  }

  /** Each modifier link of an order item of an order of the partner yields a row. */
  lemma RowPerLink(db: Db, name: string, p: nat, o: nat, oi: nat, l: nat)
    requires p in NamedIds(db, name) && o in OrderIds(db, p)
    requires oi in OrderItemIds(db, Some(o)) && l in LinkIds(db, Some(oi))
    ensures exists h :: Joined(db, name, h)
                        && h.partner == p && h.order == Some(o) && h.orderItem == Some(oi) && h.link == Some(l)
  {
    var c := OuterPick(CustomerIds(db, Some(o)));
    var i := OuterPick(ItemIds(db, Some(oi)));
    var m := OuterPick(ModifierIds(db, Some(l)));
    assert Joined(db, name, Handle(p, Some(o), c, Some(oi), i, Some(l), m));
  }

  /** With `customer_id`, `item_id` and `modifier_id` unique, as their primary keys make
      them, there is only one row for a (partner, order, order item, modifier link). */
  lemma OneRowPerLink(db: Db, name: string, h1: Handle, h2: Handle)
    requires UniqueOn(Rows(db, CustomersTable), ["customer_id"])
    requires UniqueOn(Rows(db, ItemsTable), ["item_id"])
    requires UniqueOn(Rows(db, ModifiersTable), ["modifier_id"])
    requires Joined(db, name, h1) && Joined(db, name, h2)
    requires h1.partner == h2.partner && h1.order == h2.order
    requires h1.orderItem == h2.orderItem && h1.link == h2.link
    ensures h1 == h2
  {
    AtMostOne(Rows(db, CustomersTable), "customer_id", Col(db, OrdersTable, h1.order, "customer_id"), h1.customer, h2.customer);
    AtMostOne(Rows(db, ItemsTable), "item_id", Col(db, OrderItemsTable, h1.orderItem, "item_id"), h1.item, h2.item);
    AtMostOne(Rows(db, ModifiersTable), "modifier_id", Col(db, OrderItemModifiersTable, h1.link, "modifier_id"), h1.modifier, h2.modifier);
  }

  /** A join on a unique column attaches at most one row. */
  lemma AtMostOne(t: Table, column: string, key: Value, x: Option<nat>, y: Option<nat>)
    requires UniqueOn(t, [column])
    requires x in Outer(JoinOn(t, column, key)) && y in Outer(JoinOn(t, column, key))
    ensures x == y
  {
    if JoinOn(t, column, key) != {} {
      assert SameKey(t[x.value], t[y.value], [column]);
    }
  }

  /** An order item without modifier links yields exactly one row per item match, with every
      modifier column NULL. */
  lemma ItemWithoutModifiers(db: Db, name: string, h: Handle)
    requires Joined(db, name, h) && LinkIds(db, h.orderItem) == {}
    ensures h.link == None && h.modifier == None
    ensures NoModifierColumns(Frame(db, h))
  {
    assert h.modifier in Outer(ModifierIds(db, None));
  }

  /** ... and such a row is there for every order item of the partner's orders. */
  lemma ItemWithoutModifiersListed(db: Db, name: string, p: nat, o: nat, oi: nat)
    requires p in NamedIds(db, name) && o in OrderIds(db, p) && oi in OrderItemIds(db, Some(o))
    requires LinkIds(db, Some(oi)) == {}
    ensures exists h :: Joined(db, name, h)
                        && h.order == Some(o) && h.orderItem == Some(oi) && h.link == None
  {
    var c := OuterPick(CustomerIds(db, Some(o)));
    var i := OuterPick(ItemIds(db, Some(oi)));
    assert None in Outer(ModifierIds(db, None));
    assert Joined(db, name, Handle(p, Some(o), c, Some(oi), i, None, None));
  }

  /** A partner without orders yields one row whose only non-NULL columns are its own. */
  lemma PartnerWithoutOrders(db: Db, name: string, h: Handle)
    requires Joined(db, name, h) && OrderIds(db, h.partner) == {}
    ensures h == Handle(h.partner, None, None, None, None, None, None)
    ensures var r := Frame(db, h);
            r == FrameRow(Null, Null, Null, Null, Null, Null, Null, Null, Null, Null, Null, Null,
                          r.partnerId, r.partnerName,
                          Null, Null, Null, Null, Null, Null, Null, Null, Null, Null, Null, Null, Null)
  {
  }
}
