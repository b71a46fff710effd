/**
  The order store as PostgreSQL tables: order rows and item rows kept apart, CHECK and UNIQUE
  constraints, and transactions that roll back unless they commit. Read back through its tables it is
  the map store, for exactly the orders the constraints admit.
 */
module PostgresStore {
  import opened Wrappers
  import opened Money
  import opened OrderDomain
  import opened Events
  import opened OrderStore

  datatype OrderRow = OrderRow(userId: string, restaurantId: string, status: Status, total: int64, version: nat)

  // json.Marshal writes a nil slice as null, and NewOrder leaves an empty modifier list nil.
  datatype Json = Null | Array(values: seq<string>)

  function Marshal(modifiers: seq<string>): Json {
    if modifiers == [] then Null else Array(modifiers)
  }

  function Unmarshal(json: Json): seq<string> {
    match json
    case Null => []
    case Array(values) => values
  }

  datatype ItemRow = ItemRow(
    orderId: string, menuItemId: string, name: string, unitPrice: int64, quantity: int32, modifiers: Json, lineTotal: int64)

  // The CHECKs of the order_items table.
  predicate ItemRowAllowed(row: ItemRow) {
    row.unitPrice > 0 && row.quantity > 0 && row.modifiers.Array? && row.lineTotal > 0
  }

  // `items` is keyed by its BIGSERIAL id; `nextSerial` never goes back, not even on rollback.
  datatype Tables = Tables(
    orders: map<string, OrderRow>, items: map<nat, ItemRow>, nextSerial: nat,
    keys: map<(string, string), KeyRow>, inbox: map<string, InboxRow>, outbox: seq<Envelope<OrderCreated>>)

  function RowOf(orderId: string, item: OrderItem): ItemRow {
    ItemRow(orderId, item.menuItemId, item.name, item.unitPrice, item.quantity, Marshal(item.modifiers), item.lineTotal)
  }

  function ItemOf(row: ItemRow): OrderItem {
    OrderItem(row.menuItemId, row.name, row.unitPrice, row.quantity, Unmarshal(row.modifiers), row.lineTotal)
  }

  lemma ItemRoundTrip(orderId: string, item: OrderItem)
    ensures ItemOf(RowOf(orderId, item)) == item
  {
  }

  // SELECT ... WHERE order_id = $1 ORDER BY id, over the serials below n.
  function LoadItems(items: map<nat, ItemRow>, n: nat, orderId: string): seq<OrderItem> {
    if n == 0 then []
    else
      LoadItems(items, n - 1, orderId) +
      if n - 1 in items && items[n - 1].orderId == orderId then [ItemOf(items[n - 1])] else []
  }

  function LoadOrder(t: Tables, id: string): Order
    requires id in t.orders
  {
    var row := t.orders[id];
    Order(id, row.userId, row.restaurantId, row.status, LoadItems(t.items, t.nextSerial, id), row.total, row.version)
  }

  // The map store these tables stand for.
  function Abs(t: Tables): State {
    State(map id | id in t.orders :: LoadOrder(t, id), t.keys, t.inbox, t.outbox)
  }

  // Foreign keys, and serials below the sequence.
  predicate TablesOk(t: Tables) {
    (forall i :: i in t.items ==> i < t.nextSerial && t.items[i].orderId in t.orders) &&
    (forall k :: k in t.keys ==> t.keys[k].orderId in t.orders) &&
    (forall e :: e in t.inbox ==> t.inbox[e].orderId in t.orders)
  }

  // Everything the constraints of the orders schema ask of a new order.
  predicate Storable(t: Tables, r: CreateRecord) {
    r.order.id !in t.orders && !r.order.status.Unknown? && r.order.total >= 0 && r.order.version > 0 &&
    (forall i :: 0 <= i < |r.order.items| ==> ItemRowAllowed(RowOf(r.order.id, r.order.items[i]))) &&
    r.event.eventVersion > 0 && (forall i :: 0 <= i < |t.outbox| ==> t.outbox[i].eventId != r.event.eventId)
  }

  /** What the orders schema asks of a new order, constraint by constraint. */
  lemma StorableFields(t: Tables, r: CreateRecord)
    ensures Storable(t, r) <==>
      r.order.id !in t.orders &&
      r.order.status in {Pending, Accepted, Rejected, Preparing, Ready, Completed, Cancelled} &&
      r.order.total >= 0 && r.order.version > 0 && r.event.eventVersion > 0 &&
      (forall i :: 0 <= i < |r.order.items| ==>
         r.order.items[i].unitPrice > 0 && r.order.items[i].quantity > 0 && r.order.items[i].modifiers != [] &&
         r.order.items[i].lineTotal > 0) &&
      forall i :: 0 <= i < |t.outbox| ==> t.outbox[i].eventId != r.event.eventId
  {
    forall i | 0 <= i < |r.order.items|
      ensures ItemRowAllowed(RowOf(r.order.id, r.order.items[i])) <==>
        r.order.items[i].unitPrice > 0 && r.order.items[i].quantity > 0 && r.order.items[i].modifiers != [] &&
        r.order.items[i].lineTotal > 0
    {
    }
    assert r.order.status.Unknown? || r.order.status in {Pending, Accepted, Rejected, Preparing, Ready, Completed, Cancelled};
  }

  lemma {:induction false} LoadItemsSame(x: map<nat, ItemRow>, y: map<nat, ItemRow>, n: nat, orderId: string)
    requires forall i: nat :: i < n ==>
      ((i in x && x[i].orderId == orderId) <==> (i in y && y[i].orderId == orderId)) &&
      (i in x && x[i].orderId == orderId ==> x[i] == y[i])
    ensures LoadItems(x, n, orderId) == LoadItems(y, n, orderId)
  {
    if n > 0 { LoadItemsSame(x, y, n - 1, orderId); }
  }

  lemma {:induction false} LoadNothing(items: map<nat, ItemRow>, n: nat, orderId: string)
    requires forall i :: i in items ==> items[i].orderId != orderId
    ensures LoadItems(items, n, orderId) == []
  {
    if n > 0 { LoadNothing(items, n - 1, orderId); }
  }

  // Inserting one item row after all others appends to its order and to no other.
  lemma InsertLoads(items: map<nat, ItemRow>, n: nat, row: ItemRow, orderId: string)
    requires forall i :: i in items ==> i < n
    ensures LoadItems(items[n := row], n + 1, orderId) ==
            LoadItems(items, n, orderId) + if row.orderId == orderId then [ItemOf(row)] else []
  {
    LoadItemsSame(items, items[n := row], n, orderId);
  }

  class Store {
    var tables: Tables

    predicate Valid()
      reads this
    {
      TablesOk(tables)
    }

    constructor ()
      ensures Valid() && Abs(tables) == OrderStore.Empty()
    {
      tables := Tables(map[], map[], 0, map[], map[], []);
    }

    method LoadOrderItems(orderId: string) returns (items: seq<OrderItem>)
      ensures items == LoadItems(tables.items, tables.nextSerial, orderId)
    {
      items := [];
      for serial := 0 to tables.nextSerial
        invariant items == LoadItems(tables.items, serial, orderId)
      {
        if serial in tables.items && tables.items[serial].orderId == orderId {
          items := items + [ItemOf(tables.items[serial])];
        }
      }
    }

    method LoadOrderByID(orderId: string) returns (r: Result<Order, Error>)
      ensures r == if orderId in tables.orders then Success(LoadOrder(tables, orderId)) else Failure(OrderNotFound)
    {
      if orderId !in tables.orders {
        return Failure(OrderNotFound);
      }
      var row := tables.orders[orderId];
      var items := LoadOrderItems(orderId);
      return Success(Order(orderId, row.userId, row.restaurantId, row.status, items, row.total, row.version));
    }

    method FindOrderByIdempotencyKey(userId: string, key: string, fingerprint: string)
      returns (r: Option<Result<Created, Error>>)
      ensures r == Find(Abs(tables), userId, key, fingerprint)
    {
      if (userId, key) !in tables.keys {
        return None;
      }
      var record := tables.keys[(userId, key)];
      if record.fingerprint != fingerprint {
        return Some(Failure(IdempotencyConflict));
      }
      var order := LoadOrderByID(record.orderId);
      if order.Failure? {
        return Some(Failure(order.error));
      }
      return Some(Success(Created(order.value, true)));
    }

    method GetOrder(orderId: string, userId: string) returns (r: Result<Order, Error>)
      ensures r == Get(Abs(tables), orderId, userId)
      ensures r.Success? <==> orderId in tables.orders && tables.orders[orderId].userId == userId
    {
      if orderId !in tables.orders || tables.orders[orderId].userId != userId {
        return Failure(OrderNotFound);
      }
      r := LoadOrderByID(orderId);
    }

    /** CreateOrder: the map store's create when the constraints admit the order, and nothing otherwise. */
    method CreateOrder(record: CreateRecord) returns (r: Result<Created, Error>)
      requires Valid()
      modifies this
      ensures Valid()
      ensures var s := old(Abs(tables));
        if (record.order.userId, record.key) in s.keys || Storable(old(tables), record)
        then (Abs(tables), r) == Create(s, record)
        else Abs(tables) == s && r == Failure(ConstraintViolation)
    {
      var before := tables;
      var committed := false;
      r, committed := CreateInTransaction(record);
      if !committed {
        tables := before.(nextSerial := tables.nextSerial);
        RollbackRestores(before, tables.nextSerial);
      }
    }

    method CreateInTransaction(record: CreateRecord) returns (r: Result<Created, Error>, committed: bool)
      requires Valid()
      modifies this
      ensures tables.nextSerial >= old(tables).nextSerial
      ensures committed ==> Valid() && (Abs(tables), r) == Create(old(Abs(tables)), record)
      ensures committed ==> (record.order.userId, record.key) in old(tables).keys || Storable(old(tables), record)
      ensures !committed ==>
        if (record.order.userId, record.key) in old(tables).keys then r == Create(old(Abs(tables)), record).1 && r.Failure?
        else !Storable(old(tables), record) && r == Failure(ConstraintViolation)
    {
      ghost var t := tables;
      committed := false;
      var found := FindOrderByIdempotencyKey(record.order.userId, record.key, record.fingerprint);
      if found.Some? {
        return found.value, found.value.Success?;
      }
      var order := record.order;
      if order.id in tables.orders || order.status.Unknown? || order.total < 0 || order.version <= 0 {
        return Failure(ConstraintViolation), false;
      }
      tables := tables.(orders := tables.orders[order.id :=
        OrderRow(order.userId, order.restaurantId, order.status, order.total, order.version)]);
      var inserted := InsertOrderItems(order);
      if !inserted {
        return Failure(ConstraintViolation), false;
      }
      tables := tables.(keys := tables.keys[(order.userId, record.key) := KeyRow(record.fingerprint, order.id)]);
      if record.event.eventVersion <= 0 || exists i :: 0 <= i < |tables.outbox| && tables.outbox[i].eventId == record.event.eventId {
        return Failure(ConstraintViolation), false;
      }
      tables := tables.(outbox := tables.outbox + [record.event]);
      NewOrderLoads(t, tables, record);
      return Success(Created(order, false)), true;
    }

    // One INSERT per item; the first refused row ends the transaction.
    method InsertOrderItems(order: Order) returns (ok: bool)
      requires forall i :: i in tables.items ==> i < tables.nextSerial
      modifies this
      ensures tables == old(tables).(items := tables.items, nextSerial := tables.nextSerial)
      ensures tables.nextSerial >= old(tables).nextSerial
      ensures ok <==> forall i :: 0 <= i < |order.items| ==> ItemRowAllowed(RowOf(order.id, order.items[i]))
      ensures ok ==> Appended(old(tables), tables, order.id, order.items)
    {
      ghost var t := tables;
      AppendedNothing(t, order.id);
      for i := 0 to |order.items|
        invariant tables == t.(items := tables.items, nextSerial := tables.nextSerial)
        invariant tables.nextSerial >= t.nextSerial
        invariant Appended(t, tables, order.id, order.items[..i])
        invariant forall j :: 0 <= j < i ==> ItemRowAllowed(RowOf(order.id, order.items[j]))
      {
        var item := order.items[i];
        var row := ItemRow(order.id, item.menuItemId, item.name, item.unitPrice, item.quantity, Marshal(item.modifiers), item.lineTotal);
        var serial := tables.nextSerial;
        tables := tables.(nextSerial := serial + 1);
        if !ItemRowAllowed(row) {
          return false;
        }
        AppendedNext(t, tables.(nextSerial := serial), order.id, order.items, i);
        tables := tables.(items := tables.items[serial := row]);
      }
      assert order.items[..|order.items|] == order.items;
      return true;
    }

    /** ApplyPartnerEvent: always the map store's apply. */
    method ApplyPartnerEvent(record: PartnerEvent) returns (r: Result<Applied, Error>)
      requires Valid()
      modifies this
      ensures Valid() && (Abs(tables), r) == Apply(old(Abs(tables)), record)
    {
      ghost var t := tables;
      if record.eventId in tables.inbox {
        var existing := tables.inbox[record.eventId];
        if existing.fingerprint != record.fingerprint {
          return Failure(InboxConflict);
        }
        var stored := LoadOrderByID(existing.orderId);
        match stored {
          case Failure(error) => return Failure(error);
          case Success(order) => return Success(Applied(order, true, false));
        }
      }
      var loaded := LoadOrderByID(record.orderId);
      if loaded.Failure? {
        return Failure(loaded.error);
      }
      var order := new OrderVar(loaded.value);
      var outcome := order.TransitionTo(record.newStatus);
      if outcome == Refused {
        return Failure(InvalidTransition);
      }
      if outcome == Changed {
        var row := tables.orders[order.order.id];
        tables := tables.(orders := tables.orders[order.order.id :=
          row.(status := order.order.status, version := order.order.version)]);
      }
      tables := tables.(inbox := tables.inbox[record.eventId := InboxRow(record.fingerprint, record.orderId)]);
      assert Abs(tables).orders == Apply(Abs(t), record).0.orders;
      return Success(Applied(order.order, false, outcome == Changed));
    }
  }

  lemma RollbackRestores(before: Tables, nextSerial: nat)
    requires TablesOk(before) && nextSerial >= before.nextSerial
    ensures var t := before.(nextSerial := nextSerial); TablesOk(t) && Abs(t) == Abs(before)
  {
    var t := before.(nextSerial := nextSerial);
    forall id | id in before.orders ensures LoadOrder(t, id) == LoadOrder(before, id) {
      LoadBeyond(before.items, before.nextSerial, nextSerial, id);
    }
    assert Abs(t).orders == Abs(before).orders;
  }

  lemma {:induction false} LoadBeyond(items: map<nat, ItemRow>, n: nat, m: nat, orderId: string)
    requires n <= m && forall i :: i in items ==> i < n
    ensures LoadItems(items, m, orderId) == LoadItems(items, n, orderId)
  {
    if n < m { LoadBeyond(items, n, m - 1, orderId); }
  }

  // t' is t with item rows for one order inserted after all others.
  ghost predicate Appended(t: Tables, t': Tables, orderId: string, items: seq<OrderItem>) {
    (forall i :: i in t'.items ==> i < t'.nextSerial) &&
    (forall i :: i in t'.items ==> i in t.items || t'.items[i].orderId == orderId) &&
    LoadItems(t'.items, t'.nextSerial, orderId) == LoadItems(t.items, t.nextSerial, orderId) + items &&
    (forall id :: id != orderId ==> LoadItems(t'.items, t'.nextSerial, id) == LoadItems(t.items, t.nextSerial, id)) &&
    (forall i :: i in t.items ==> i in t'.items && t'.items[i] == t.items[i])
  }

  lemma AppendedNothing(t: Tables, orderId: string)
    requires forall i :: i in t.items ==> i < t.nextSerial
    ensures Appended(t, t, orderId, [])
  {
  }

  lemma AppendedNext(t: Tables, t1: Tables, orderId: string, items: seq<OrderItem>, i: nat)
    requires i < |items| && Appended(t, t1, orderId, items[..i])
    ensures Appended(t, t1.(items := t1.items[t1.nextSerial := RowOf(orderId, items[i])], nextSerial := t1.nextSerial + 1),
                     orderId, items[..i + 1])
  {
    var row := RowOf(orderId, items[i]);
    forall id ensures LoadItems(t1.items[t1.nextSerial := row], t1.nextSerial + 1, id) ==
                      LoadItems(t1.items, t1.nextSerial, id) + if row.orderId == id then [ItemOf(row)] else []
    {
      InsertLoads(t1.items, t1.nextSerial, row, id);
    }
    ItemRoundTrip(orderId, items[i]);
    assert items[..i + 1] == items[..i] + [items[i]];
  }

  lemma NewOrderLoads(t: Tables, t': Tables, r: CreateRecord)
    requires TablesOk(t) && Storable(t, r) && (r.order.userId, r.key) !in t.keys
    requires Appended(t, t', r.order.id, r.order.items)
    requires t'.orders == t.orders[r.order.id :=
      OrderRow(r.order.userId, r.order.restaurantId, r.order.status, r.order.total, r.order.version)]
    requires t'.keys == t.keys[(r.order.userId, r.key) := KeyRow(r.fingerprint, r.order.id)]
    requires t'.inbox == t.inbox && t'.outbox == t.outbox + [r.event]
    ensures TablesOk(t') && Abs(t') == Create(Abs(t), r).0
  {
    LoadNothing(t.items, t.nextSerial, r.order.id);
    assert LoadOrder(t', r.order.id) == r.order;
    assert Abs(t').orders == Create(Abs(t), r).0.orders;
  }

  /**
    Which new orders PostgreSQL takes: an order NewOrder has just built is stored if and only if its
    ids are fresh, every item has a modifier, and no wrapped line or total went out of range.
   */
  lemma NewOrderStorable(t: Tables, input: NewOrderInput, key: string, fingerprint: string, event: Envelope<OrderCreated>)
    requires OrderFor(input).Success? && event.eventVersion > 0
    requires forall i :: 0 <= i < |t.outbox| ==> t.outbox[i].eventId != event.eventId
    ensures Storable(t, CreateRecord(OrderFor(input).value, key, fingerprint, event)) <==>
      input.orderId !in t.orders && Wrap(Sum(ExactLines(input.items))) >= 0 &&
      forall i :: 0 <= i < |input.items| ==>
        input.items[i].modifiers != [] && LineTotal(input.items[i].unitPrice, input.items[i].quantity) > 0
  {
    var order := OrderFor(input).value;
    assert forall i :: 0 <= i < |input.items| ==> order.items[i] == PricedItem(input.items[i]);
    assert forall i :: 0 <= i < |input.items| ==> ValidNewItem(input.items[i]);
  }

  /**
    Which orders PostgreSQL stores although partner-service can never read their event: exactly the
    storable ones whose price wraps around to zero.
   */
  lemma StoredButUnreadable(
    t: Tables, topic: string, input: NewOrderInput, key: string, fingerprint: string, eventId: string, requestId: string, now: int)
    requires OrderFor(input).Success? && eventId != ""
    requires forall i :: 0 <= i < |t.outbox| ==> t.outbox[i].eventId != eventId
    ensures var order := OrderFor(input).value;
      OrderEvent(order, eventId, requestId, key, now).Some? &&
      var event := OrderEvent(order, eventId, requestId, key, now).value;
      (Storable(t, CreateRecord(order, key, fingerprint, event)) && ReadOrderCreated(Received(RowMessage(topic, event))) == None)
      <==>
      (input.orderId !in t.orders && Wrap(Sum(ExactLines(input.items))) == 0 &&
       forall i :: 0 <= i < |input.items| ==>
         input.items[i].modifiers != [] && LineTotal(input.items[i].unitPrice, input.items[i].quantity) > 0)
  {
    OrderEventReads(topic, input, eventId, requestId, key, now);
    NewOrderStorable(t, input, key, fingerprint, OrderEvent(OrderFor(input).value, eventId, requestId, key, now).value);
  }

  // Four items at a quarter of 2^64 cents each.
  function QuarterItem(menuItemId: string, name: string, modifier: string): NewItem {
    NewItem(menuItemId, name, 0x4000_0000_0000_0000, 1, [modifier])
  }

  function ZeroPriced(orderId: string, userId: string, restaurantId: string, item: NewItem): NewOrderInput {
    NewOrderInput(orderId, userId, restaurantId, [item, item, item, item])
  }

  lemma {:induction false} SumOfFour(s: seq<int>, x: int)
    requires s == [x, x, x, x]
    ensures Sum(s) == 4 * x
  {
    SumExtend(s, 0);
    SumExtend(s, 1);
    SumExtend(s, 2);
    SumExtend(s, 3);
    assert s[..4] == s && s[..0] == [];
  }

  lemma {:induction false} FirstInvalidNone(items: seq<NewItem>)
    requires forall i :: 0 <= i < |items| ==> ValidNewItem(items[i])
    ensures FirstInvalid(items, 0) == None
  {
  }

  /** Such an order exists: NewOrder builds it, its total is zero, PostgreSQL stores it, and its event is never readable. */
  lemma ZeroPriceIsStored(
    t: Tables, topic: string, orderId: string, userId: string, restaurantId: string, menuItemId: string, name: string,
    modifier: string, key: string, fingerprint: string, eventId: string, requestId: string, now: int)
    requires orderId != "" && userId != "" && restaurantId != "" && menuItemId != "" && name != "" && eventId != ""
    requires orderId !in t.orders && forall i :: 0 <= i < |t.outbox| ==> t.outbox[i].eventId != eventId
    ensures var created := OrderFor(ZeroPriced(orderId, userId, restaurantId, QuarterItem(menuItemId, name, modifier)));
      created.Success? && created.value.total == 0 &&
      var event := OrderEvent(created.value, eventId, requestId, key, now);
      event.Some? && Storable(t, CreateRecord(created.value, key, fingerprint, event.value)) &&
      ReadOrderCreated(Received(RowMessage(topic, event.value))) == None
  {
    var input := ZeroPriced(orderId, userId, restaurantId, QuarterItem(menuItemId, name, modifier));
    FirstInvalidNone(input.items);
    var quarter := 0x4000_0000_0000_0000;
    assert ExactLines(input.items) == [quarter, quarter, quarter, quarter];
    SumOfFour(ExactLines(input.items), quarter);
    WrapUnique(4 * quarter, 0, -1);
    StoredButUnreadable(t, topic, input, key, fingerprint, eventId, requestId, now);
  }
}
