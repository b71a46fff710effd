/**
  The order store: orders, idempotency keys, the inbox of partner events and the outbox. The
  functions say what each operation means; MemoryStore updates its maps in place to the same effect.
 */
module OrderStore {
  import opened Wrappers
  import opened OrderDomain
  import opened Events

  datatype KeyRow = KeyRow(fingerprint: string, orderId: string)

  datatype InboxRow = InboxRow(fingerprint: StatusChanged, orderId: string)

  datatype State = State(
    orders: map<string, Order>, keys: map<(string, string), KeyRow>,
    inbox: map<string, InboxRow>, outbox: seq<Envelope<OrderCreated>>)

  datatype Error = IdempotencyConflict | OrderNotFound | InboxConflict | InvalidTransition | InvalidEvent | ConstraintViolation

  datatype CreateRecord = CreateRecord(order: Order, key: string, fingerprint: string, event: Envelope<OrderCreated>)

  datatype Created = Created(order: Order, reused: bool)

  datatype Applied = Applied(order: Order, duplicate: bool, changed: bool)

  function Empty(): State { State(map[], map[], map[], []) }

  // None when the key is new.
  function Find(s: State, userId: string, key: string, fingerprint: string): Option<Result<Created, Error>> {
    if (userId, key) !in s.keys then None
    else
      var row := s.keys[(userId, key)];
      if row.fingerprint != fingerprint then Some(Failure(IdempotencyConflict))
      else if row.orderId !in s.orders then Some(Failure(OrderNotFound))
      else Some(Success(Created(s.orders[row.orderId], true)))
  }

  function Create(s: State, r: CreateRecord): (State, Result<Created, Error>) {
    match Find(s, r.order.userId, r.key, r.fingerprint)
    case Some(answer) => (s, answer)
    case None =>
      (s.(orders := s.orders[r.order.id := r.order],
          keys := s.keys[(r.order.userId, r.key) := KeyRow(r.fingerprint, r.order.id)],
          outbox := s.outbox + [r.event]),
       Success(Created(r.order, false)))
  }

  function Get(s: State, orderId: string, userId: string): Result<Order, Error> {
    if orderId in s.orders && s.orders[orderId].userId == userId then Success(s.orders[orderId]) else Failure(OrderNotFound)
  }

  function Apply(s: State, e: PartnerEvent): (State, Result<Applied, Error>) {
    if e.eventId in s.inbox then
      var row := s.inbox[e.eventId];
      if row.fingerprint != e.fingerprint then (s, Failure(InboxConflict))
      else if row.orderId !in s.orders then (s, Failure(OrderNotFound))
      else (s, Success(Applied(s.orders[row.orderId], true, false)))
    else if e.orderId !in s.orders then (s, Failure(OrderNotFound))
    else
      var (order, outcome) := Moved(s.orders[e.orderId], e.newStatus);
      if outcome == Refused then (s, Failure(InvalidTransition))
      else
        (s.(orders := s.orders[e.orderId := order], inbox := s.inbox[e.eventId := InboxRow(e.fingerprint, e.orderId)]),
         Success(Applied(order, false, outcome == Changed)))
  }

  /** An order is found by its own user and by nobody else. */
  lemma GetFindsOwn(s: State, orderId: string, userId: string, o: Order)
    ensures Get(s, orderId, userId) == Success(o) <==> orderId in s.orders && s.orders[orderId] == o && o.userId == userId
    ensures Get(s, orderId, userId).Failure? ==> Get(s, orderId, userId).error == OrderNotFound
  {
  }

  /** A create under a new key writes the order, the key and the event, and answers with that order. */
  lemma CreateWrites(s: State, r: CreateRecord)
    requires (r.order.userId, r.key) !in s.keys
    ensures var (s', answer) := Create(s, r);
      answer == Success(Created(r.order, false)) && s'.inbox == s.inbox && s'.outbox == s.outbox + [r.event] &&
      s'.orders.Keys == s.orders.Keys + {r.order.id} && s'.orders[r.order.id] == r.order &&
      (forall id :: id in s.orders && id != r.order.id ==> s'.orders[id] == s.orders[id]) &&
      s'.keys.Keys == s.keys.Keys + {(r.order.userId, r.key)} &&
      s'.keys[(r.order.userId, r.key)].fingerprint == r.fingerprint &&
      s'.keys[(r.order.userId, r.key)].orderId == r.order.id &&
      forall k :: k in s.keys ==> s'.keys[k] == s.keys[k]
  {
  }

  // Under a used key it writes nothing: the same request gets the stored order back, another one a conflict.
  lemma CreateUnderUsedKey(s: State, r: CreateRecord)
    requires (r.order.userId, r.key) in s.keys
    ensures var (s', answer) := Create(s, r);
      var row := s.keys[(r.order.userId, r.key)];
      s' == s &&
      if row.fingerprint != r.fingerprint then answer == Failure(IdempotencyConflict)
      else if row.orderId in s.orders then answer == Success(Created(s.orders[row.orderId], true))
      else answer == Failure(OrderNotFound)
  {
  }

  /**
    A partner event's first handling: no such order, a status the table does not lead to, the status the
    order already has, or the one change it makes, which the answer carries. Only a success is remembered.
   */
  lemma ApplyFirst(s: State, e: PartnerEvent)
    requires e.eventId !in s.inbox
    ensures var (s', answer) := Apply(s, e);
      if e.orderId !in s.orders then s' == s && answer == Failure(OrderNotFound)
      else
        var o := s.orders[e.orderId];
        if o.status == e.newStatus then
          s'.orders == s.orders && answer == Success(Applied(o, false, false))
        else if (o.status == Pending && (e.newStatus == Accepted || e.newStatus == Rejected || e.newStatus == Cancelled)) ||
                (o.status == Accepted && (e.newStatus == Preparing || e.newStatus == Cancelled)) ||
                (o.status == Preparing && (e.newStatus == Ready || e.newStatus == Cancelled)) ||
                (o.status == Ready && e.newStatus == Completed) then
          s'.orders.Keys == s.orders.Keys &&
          s'.orders[e.orderId] == o.(status := e.newStatus, version := o.version + 1) &&
          (forall id :: id in s.orders && id != e.orderId ==> s'.orders[id] == s.orders[id]) &&
          answer == Success(Applied(o.(status := e.newStatus, version := o.version + 1), false, true))
        else s' == s && answer == Failure(InvalidTransition)
    ensures var (s', answer) := Apply(s, e);
      s'.keys == s.keys && s'.outbox == s.outbox &&
      s'.inbox == if answer.Success? then s.inbox[e.eventId := InboxRow(e.fingerprint, e.orderId)] else s.inbox
  {
    if e.orderId in s.orders { MovedFields(s.orders[e.orderId], e.newStatus); }
  }

  // Its later handlings change nothing: a duplicate with the order as it is now, or a conflict.
  lemma ApplyAgain(s: State, e: PartnerEvent)
    requires e.eventId in s.inbox
    ensures var (s', answer) := Apply(s, e);
      var row := s.inbox[e.eventId];
      s' == s &&
      if row.fingerprint != e.fingerprint then answer == Failure(InboxConflict)
      else if row.orderId in s.orders then answer == Success(Applied(s.orders[row.orderId], true, false))
      else answer == Failure(OrderNotFound)
  {
  }

  // What the store keeps: every row refers to an order that exists under its own id.
  predicate StoreOk(s: State) {
    (forall id :: id in s.orders ==> s.orders[id].id == id) &&
    (forall k :: k in s.keys ==> s.keys[k].orderId in s.orders) &&
    (forall e :: e in s.inbox ==> s.inbox[e].orderId in s.orders)
  }

  lemma OperationsKeepStoreOk(s: State, r: CreateRecord, e: PartnerEvent)
    requires StoreOk(s)
    ensures StoreOk(Create(s, r).0) && StoreOk(Apply(s, e).0)
  {
  }

  // A failed operation, and a replayed one, leave the store exactly as it was.
  lemma OnlyFirstSuccessWrites(s: State, r: CreateRecord, e: PartnerEvent)
    ensures Create(s, r).0 != s ==> Create(s, r).1 == Success(Created(r.order, false))
    ensures Apply(s, e).0 != s ==> Apply(s, e).1.Success? && !Apply(s, e).1.value.duplicate
  {
  }

  /** Replaying a create answers with the stored order, whatever record the replay carries. */
  lemma CreateReplays(s: State, r: CreateRecord, replay: CreateRecord)
    requires StoreOk(s) && Create(s, r).1.Success?
    requires replay.order.userId == r.order.userId && replay.key == r.key && replay.fingerprint == r.fingerprint
    ensures var (s', answer) := Create(s, r);
      Create(s', replay) == (s', Success(Created(answer.value.order, true)))
  {
  }

  /** A different request under a used key conflicts and changes nothing. */
  lemma CreateConflicts(s: State, r: CreateRecord, other: CreateRecord)
    requires Create(s, r).1.Success?
    requires other.order.userId == r.order.userId && other.key == r.key && other.fingerprint != r.fingerprint
    ensures var s' := Create(s, r).0; Create(s', other) == (s', Failure(IdempotencyConflict))
  {
  }

  // An event is absorbed when redelivering it answers Duplicate and changes nothing.
  predicate Absorbed(s: State, e: PartnerEvent) {
    e.eventId in s.inbox && s.inbox[e.eventId].fingerprint == e.fingerprint && s.inbox[e.eventId].orderId in s.orders
  }

  /** Applying absorbs, and neither a later event nor a create ever releases what is absorbed. */
  lemma ApplyAbsorbs(s: State, e: PartnerEvent, later: PartnerEvent, r: CreateRecord)
    ensures Apply(s, e).1.Success? ==> Absorbed(Apply(s, e).0, e)
    ensures Absorbed(s, e) ==> Apply(s, e).0 == s && Apply(s, e).1.Success? && Apply(s, e).1.value.duplicate
    ensures Absorbed(s, e) ==> Absorbed(Apply(s, later).0, e) && Absorbed(Create(s, r).0, e)
  {
  }

  class MemoryStore {
    var orders: map<string, Order>
    var keys: map<(string, string), KeyRow>
    var inbox: map<string, InboxRow>
    var outbox: seq<Envelope<OrderCreated>>

    function Contents(): State
      reads this
    {
      State(orders, keys, inbox, outbox)
    }

    predicate Valid()
      reads this
    {
      StoreOk(Contents())
    }

    constructor ()
      ensures Valid() && Contents() == Empty()
    {
      orders, keys, inbox, outbox := map[], map[], map[], [];
    }

    method FindOrderByIdempotencyKey(userId: string, key: string, fingerprint: string)
      returns (r: Option<Result<Created, Error>>)
      requires Valid()
      ensures r == Find(Contents(), userId, key, fingerprint)
    {
      if (userId, key) in keys {
        var existing := keys[(userId, key)];
        if existing.fingerprint != fingerprint {
          return Some(Failure(IdempotencyConflict));
        }
        return Some(Success(Created(orders[existing.orderId], true)));
      }
      return None;
    }

    method CreateOrder(record: CreateRecord) returns (r: Result<Created, Error>)
      requires Valid()
      modifies this
      ensures Valid() && (Contents(), r) == Create(old(Contents()), record)
    {
      var found := FindOrderByIdempotencyKey(record.order.userId, record.key, record.fingerprint);
      if found.Some? {
        return found.value;
      }
      orders := orders[record.order.id := record.order];
      keys := keys[(record.order.userId, record.key) := KeyRow(record.fingerprint, record.order.id)];
      outbox := outbox + [record.event];
      return Success(Created(record.order, false));
    }

    method GetOrder(orderId: string, userId: string) returns (r: Result<Order, Error>)
      ensures r == Get(Contents(), orderId, userId)
      ensures r.Success? <==> orderId in orders && orders[orderId].userId == userId
      ensures r.Success? ==> r.value == orders[orderId]
    {
      if orderId !in orders || orders[orderId].userId != userId {
        return Failure(OrderNotFound);
      }
      return Success(orders[orderId]);
    }

    method ApplyPartnerEvent(record: PartnerEvent) returns (r: Result<Applied, Error>)
      requires Valid()
      modifies this
      ensures Valid() && (Contents(), r) == Apply(old(Contents()), record)
    {
      if record.eventId in inbox {
        var existing := inbox[record.eventId];
        if existing.fingerprint != record.fingerprint {
          return Failure(InboxConflict);
        }
        if existing.orderId !in orders {
          return Failure(OrderNotFound);
        }
        return Success(Applied(orders[existing.orderId], true, false));
      }
      if record.orderId !in orders {
        return Failure(OrderNotFound);
      }
      var order := new OrderVar(orders[record.orderId]);
      var outcome := order.TransitionTo(record.newStatus);
      if outcome == Refused {
        return Failure(InvalidTransition);
      }
      orders := orders[order.order.id := order.order];
      inbox := inbox[record.eventId := InboxRow(record.fingerprint, order.order.id)];
      return Success(Applied(order.order, false, outcome == Changed));
    }
  }
}
