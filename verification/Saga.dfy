/**
  The whole order lifecycle as one system: order-service, its relay, partner-service with its
  dispatcher and relay, the restaurant, and the two topics in between. A topic is the log of its
  outbox, so records repeat and arrive in any order; consumers may handle any record at any time, any
  number of times; callbacks may come from anyone; and every effect may happen although its answer is
  lost.
 */
module Saga {
  import opened Wrappers
  import opened OrderDomain
  import opened Events
  import O = OrderStore
  import C = Creation
  import L = Lease
  import P = Partner
  import R = Restaurant
  import T = Texts

  datatype Config = Config(
    orderRelay: L.Config, partner: P.Config, orderTopic: string, partnerTopic: string, connected: bool)

  predicate ValidConfig(c: Config) {
    c.orderRelay.maxAttempts == None && P.ValidConfig(c.partner)
  }

  // `answered` names the restaurant's requests whose callback partner-service has answered with success.
  datatype System = System(
    creation: C.System, orderOutbox: L.Table<Envelope<OrderCreated>>, partner: P.State, restaurant: R.State, answered: set<string>)

  function Start(): System { System(C.Start(), L.Empty(), P.Empty(), R.Empty(), {}) }

  datatype Step =
    | Create(creating: C.Step)
    | RelayOrders(worker: L.Step<Envelope<OrderCreated>>)
    | HandleOrder(index: nat, submissionId: string)
    | Dispatch(delivery: L.Step<P.Delivery>)
    | Call(callback: Callback, digest: string, eventId: string, requestId: string, now: int)
    | Decide(request: string, orderId: string, status: Status, newId: string, now: int)
    | Arrive(request: string, digest: string, eventId: string, requestId: string, now: int)
    | Conclude(request: string, ok: bool)
    | Restart
    | Integrate(restaurantId: string, integration: P.Integration)
    | RelayStatuses(statusWorker: L.Step<Envelope<StatusChanged>>)
    | HandleStatus(index: nat)

  function OrderRecord(c: Config, s: System, index: nat): Record<OrderCreated>
    requires index < |s.orderOutbox.log|
  {
    Received(RowMessage(c.orderTopic, s.orderOutbox.log[index].payload))
  }

  function StatusRecord(c: Config, s: System, index: nat): Record<StatusChanged>
    requires index < |s.partner.outbox.log|
  {
    Received(RowMessage(c.partnerTopic, s.partner.outbox.log[index].payload))
  }

  // The order's transaction inserts its event's outbox row.
  function Inserted(c: Config, t: L.Table<Envelope<OrderCreated>>, before: O.State, after: O.State): L.Table<Envelope<OrderCreated>> {
    if |after.outbox| == |before.outbox| + 1
    then L.Next(c.orderRelay, t, L.Insert(after.outbox[|before.outbox|].eventId, after.outbox[|before.outbox|]))
    else t
  }

  // A delivery that takes effect is an order request to the restaurant.
  function Delivered(s: System, step: L.Step<P.Delivery>): R.State {
    if step.Send? && L.CanSend(s.partner.submissions, step.worker, step.effect, step.result) && step.effect then
      var k := s.partner.submissions.workers[step.worker].queue[0];
      R.Deliver(s.restaurant, k.payload.orderId, k.payload.externalStoreId, k.id, k.payload.payload).0
    else s.restaurant
  }

  // Order-service after its handler has seen what was read from a record.
  function Taken(s: System, read: Option<PartnerEvent>): System {
    if read.None? then s else s.(creation := C.Next(s.creation, C.PartnerApplies(read.value)))
  }

  function HandledStatus(c: Config, s: System, index: nat): System {
    if index >= |s.partner.outbox.log| then s else Taken(s, ReadStatusChanged(StatusRecord(c, s, index)))
  }

  function Next(c: Config, s: System, step: Step): System {
    match step
    case Create(k) =>
      if k.PartnerApplies? then s
      else
        var creation := C.Next(s.creation, k);
        s.(creation := creation, orderOutbox := Inserted(c, s.orderOutbox, s.creation.store, creation.store))
    case RelayOrders(w) => if L.WorkerStep(w) then s.(orderOutbox := L.Next(c.orderRelay, s.orderOutbox, w)) else s
    case HandleOrder(index, submissionId) =>
      if index >= |s.orderOutbox.log| then s
      else
        var read := ReadOrderCreated(OrderRecord(c, s, index));
        if read.None? then s else s.(partner := P.Next(c.partner, s.partner, P.Receive(submissionId, read.value)))
    case Dispatch(d) =>
      s.(partner := P.Next(c.partner, s.partner, P.Dispatch(d)), restaurant := Delivered(s, d))
    case Call(callback, digest, eventId, requestId, now) =>
      s.(partner := P.Next(c.partner, s.partner, P.Call(callback, digest, eventId, requestId, now)))
    case Decide(request, orderId, status, newId, now) =>
      if request in s.restaurant.sending then s
      else s.(restaurant := R.Next(c.connected, s.restaurant, R.Begin(request, orderId, status, newId, now)),
              answered := s.answered - {request})
    case Arrive(request, digest, eventId, requestId, now) =>
      if request !in s.restaurant.sending then s
      else
        var callback := s.restaurant.sending[request].callback;
        var (partner, answer) := P.ReceiveCallback(c.partner, s.partner, callback, digest, eventId, requestId, now);
        s.(partner := partner, answered := if answer.Success? then s.answered + {request} else s.answered)
    case Conclude(request, ok) =>
      if ok && request !in s.answered then s
      else s.(restaurant := R.Next(c.connected, s.restaurant, R.Finish(request, ok)))
    case Restart => s.(restaurant := R.Empty(), answered := {})
    case Integrate(restaurantId, integration) =>
      s.(partner := P.Next(c.partner, s.partner, P.Integrate(restaurantId, integration)))
    case RelayStatuses(w) => s.(partner := P.Next(c.partner, s.partner, P.Relay(w)))
    case HandleStatus(index) => HandledStatus(c, s, index)
  }

  function Exec(c: Config, s: System, steps: seq<Step>): System {
    if steps == [] then s else Next(c, Exec(c, s, steps[..|steps| - 1]), steps[|steps| - 1])
  }

  // ----- how the parts hang together -----

  // What an order's event says of it, then and ever after.
  function Snapshot(o: Order): OrderCreated {
    OrderCreated(o.id, o.userId, o.restaurantId, Pending, o.total, o.items)
  }

  predicate EventOf(e: Envelope<OrderCreated>, o: Order) {
    e.eventId != "" && e.eventType == ORDER_CREATED && e.eventVersion == 1 &&
    e.aggregateId == e.partitionKey == o.id && e.payload == Snapshot(o) &&
    (PayloadAccepted(e.payload, o.id) <==> o.total > 0)
  }

  predicate NewRecord(r: O.CreateRecord) {
    r.order.status == Pending && r.order.version == 1 && EventOf(r.event, r.order)
  }

  ghost predicate PricedAreNew(s: C.System) {
    forall r :: r in s.requests && s.requests[r].phase.Priced? ==> NewRecord(s.requests[r].phase.record)
  }

  // An outbox event, its order, and its outbox row.
  predicate EventLinked(store: O.State, t: L.Table<Envelope<OrderCreated>>, e: Envelope<OrderCreated>) {
    e.aggregateId in store.orders && EventOf(e, store.orders[e.aggregateId]) &&
    e.eventId in t.rows && t.rows[e.eventId].payload == e
  }

  ghost predicate EventsOk(s: System) {
    (forall i :: 0 <= i < |s.creation.store.outbox| ==> EventLinked(s.creation.store, s.orderOutbox, s.creation.store.outbox[i])) &&
    (forall id :: id in s.orderOutbox.rows ==>
       s.orderOutbox.rows[id].payload in s.creation.store.outbox && s.orderOutbox.rows[id].payload.eventId == id) &&
    PricedAreNew(s.creation)
  }

  // A submission carries its order's snapshot, taken from the order's event.
  predicate SubmissionLinked(store: O.State, t: L.Table<Envelope<OrderCreated>>, d: P.Delivery) {
    d.orderId in store.orders && d.payload == Snapshot(store.orders[d.orderId]) &&
    d.sourceEventId in t.rows && t.rows[d.sourceEventId].payload.payload == d.payload &&
    t.rows[d.sourceEventId].payload.correlationId == d.correlationId
  }

  ghost predicate SubmissionsOk(s: System) {
    forall id :: id in s.partner.submissions.rows ==>
      SubmissionLinked(s.creation.store, s.orderOutbox, s.partner.submissions.rows[id].payload)
  }

  predicate HasDecision(p: P.State, orderId: string, status: Status) {
    orderId in p.index && p.index[orderId] in p.submissions.rows && p.submissions.rows[p.index[orderId]].status == L.Decided(status)
  }

  // An order is as it was created, or holds the decision its submission holds.
  predicate OrderAgrees(p: P.State, o: Order) {
    (o.status == Pending && o.version == 1) || (R.IsDecision(o.status) && o.version == 2 && HasDecision(p, o.id, o.status))
  }

  // A partner event that was applied is one that was written, and its order holds its decision.
  predicate InboxAgrees(store: O.State, p: P.State, eventId: string, row: O.InboxRow) {
    eventId in p.outbox.rows && p.outbox.rows[eventId].payload.payload == row.fingerprint &&
    row.orderId == row.fingerprint.orderId && row.orderId in store.orders &&
    store.orders[row.orderId].status == row.fingerprint.status
  }

  ghost predicate OrdersOk(s: System) {
    var store := s.creation.store;
    (forall id :: id in store.orders ==> OrderAgrees(s.partner, store.orders[id])) &&
    (forall e :: e in store.inbox ==> InboxAgrees(store, s.partner, e, store.inbox[e]))
  }

  predicate CallbackRecorded(p: P.State, cb: Callback) {
    cb.callbackId in p.callbacks && p.callbacks[cb.callbackId].fingerprint == CallbackPayload(cb)
  }

  // The restaurant's order is what a submission delivered.
  predicate StoredLinked(p: P.State, id: string, o: R.Stored) {
    o.submissionId in p.submissions.rows &&
    var d := p.submissions.rows[o.submissionId].payload;
    d.orderId == id && d.payload == o.fingerprint && d.externalStoreId == o.externalStoreId
  }

  ghost predicate RestaurantOk(s: System) {
    (forall id :: id in s.restaurant.orders ==> StoredLinked(s.partner, id, s.restaurant.orders[id])) &&
    (forall id :: id in s.restaurant.orders && s.restaurant.orders[id].acknowledged ==>
       CallbackRecorded(s.partner, R.CallbackFor(s.restaurant.orders[id]))) &&
    (forall r :: r in s.restaurant.sending && r in s.answered ==> CallbackRecorded(s.partner, s.restaurant.sending[r].callback))
  }

  ghost predicate PartsOk(c: Config, s: System) {
    C.Inv(s.creation) && L.Inv(c.orderRelay, s.orderOutbox) && P.Inv(c.partner, s.partner) && R.Inv(s.restaurant)
  }

  ghost predicate Linked(s: System) {
    EventsOk(s) && SubmissionsOk(s) && OrdersOk(s) && RestaurantOk(s)
  }

  ghost predicate Inv(c: Config, s: System) {
    PartsOk(c, s) && Linked(s)
  }

  // ----- partner-service moving on -----

  // Whatever partner-service does, it leaves the links of the others in place.
  lemma PartnerMoves(s: System, s': System)
    requires OrdersOk(s) && RestaurantOk(s) && P.Grows(s.partner, s'.partner)
    requires s'.creation == s.creation && s'.restaurant == s.restaurant
    requires forall r :: r in s'.answered && r in s.restaurant.sending ==>
      r in s.answered || CallbackRecorded(s'.partner, s.restaurant.sending[r].callback)
    ensures OrdersOk(s') && RestaurantOk(s')
  {
    var store := s.creation.store;
    forall id | id in store.orders ensures OrderAgrees(s'.partner, store.orders[id]) {
      assert OrderAgrees(s.partner, store.orders[id]);
      DecisionStays(s.partner, s'.partner, store.orders[id].id, store.orders[id].status);
    }
    forall e | e in store.inbox ensures InboxAgrees(store, s'.partner, e, store.inbox[e]) {
      assert InboxAgrees(store, s.partner, e, store.inbox[e]);
    }
    forall id | id in s.restaurant.orders ensures StoredLinked(s'.partner, id, s.restaurant.orders[id]) {
      assert StoredLinked(s.partner, id, s.restaurant.orders[id]);
      assert P.RowLasts(s.partner, s'.partner, s.restaurant.orders[id].submissionId);
    }
  }

  lemma DecisionStays(p: P.State, p': P.State, orderId: string, status: Status)
    requires P.Grows(p, p')
    ensures HasDecision(p, orderId, status) ==> HasDecision(p', orderId, status)
  {
    if HasDecision(p, orderId, status) { assert P.RowLasts(p, p', p.index[orderId]); }
  }

  // Steps that add no submission.
  lemma SubmissionsStay(s: System, s': System)
    requires SubmissionsOk(s) && P.Grows(s.partner, s'.partner)
    requires s'.partner.submissions.rows.Keys == s.partner.submissions.rows.Keys
    requires s'.creation == s.creation && s'.orderOutbox == s.orderOutbox
    ensures SubmissionsOk(s')
  {
    forall id | id in s'.partner.submissions.rows
      ensures SubmissionLinked(s'.creation.store, s'.orderOutbox, s'.partner.submissions.rows[id].payload)
    {
      assert P.RowLasts(s.partner, s'.partner, id);
    }
  }

  // Moving on without a new submission.
  ghost predicate Moved(p: P.State, p': P.State) {
    P.Grows(p, p') && p'.submissions.rows.Keys == p.submissions.rows.Keys
  }

  lemma MovedKeepsLinks(s: System, p: P.State, answered: set<string>)
    requires Linked(s) && Moved(s.partner, p)
    requires forall r :: r in answered && r in s.restaurant.sending ==>
      r in s.answered || CallbackRecorded(p, s.restaurant.sending[r].callback)
    ensures Linked(s.(partner := p, answered := answered))
  {
    PartnerMoves(s, s.(partner := p, answered := answered));
    SubmissionsStay(s, s.(partner := p, answered := answered));
  }

  lemma CallMoves(c: P.Config, p: P.State, cb: Callback, digest: string, eventId: string, requestId: string, now: int)
    ensures Moved(p, P.ReceiveCallback(c, p, cb, digest, eventId, requestId, now).0)
    ensures P.ReceiveCallback(c, p, cb, digest, eventId, requestId, now).1.Success? ==>
      CallbackRecorded(P.ReceiveCallback(c, p, cb, digest, eventId, requestId, now).0, cb)
  {
    var (p', answer) := P.ReceiveCallback(c, p, cb, digest, eventId, requestId, now);
    P.CallGrows(c, p, cb, digest, eventId, requestId, now);
    P.CallbackRecords(c, p, cb, digest, eventId, requestId, now);
    if answer.Success? { P.CallbackIsKept(c, p, cb, digest, eventId, requestId, now); }
  }

  lemma CallKeepsLinks(c: Config, s: System, cb: Callback, digest: string, eventId: string, requestId: string, now: int)
    requires Linked(s)
    ensures Linked(Next(c, s, Call(cb, digest, eventId, requestId, now)))
  {
    CallMoves(c.partner, s.partner, cb, digest, eventId, requestId, now);
    MovedKeepsLinks(s, P.ReceiveCallback(c.partner, s.partner, cb, digest, eventId, requestId, now).0, s.answered);
  }

  lemma ArriveKeepsLinks(c: Config, s: System, request: string, digest: string, eventId: string, requestId: string, now: int)
    requires Linked(s)
    ensures Linked(Next(c, s, Arrive(request, digest, eventId, requestId, now)))
  {
    if request in s.restaurant.sending {
      var cb := s.restaurant.sending[request].callback;
      var (p, answer) := P.ReceiveCallback(c.partner, s.partner, cb, digest, eventId, requestId, now);
      CallMoves(c.partner, s.partner, cb, digest, eventId, requestId, now);
      MovedKeepsLinks(s, p, if answer.Success? then s.answered + {request} else s.answered);
    }
  }

  // Relay, dispatcher and integration steps.
  lemma WorkersMove(c: P.Config, p: P.State, step: P.Step)
    requires step.Relay? || step.Integrate? || step.Dispatch?
    ensures Moved(p, P.Next(c, p, step))
  {
    P.NextGrows(c, p, step);
    if step.Dispatch? && L.WorkerStep(step.dispatch) { L.WorkerStepRows(c.dispatch, p.submissions, step.dispatch); }
  }

  // An event on the order topic is its row's event.
  lemma LoggedEvent(s: System, index: nat)
    requires EventsOk(s) && L.LogOk(s.orderOutbox) && O.StoreOk(s.creation.store) && index < |s.orderOutbox.log|
    ensures var e := s.orderOutbox.log[index].payload;
      EventLinked(s.creation.store, s.orderOutbox, e) && e.aggregateId == s.creation.store.orders[e.aggregateId].id
  {
    var id := s.orderOutbox.log[index].id;
    assert s.orderOutbox.log[index].payload == s.orderOutbox.rows[id].payload;
    var e := s.orderOutbox.rows[id].payload;
    var i :| 0 <= i < |s.creation.store.outbox| && s.creation.store.outbox[i] == e;
    assert EventLinked(s.creation.store, s.orderOutbox, s.creation.store.outbox[i]);
  }

  lemma EventReads(topic: string, e: Envelope<OrderCreated>, o: Order)
    requires EventOf(e, o)
    ensures ReadOrderCreated(Received(RowMessage(topic, e))) ==
      if o.total > 0 then Some(OrderReceipt(e.eventId, e.correlationId, e.payload)) else None
  {
    T.DecimalRoundTrip(1);
  }

  // ----- orders reaching partner-service -----

  lemma FiledLinks(s: System, p: P.State, submissionId: string, d: P.Delivery)
    requires SubmissionsOk(s) && P.Filed(s.partner, p, submissionId, d)
    requires SubmissionLinked(s.creation.store, s.orderOutbox, d)
    ensures SubmissionsOk(s.(partner := p))
  {
    forall id | id in p.submissions.rows
      ensures SubmissionLinked(s.creation.store, s.orderOutbox, p.submissions.rows[id].payload)
    {
      if id != submissionId {
        assert SubmissionLinked(s.creation.store, s.orderOutbox, s.partner.submissions.rows[id].payload);
      }
    }
  }

  // The receipt read from a record is its order's snapshot.
  lemma ReceiptLinked(c: Config, s: System, index: nat, i: P.Integration)
    requires EventsOk(s) && L.LogOk(s.orderOutbox) && O.StoreOk(s.creation.store)
    requires index < |s.orderOutbox.log| && ReadOrderCreated(OrderRecord(c, s, index)).Some?
    ensures var r := ReadOrderCreated(OrderRecord(c, s, index)).value;
      SubmissionLinked(s.creation.store, s.orderOutbox, P.DeliveryFor(i, r.eventId, r.correlationId, r.payload))
  {
    var e := s.orderOutbox.log[index].payload;
    LoggedEvent(s, index);
    EventReads(c.orderTopic, e, s.creation.store.orders[e.aggregateId]);
  }

  lemma ReceiveKeepsLinks(c: Config, s: System, submissionId: string, r: OrderReceipt)
    requires Linked(s)
    requires forall i :: SubmissionLinked(s.creation.store, s.orderOutbox, P.DeliveryFor(i, r.eventId, r.correlationId, r.payload))
    ensures Linked(s.(partner := P.ReceiveOrder(c.partner, s.partner, submissionId, r).0))
  {
    var (p, answer) := P.ReceiveOrder(c.partner, s.partner, submissionId, r);
    P.ReceiveGrows(c.partner, s.partner, submissionId, r);
    P.ReceiveFiles(c.partner, s.partner, submissionId, r);
    PartnerMoves(s, s.(partner := p));
    if answer == Success(P.Receipt(false)) {
      var i := s.partner.integrations[r.payload.restaurantId];
      FiledLinks(s, p, submissionId, P.DeliveryFor(i, r.eventId, r.correlationId, r.payload));
    }
  }

  lemma HandleOrderKeepsLinks(c: Config, s: System, index: nat, submissionId: string)
    requires Linked(s) && L.LogOk(s.orderOutbox) && O.StoreOk(s.creation.store)
    ensures Linked(Next(c, s, HandleOrder(index, submissionId)))
  {
    if index < |s.orderOutbox.log| && ReadOrderCreated(OrderRecord(c, s, index)).Some? {
      var r := ReadOrderCreated(OrderRecord(c, s, index)).value;
      forall i ensures SubmissionLinked(s.creation.store, s.orderOutbox, P.DeliveryFor(i, r.eventId, r.correlationId, r.payload)) {
        ReceiptLinked(c, s, index, i);
      }
      ReceiveKeepsLinks(c, s, submissionId, r);
    }
  }

  // ----- the dispatcher and the restaurant -----

  lemma DeliverLinks(s: System, r: R.State, id: string, d: P.Delivery)
    requires RestaurantOk(s) && id in s.partner.submissions.rows && s.partner.submissions.rows[id].payload == d
    requires d.payload.orderId == d.orderId && r == R.Deliver(s.restaurant, d.orderId, d.externalStoreId, id, d.payload).0
    ensures RestaurantOk(s.(restaurant := r))
  {
    forall k | k in r.orders ensures StoredLinked(s.partner, k, r.orders[k]) {
      if k in s.restaurant.orders { assert StoredLinked(s.partner, k, s.restaurant.orders[k]); }
    }
  }

  // A ticket in a dispatcher's hands is a submission.
  lemma TicketIsSubmission(c: P.Config, p: P.State, worker: string)
    requires P.Inv(c, p) && worker in p.submissions.workers && p.submissions.workers[worker].queue != []
    ensures var k := p.submissions.workers[worker].queue[0];
      k.id in p.submissions.rows && p.submissions.rows[k.id].payload == k.payload &&
      k.payload.payload.orderId == k.payload.orderId
  {
    var k := p.submissions.workers[worker].queue[0];
    assert L.WorkerOk(p.submissions, worker, p.submissions.workers[worker]);
    assert L.TicketAt(p.submissions, worker, k, p.submissions.workers[worker].sent.None?);
    assert P.DeliveryOk(p, p.submissions.rows[k.id].payload);
  }

  lemma DeliveredKeepsLinks(c: P.Config, s: System, d: L.Step<P.Delivery>)
    requires RestaurantOk(s) && P.Inv(c, s.partner)
    ensures RestaurantOk(s.(restaurant := Delivered(s, d)))
  {
    if Delivered(s, d) != s.restaurant {
      TicketIsSubmission(c, s.partner, d.worker);
      var k := s.partner.submissions.workers[d.worker].queue[0];
      DeliverLinks(s, Delivered(s, d), k.id, k.payload);
    }
  }

  lemma DeliveredThenMoved(s: System, r: R.State, p: P.State)
    requires Linked(s) && RestaurantOk(s.(restaurant := r)) && Moved(s.partner, p)
    ensures Linked(s.(restaurant := r, partner := p))
  {
    MovedKeepsLinks(s.(restaurant := r), p, s.answered);
  }

  lemma DispatchKeepsLinks(c: Config, s: System, d: L.Step<P.Delivery>)
    requires Linked(s) && P.Inv(c.partner, s.partner)
    ensures Linked(Next(c, s, Dispatch(d)))
  {
    DeliveredKeepsLinks(c.partner, s, d);
    WorkersMove(c.partner, s.partner, P.Dispatch(d));
    DeliveredThenMoved(s, Delivered(s, d), P.Next(c.partner, s.partner, P.Dispatch(d)));
  }

  // What a request in the restaurant leaves of the links.
  ghost predicate RestaurantMoved(s: System, r: R.State, answered: set<string>) {
    r.orders.Keys == s.restaurant.orders.Keys &&
    (forall id :: id in r.orders ==>
       R.Lasts(s.restaurant.orders[id], r.orders[id]) &&
       (r.orders[id].acknowledged ==>
          (s.restaurant.orders[id].acknowledged && s.restaurant.orders[id].order.status != Pending) ||
          CallbackRecorded(s.partner, R.CallbackFor(r.orders[id])))) &&
    (forall q :: q in r.sending && q in answered ==>
       q in s.restaurant.sending && r.sending[q] == s.restaurant.sending[q] && q in s.answered)
  }

  lemma RestaurantMovedKeepsLinks(s: System, r: R.State, answered: set<string>)
    requires Linked(s) && RestaurantMoved(s, r, answered)
    ensures Linked(s.(restaurant := r, answered := answered))
  {
    var s' := s.(restaurant := r, answered := answered);
    forall id | id in r.orders ensures StoredLinked(s'.partner, id, r.orders[id]) {
      assert StoredLinked(s.partner, id, s.restaurant.orders[id]) && R.Lasts(s.restaurant.orders[id], r.orders[id]);
    }
    forall id | id in r.orders && r.orders[id].acknowledged ensures CallbackRecorded(s'.partner, R.CallbackFor(r.orders[id])) {
      assert R.Lasts(s.restaurant.orders[id], r.orders[id]);
    }
  }

  lemma OrdersLast(connected: bool, r: R.State, request: string, orderId: string, status: Status, newId: string, now: int)
    requires R.Inv(r)
    ensures var r' := R.BeginChange(connected, r, request, orderId, status, newId, now).0;
      r'.orders.Keys == r.orders.Keys && forall id :: id in r'.orders ==> R.Lasts(r.orders[id], r'.orders[id])
  {
    var r' := R.BeginChange(connected, r, request, orderId, status, newId, now).0;
    R.BeginShape(connected, r, request, orderId, status, newId, now);
    assert r'.orders.Keys == r.orders.Keys;
    forall id | id in r'.orders ensures R.Lasts(r.orders[id], r'.orders[id]) {
      R.BeginLasts(connected, r, request, orderId, status, newId, now, id);
    }
  }

  lemma DecideMoves(c: Config, s: System, request: string, orderId: string, status: Status, newId: string, now: int)
    requires R.Inv(s.restaurant) && request !in s.restaurant.sending
    ensures RestaurantMoved(s, R.BeginChange(c.connected, s.restaurant, request, orderId, status, newId, now).0, s.answered - {request})
  {
    var r := R.BeginChange(c.connected, s.restaurant, request, orderId, status, newId, now).0;
    OrdersLast(c.connected, s.restaurant, request, orderId, status, newId, now);
    R.BeginShape(c.connected, s.restaurant, request, orderId, status, newId, now);
    forall id | id in r.orders && r.orders[id].acknowledged
      ensures s.restaurant.orders[id].acknowledged && s.restaurant.orders[id].order.status != Pending
    {
      assert R.StoredOk(id, s.restaurant.orders[id]);
    }
  }

  lemma ConcludeMoves(c: Config, s: System, request: string, ok: bool)
    requires R.Inv(s.restaurant) && RestaurantOk(s) && request in s.restaurant.sending && (ok ==> request in s.answered)
    ensures RestaurantMoved(s, R.FinishChange(s.restaurant, request, ok).0, s.answered)
  {
    var r := R.FinishChange(s.restaurant, request, ok).0;
    var k := s.restaurant.sending[request];
    assert R.SendingOk(s.restaurant, k);
    assert r.orders.Keys == s.restaurant.orders.Keys;
    forall id | id in r.orders ensures R.StoredOk(id, s.restaurant.orders[id]) && R.Lasts(s.restaurant.orders[id], r.orders[id]) {
      R.FinishLasts(s.restaurant, request, ok, id);
    }
  }

  // ----- orders being created -----

  // What saving a priced request writes.
  ghost predicate Saved(store: O.State, store': O.State, r: O.CreateRecord) {
    r.order.id !in store.orders && r.order.id == r.event.aggregateId &&
    (forall i :: 0 <= i < |store.outbox| ==> store.outbox[i].eventId != r.event.eventId) &&
    store'.orders == store.orders[r.order.id := r.order] && store'.outbox == store.outbox + [r.event] && store'.inbox == store.inbox
  }

  lemma SaveShape(s: C.System, request: string)
    requires C.RequestsOk(s) && request in s.requests && s.requests[request].phase.Priced?
    ensures var s' := C.Next(s, C.Save(request));
      (s'.store == s.store || Saved(s.store, s'.store, s.requests[request].phase.record)) &&
      (forall r :: r in s'.requests && s'.requests[r].phase.Priced? ==> r in s.requests && s'.requests[r] == s.requests[r])
  {
    assert C.RequestOk(s, s.requests[request]);
  }

  lemma PricedIsNew(input: C.Input, fingerprint: string, catalog: Option<seq<NewItem>>, orderId: string, eventId: string, now: int)
    ensures var r := C.Price(input, fingerprint, catalog, orderId, eventId, now); r.Success? ==> NewRecord(r.value)
  {
    var priced := C.Price(input, fingerprint, catalog, orderId, eventId, now);
    if priced.Success? {
      var order := NewOrderInput(orderId, input.command.userId, input.command.restaurantId, catalog.value);
      OrderEventReads(ORDER_CREATED, order, eventId, input.requestId, input.key, now);
    }
  }

  lemma AskShape(s: C.System, request: string, catalog: Option<seq<NewItem>>, orderId: string, eventId: string, now: int)
    requires PricedAreNew(s)
    ensures PricedAreNew(C.Next(s, C.AskCatalog(request, catalog, orderId, eventId, now)))
  {
    if request in s.requests {
      PricedIsNew(s.requests[request].input, s.requests[request].fingerprint, catalog, orderId, eventId, now);
    }
  }

  lemma BeginShape(s: C.System, request: string, input: C.Input)
    requires PricedAreNew(s)
    ensures PricedAreNew(C.Next(s, C.Begin(request, input)))
  {
    C.BeginShape(s.store, input);
  }

  // The other steps of a request.
  lemma RequestShape(s: C.System, k: C.Step)
    requires !k.Save? && !k.PartnerApplies? && PricedAreNew(s)
    ensures C.Next(s, k).store == s.store && PricedAreNew(C.Next(s, k))
  {
    match k
    case AskCatalog(request, catalog, orderId, eventId, now) => AskShape(s, request, catalog, orderId, eventId, now);
    case Begin(request, input) => BeginShape(s, request, input);
    case _ =>
  }

  lemma SavedEvents(c: Config, s: System, creation: C.System, r: O.CreateRecord)
    requires EventsOk(s) && NewRecord(r) && Saved(s.creation.store, creation.store, r)
    requires PricedAreNew(creation)
    ensures EventsOk(s.(creation := creation, orderOutbox := Inserted(c, s.orderOutbox, s.creation.store, creation.store)))
    ensures r.event.eventId !in s.orderOutbox.rows
  {
    var s' := s.(creation := creation, orderOutbox := Inserted(c, s.orderOutbox, s.creation.store, creation.store));
    var before, after := s.creation.store, creation.store;
    assert r.event.eventId !in s.orderOutbox.rows;
    forall i | 0 <= i < |after.outbox| ensures EventLinked(after, s'.orderOutbox, after.outbox[i]) {
      if i < |before.outbox| { assert EventLinked(before, s.orderOutbox, before.outbox[i]); }
    }
    forall id | id in s'.orderOutbox.rows ensures s'.orderOutbox.rows[id].payload in after.outbox {
      if id == r.event.eventId { assert after.outbox[|before.outbox|] == r.event; }
    }
  }

  lemma SavedKeepsLinks(c: Config, s: System, creation: C.System, r: O.CreateRecord)
    requires Linked(s) && NewRecord(r) && Saved(s.creation.store, creation.store, r)
    requires PricedAreNew(creation)
    ensures Linked(s.(creation := creation, orderOutbox := Inserted(c, s.orderOutbox, s.creation.store, creation.store)))
  {
    var s' := s.(creation := creation, orderOutbox := Inserted(c, s.orderOutbox, s.creation.store, creation.store));
    SavedEvents(c, s, creation, r);
    forall id | id in s'.partner.submissions.rows
      ensures SubmissionLinked(creation.store, s'.orderOutbox, s'.partner.submissions.rows[id].payload)
    {
      assert SubmissionLinked(s.creation.store, s.orderOutbox, s.partner.submissions.rows[id].payload);
    }
    forall e | e in creation.store.inbox ensures InboxAgrees(creation.store, s.partner, e, creation.store.inbox[e]) {
      assert InboxAgrees(s.creation.store, s.partner, e, s.creation.store.inbox[e]);
    }
    forall id | id in creation.store.orders ensures OrderAgrees(s.partner, creation.store.orders[id]) {
      if id != r.order.id { assert OrderAgrees(s.partner, s.creation.store.orders[id]); }
    }
  }

  lemma SameStoreKeepsLinks(s: System, creation: C.System)
    requires Linked(s) && creation.store == s.creation.store
    requires PricedAreNew(creation)
    ensures Linked(s.(creation := creation))
  {
  }

  lemma CreateKeepsLinks(c: Config, s: System, k: C.Step)
    requires Linked(s) && C.RequestsOk(s.creation)
    ensures Linked(Next(c, s, Create(k)))
  {
    var creation := C.Next(s.creation, k);
    if k.Save? && k.request in s.creation.requests && s.creation.requests[k.request].phase.Priced? {
      SaveShape(s.creation, k.request);
      if creation.store == s.creation.store { SameStoreKeepsLinks(s, creation); }
      else { SavedKeepsLinks(c, s, creation, s.creation.requests[k.request].phase.record); }
    } else if !k.Save? && !k.PartnerApplies? {
      RequestShape(s.creation, k);
      SameStoreKeepsLinks(s, creation);
    }
  }

  // ----- decisions reaching order-service -----

  ghost predicate EventsDecide(p: P.State) {
    forall e :: e in p.outbox.rows ==>
      var d := p.outbox.rows[e].payload.payload; R.IsDecision(d.status) && HasDecision(p, d.orderId, d.status)
  }

  lemma EventIsDecision(p: P.State, id: string, e: Envelope<StatusChanged>)
    requires P.EventOk(p, id, e)
    ensures R.IsDecision(e.payload.status)
  {
  }

  lemma PartnerEventsDecide(c: P.Config, p: P.State)
    requires P.Inv(c, p)
    ensures EventsDecide(p)
  {
    forall e | e in p.outbox.rows
      ensures var d := p.outbox.rows[e].payload.payload; R.IsDecision(d.status) && HasDecision(p, d.orderId, d.status)
    {
      P.EventDecides(c, p, e);
      EventIsDecision(p, e, p.outbox.rows[e].payload);
    }
  }

  // A record on the partner topic asks for the decision its order's submission holds.
  ghost predicate Asks(s: System, e: PartnerEvent) {
    e.eventId in s.partner.outbox.rows && s.partner.outbox.rows[e.eventId].payload.payload == e.fingerprint &&
    e.orderId == e.fingerprint.orderId && e.newStatus == e.fingerprint.status && R.IsDecision(e.newStatus) &&
    e.orderId in s.creation.store.orders && s.creation.store.orders[e.orderId].id == e.orderId &&
    HasDecision(s.partner, e.orderId, e.newStatus)
  }

  lemma DecidedOrderExists(s: System, orderId: string, status: Status)
    requires SubmissionsOk(s) && P.IndexOk(s.partner) && HasDecision(s.partner, orderId, status)
    ensures orderId in s.creation.store.orders
  {
    assert SubmissionLinked(s.creation.store, s.orderOutbox, s.partner.submissions.rows[s.partner.index[orderId]].payload);
  }

  lemma LoggedStatus(c: Config, s: System, index: nat)
    requires P.Inv(c.partner, s.partner) && SubmissionsOk(s) && O.StoreOk(s.creation.store) && index < |s.partner.outbox.log|
    ensures ReadStatusChanged(StatusRecord(c, s, index)).Some? && Asks(s, ReadStatusChanged(StatusRecord(c, s, index)).value)
  {
    var id := s.partner.outbox.log[index].id;
    assert s.partner.outbox.log[index].payload == s.partner.outbox.rows[id].payload;
    var e := s.partner.outbox.rows[id].payload;
    assert P.EventOk(s.partner, id, e);
    CallbackEventReads(c.partnerTopic, P.CallbackOf(e.payload), id, e.correlationId, e.occurredAt);
    PartnerEventsDecide(c.partner, s.partner);
    DecidedOrderExists(s, e.payload.orderId, e.payload.status);
  }

  // Applying such an event: nothing new, or the decision its order did not have yet.
  ghost predicate Took(store: O.State, store': O.State, e: PartnerEvent) {
    e.orderId in store.orders &&
    var o := store.orders[e.orderId];
    store'.orders == store.orders[e.orderId :=
      if o.status == Pending then o.(status := e.newStatus, version := o.version + 1) else o] &&
    store'.inbox == store.inbox[e.eventId := O.InboxRow(e.fingerprint, e.orderId)] && store'.outbox == store.outbox
  }

  ghost predicate Takes(s: System, store: O.State, e: PartnerEvent) {
    (store == s.creation.store || Took(s.creation.store, store, e)) && e.orderId in s.creation.store.orders &&
    (s.creation.store.orders[e.orderId].status == Pending || s.creation.store.orders[e.orderId].status == e.newStatus)
  }

  lemma AskIsApplied(s: System, e: PartnerEvent)
    requires OrdersOk(s) && Asks(s, e)
    ensures O.Apply(s.creation.store, e).1.Success? && Takes(s, O.Apply(s.creation.store, e).0, e)
  {
    assert OrderAgrees(s.partner, s.creation.store.orders[e.orderId]);
    if e.eventId in s.creation.store.inbox {
      assert InboxAgrees(s.creation.store, s.partner, e.eventId, s.creation.store.inbox[e.eventId]);
    }
  }

  lemma TookKeepsOrders(s: System, s': System, e: PartnerEvent)
    requires OrdersOk(s) && Asks(s, e) && EventsDecide(s.partner) && Took(s.creation.store, s'.creation.store, e)
    requires s'.partner == s.partner
    requires s.creation.store.orders[e.orderId].status == Pending || s.creation.store.orders[e.orderId].status == e.newStatus
    ensures OrdersOk(s')
  {
    var store, store' := s.creation.store, s'.creation.store;
    forall id | id in store'.orders ensures OrderAgrees(s.partner, store'.orders[id]) {
      assert OrderAgrees(s.partner, store.orders[id]);
    }
    forall k | k in store'.inbox ensures InboxAgrees(store', s.partner, k, store'.inbox[k]) {
      if k != e.eventId { assert InboxAgrees(store, s.partner, k, store.inbox[k]); }
    }
  }

  lemma TookKeepsSnapshots(s: System, s': System, e: PartnerEvent)
    requires EventsOk(s) && SubmissionsOk(s) && Took(s.creation.store, s'.creation.store, e)
    requires s'.partner == s.partner && s'.orderOutbox == s.orderOutbox && s'.creation.requests == s.creation.requests
    ensures EventsOk(s') && SubmissionsOk(s')
  {
    var store, store' := s.creation.store, s'.creation.store;
    forall i | 0 <= i < |store'.outbox| ensures EventLinked(store', s.orderOutbox, store'.outbox[i]) {
      assert EventLinked(store, s.orderOutbox, store.outbox[i]);
    }
    forall id | id in s.partner.submissions.rows
      ensures SubmissionLinked(store', s.orderOutbox, s.partner.submissions.rows[id].payload)
    {
      assert SubmissionLinked(store, s.orderOutbox, s.partner.submissions.rows[id].payload);
    }
  }

  lemma TookKeepsLinks(s: System, creation: C.System, e: PartnerEvent)
    requires Linked(s) && EventsDecide(s.partner) && Asks(s, e) && Took(s.creation.store, creation.store, e)
    requires creation.requests == s.creation.requests
    requires s.creation.store.orders[e.orderId].status == Pending || s.creation.store.orders[e.orderId].status == e.newStatus
    ensures Linked(s.(creation := creation))
  {
    TookKeepsOrders(s, s.(creation := creation), e);
    TookKeepsSnapshots(s, s.(creation := creation), e);
  }

  lemma ApplyKeepsLinks(s: System, store: O.State, e: PartnerEvent)
    requires Linked(s) && EventsDecide(s.partner) && Asks(s, e) && Takes(s, store, e)
    ensures Linked(s.(creation := s.creation.(store := store)))
  {
    if store == s.creation.store {
      assert s.(creation := s.creation.(store := store)) == s;
    } else {
      TookKeepsLinks(s, s.creation.(store := store), e);
    }
  }

  // A record that is read, and applied without an error.
  ghost predicate Applicable(s: System, read: Option<PartnerEvent>) {
    read.Some? && Asks(s, read.value) && O.Apply(s.creation.store, read.value).1.Success? &&
    Takes(s, O.Apply(s.creation.store, read.value).0, read.value)
  }

  lemma LoggedIsApplicable(c: Config, s: System, index: nat)
    requires SubmissionsOk(s) && OrdersOk(s) && P.Inv(c.partner, s.partner) && O.StoreOk(s.creation.store)
    requires index < |s.partner.outbox.log|
    ensures EventsDecide(s.partner) && Applicable(s, ReadStatusChanged(StatusRecord(c, s, index)))
  {
    LoggedStatus(c, s, index);
    PartnerEventsDecide(c.partner, s.partner);
    AskIsApplied(s, ReadStatusChanged(StatusRecord(c, s, index)).value);
  }

  lemma StatusRead(c: Config, s: System, index: nat) returns (read: Option<PartnerEvent>)
    requires SubmissionsOk(s) && OrdersOk(s) && P.Inv(c.partner, s.partner) && O.StoreOk(s.creation.store)
    requires index < |s.partner.outbox.log|
    ensures EventsDecide(s.partner) && Applicable(s, read) && HandledStatus(c, s, index) == Taken(s, read)
  {
    LoggedIsApplicable(c, s, index);
    read := HandleIsTaken(c, s, index);
  }

  lemma HandleIsTaken(c: Config, s: System, index: nat) returns (read: Option<PartnerEvent>)
    requires index < |s.partner.outbox.log|
    ensures read == ReadStatusChanged(StatusRecord(c, s, index)) && HandledStatus(c, s, index) == Taken(s, read)
  {
    read := ReadStatusChanged(StatusRecord(c, s, index));
  }

  lemma TakenTakes(s: System, read: Option<PartnerEvent>)
    requires Applicable(s, read)
    ensures Asks(s, read.value) && Takes(s, Taken(s, read).creation.store, read.value)
    ensures Taken(s, read) == s.(creation := s.creation.(store := Taken(s, read).creation.store))
  {
  }

  // ----- all of it -----

  lemma RelayKeepsLinks(c: Config, s: System, w: L.Step<Envelope<OrderCreated>>)
    requires Linked(s)
    ensures Linked(Next(c, s, RelayOrders(w)))
  {
    if L.WorkerStep(w) {
      var s' := Next(c, s, RelayOrders(w));
      L.WorkerStepRows(c.orderRelay, s.orderOutbox, w);
      forall i | 0 <= i < |s.creation.store.outbox|
        ensures EventLinked(s.creation.store, s'.orderOutbox, s.creation.store.outbox[i])
      {
        assert EventLinked(s.creation.store, s.orderOutbox, s.creation.store.outbox[i]);
      }
      forall id | id in s.partner.submissions.rows
        ensures SubmissionLinked(s.creation.store, s'.orderOutbox, s.partner.submissions.rows[id].payload)
      {
        assert SubmissionLinked(s.creation.store, s.orderOutbox, s.partner.submissions.rows[id].payload);
      }
    }
  }

  lemma DecideKeepsLinks(c: Config, s: System, request: string, orderId: string, status: Status, newId: string, now: int)
    requires Linked(s) && request !in s.restaurant.sending
    requires RestaurantMoved(s, R.BeginChange(c.connected, s.restaurant, request, orderId, status, newId, now).0, s.answered - {request})
    ensures Linked(Next(c, s, Decide(request, orderId, status, newId, now)))
  {
    RestaurantMovedKeepsLinks(s, R.BeginChange(c.connected, s.restaurant, request, orderId, status, newId, now).0, s.answered - {request});
  }

  lemma ConcludeKeepsLinks(c: Config, s: System, request: string, ok: bool)
    requires Linked(s) && request in s.restaurant.sending && (ok ==> request in s.answered)
    requires RestaurantMoved(s, R.FinishChange(s.restaurant, request, ok).0, s.answered)
    ensures Linked(Next(c, s, Conclude(request, ok)))
  {
    RestaurantMovedKeepsLinks(s, R.FinishChange(s.restaurant, request, ok).0, s.answered);
  }

  lemma WorkersKeepLinks(c: Config, s: System, step: P.Step)
    requires Linked(s) && (step.Relay? || step.Integrate?)
    ensures Linked(s.(partner := P.Next(c.partner, s.partner, step)))
  {
    WorkersMove(c.partner, s.partner, step);
    MovedKeepsLinks(s, P.Next(c.partner, s.partner, step), s.answered);
  }

  lemma TakenKeepsLinks(s: System, read: Option<PartnerEvent>)
    requires Linked(s) && EventsDecide(s.partner) && Applicable(s, read)
    ensures Linked(Taken(s, read))
  {
    TakenTakes(s, read);
    ApplyKeepsLinks(s, Taken(s, read).creation.store, read.value);
  }

  lemma OrderStepsKeepLinks(c: Config, s: System, step: Step)
    requires PartsOk(c, s) && Linked(s) && (step.Create? || step.RelayOrders? || step.HandleStatus?)
    ensures Linked(Next(c, s, step))
  {
    match step
    case Create(k) => CreateKeepsLinks(c, s, k);
    case RelayOrders(w) => RelayKeepsLinks(c, s, w);
    case HandleStatus(index) => HandleStatusKeepsLinks(c, s, index);
    case _ =>
  }

  lemma HandleStatusKeepsLinks(c: Config, s: System, index: nat)
    requires P.Inv(c.partner, s.partner) && O.StoreOk(s.creation.store) && Linked(s)
    ensures Linked(HandledStatus(c, s, index))
  {
    if index < |s.partner.outbox.log| {
      var read := StatusRead(c, s, index);
      TakenKeepsLinks(s, read);
    }
  }

  lemma RestaurantStepsKeepLinks(c: Config, s: System, step: Step)
    requires R.Inv(s.restaurant) && Linked(s) && (step.Decide? || step.Conclude? || step.Restart?)
    ensures Linked(Next(c, s, step))
  {
    if step.Decide? && step.request !in s.restaurant.sending {
      DecideMoves(c, s, step.request, step.orderId, step.status, step.newId, step.now);
      DecideKeepsLinks(c, s, step.request, step.orderId, step.status, step.newId, step.now);
    } else if step.Conclude? && step.request in s.restaurant.sending && (step.ok ==> step.request in s.answered) {
      ConcludeMoves(c, s, step.request, step.ok);
      ConcludeKeepsLinks(c, s, step.request, step.ok);
    } else if step.Restart? {
      RestartKeepsLinks(s);
    }
  }

  lemma RestartKeepsLinks(s: System)
    requires Linked(s)
    ensures Linked(s.(restaurant := R.Empty(), answered := {}))
  {
  }

  lemma PartnerStepsKeepLinks(c: Config, s: System, step: Step)
    requires P.Inv(c.partner, s.partner) && L.LogOk(s.orderOutbox) && O.StoreOk(s.creation.store) && Linked(s)
    requires step.HandleOrder? || step.Dispatch? || step.Call? || step.Arrive? || step.Integrate? || step.RelayStatuses?
    ensures Linked(Next(c, s, step))
  {
    match step
    case HandleOrder(index, submissionId) => HandleOrderKeepsLinks(c, s, index, submissionId);
    case Dispatch(d) => DispatchKeepsLinks(c, s, d);
    case Call(callback, digest, eventId, requestId, now) => CallKeepsLinks(c, s, callback, digest, eventId, requestId, now);
    case Arrive(request, digest, eventId, requestId, now) => ArriveKeepsLinks(c, s, request, digest, eventId, requestId, now);
    case Integrate(restaurantId, integration) => WorkersKeepLinks(c, s, P.Integrate(restaurantId, integration));
    case RelayStatuses(w) => WorkersKeepLinks(c, s, P.Relay(w));
    case _ =>
  }

  lemma NextKeepsLinks(c: Config, s: System, step: Step)
    requires Inv(c, s)
    ensures Linked(Next(c, s, step))
  {
    if step.Create? || step.RelayOrders? || step.HandleStatus? {
      OrderStepsKeepLinks(c, s, step);
    } else if step.Decide? || step.Conclude? || step.Restart? {
      RestaurantStepsKeepLinks(c, s, step);
    } else {
      PartnerStepsKeepLinks(c, s, step);
    }
  }

  lemma InsertedKeepsInv(c: Config, t: L.Table<Envelope<OrderCreated>>, before: O.State, after: O.State)
    requires c.orderRelay.maxAttempts == None && L.Inv(c.orderRelay, t)
    ensures L.Inv(c.orderRelay, Inserted(c, t, before, after))
  {
    if |after.outbox| == |before.outbox| + 1 {
      L.NextKeepsInv(c.orderRelay, t, L.Insert(after.outbox[|before.outbox|].eventId, after.outbox[|before.outbox|]));
    }
  }

  // Each part keeps its own invariant.
  lemma OrderSideKeepsParts(c: Config, s: System, step: Step)
    requires c.orderRelay.maxAttempts == None && C.Inv(s.creation) && L.Inv(c.orderRelay, s.orderOutbox)
    ensures C.Inv(Next(c, s, step).creation) && L.Inv(c.orderRelay, Next(c, s, step).orderOutbox)
  {
    match step
    case Create(k) => CreateKeepsParts(c, s, k);
    case RelayOrders(w) => L.NextKeepsInv(c.orderRelay, s.orderOutbox, w);
    case HandleStatus(index) =>
      if index < |s.partner.outbox.log| {
        var read := HandleIsTaken(c, s, index);
        TakenKeepsCreation(s, read);
      }
    case _ =>
  }

  lemma CreateKeepsParts(c: Config, s: System, k: C.Step)
    requires c.orderRelay.maxAttempts == None && C.Inv(s.creation) && L.Inv(c.orderRelay, s.orderOutbox)
    ensures C.Inv(Next(c, s, Create(k)).creation) && L.Inv(c.orderRelay, Next(c, s, Create(k)).orderOutbox)
  {
    C.NextKeepsInv(s.creation, k);
    InsertedKeepsInv(c, s.orderOutbox, s.creation.store, C.Next(s.creation, k).store);
  }

  lemma TakenKeepsCreation(s: System, read: Option<PartnerEvent>)
    requires C.Inv(s.creation)
    ensures C.Inv(Taken(s, read).creation)
  {
    if read.Some? { C.NextKeepsInv(s.creation, C.PartnerApplies(read.value)); }
  }

  lemma HandleIsReceive(c: Config, s: System, index: nat, submissionId: string) returns (r: OrderReceipt)
    requires Next(c, s, HandleOrder(index, submissionId)) != s
    ensures Next(c, s, HandleOrder(index, submissionId)).partner == P.Next(c.partner, s.partner, P.Receive(submissionId, r))
  {
    r := ReadOrderCreated(OrderRecord(c, s, index)).value;
  }

  lemma PartnerSideKeepsParts(c: Config, s: System, step: Step)
    requires P.ValidConfig(c.partner) && P.Inv(c.partner, s.partner)
    ensures P.Inv(c.partner, Next(c, s, step).partner)
  {
    match step
    case HandleOrder(index, submissionId) =>
      if Next(c, s, step) != s {
        var r := HandleIsReceive(c, s, index, submissionId);
        P.NextKeepsInv(c.partner, s.partner, P.Receive(submissionId, r));
      }
    case Dispatch(d) => P.NextKeepsInv(c.partner, s.partner, P.Dispatch(d));
    case Call(callback, digest, eventId, requestId, now) =>
      P.NextKeepsInv(c.partner, s.partner, P.Call(callback, digest, eventId, requestId, now));
    case Arrive(request, digest, eventId, requestId, now) =>
      if request in s.restaurant.sending {
        P.CallKeepsInv(c.partner, s.partner, s.restaurant.sending[request].callback, digest, eventId, requestId, now);
      }
    case Integrate(restaurantId, integration) => P.NextKeepsInv(c.partner, s.partner, P.Integrate(restaurantId, integration));
    case RelayStatuses(w) => P.NextKeepsInv(c.partner, s.partner, P.Relay(w));
    case _ =>
  }

  lemma RestaurantKeepsPart(c: Config, s: System, step: Step)
    requires R.Inv(s.restaurant)
    ensures R.Inv(Next(c, s, step).restaurant)
  {
    match step
    case Dispatch(d) =>
      if Delivered(s, d) != s.restaurant {
        var k := s.partner.submissions.workers[d.worker].queue[0];
        R.DeliverKeepsInv(s.restaurant, k.payload.orderId, k.payload.externalStoreId, k.id, k.payload.payload);
      }
    case Decide(request, orderId, status, newId, now) =>
      R.NextKeepsInv(c.connected, s.restaurant, R.Begin(request, orderId, status, newId, now));
    case Conclude(request, ok) => R.NextKeepsInv(c.connected, s.restaurant, R.Finish(request, ok));
    case _ =>
  }

  lemma NextKeepsInv(c: Config, s: System, step: Step)
    requires ValidConfig(c) && Inv(c, s)
    ensures Inv(c, Next(c, s, step))
  {
    OrderSideKeepsParts(c, s, step);
    PartnerSideKeepsParts(c, s, step);
    RestaurantKeepsPart(c, s, step);
    NextKeepsLinks(c, s, step);
  }

  lemma {:induction false} ExecKeepsInv(c: Config, s: System, steps: seq<Step>)
    requires ValidConfig(c) && Inv(c, s)
    ensures Inv(c, Exec(c, s, steps))
  {
    if steps != [] {
      var t := Exec(c, s, steps[..|steps| - 1]);
      ExecKeepsInv(c, s, steps[..|steps| - 1]);
      NextKeepsInv(c, t, steps[|steps| - 1]);
    }
  }

  lemma StartPartsOk(c: Config)
    ensures C.Inv(C.Start()) && L.Inv(c.orderRelay, L.Empty<Envelope<OrderCreated>>()) && R.Inv(R.Empty())
  {
  }

  lemma StartPartnerOk(c: P.Config)
    ensures P.Inv(c, P.Empty())
  {
  }

  lemma StartLinked()
    ensures Linked(Start())
  {
  }

  lemma {:induction false} RunHolds(c: Config, steps: seq<Step>)
    requires ValidConfig(c)
    ensures Inv(c, Exec(c, Start(), steps))
  {
    StartPartsOk(c);
    StartPartnerOk(c.partner);
    StartLinked();
    ExecKeepsInv(c, Start(), steps);
  }

  // ----- what that means, for every run -----

  /**
    No poison, end to end: every record on the partner topic, whenever and however often it is
    handled, passes the handler and is applied without an error, so the consumer is never blocked.
   */
  lemma {:induction false} NoPoison(c: Config, steps: seq<Step>, index: nat)
    requires ValidConfig(c) && index < |Exec(c, Start(), steps).partner.outbox.log|
    ensures var s := Exec(c, Start(), steps);
      var read := ReadStatusChanged(StatusRecord(c, s, index));
      read.Some? && O.Apply(s.creation.store, read.value).1.Success? &&
      HasDecision(s.partner, read.value.orderId, read.value.newStatus)
  {
    RunHolds(c, steps);
    LoggedIsApplicable(c, Exec(c, Start(), steps), index);
  }

  /** Agreement: an order is as it was created, or holds exactly the decision its submission holds. */
  lemma {:induction false} OrdersFollowSubmissions(c: Config, steps: seq<Step>, id: string)
    requires ValidConfig(c) && id in Exec(c, Start(), steps).creation.store.orders
    ensures var s := Exec(c, Start(), steps);
      var o := s.creation.store.orders[id];
      o.id == id && OrderAgrees(s.partner, o) && o.version == (if o.status == Pending then 1 else 2)
  {
    RunHolds(c, steps);
    OrderFollows(Exec(c, Start(), steps), id);
  }

  lemma OrderFollows(s: System, id: string)
    requires OrdersOk(s) && O.StoreOk(s.creation.store) && id in s.creation.store.orders
    ensures var o := s.creation.store.orders[id];
      o.id == id && OrderAgrees(s.partner, o) && o.version == (if o.status == Pending then 1 else 2)
  {
    assert OrderAgrees(s.partner, s.creation.store.orders[id]);
  }

  /** What the restaurant takes for acknowledged, partner-service has recorded, and the submission says the same. */
  lemma {:induction false} AcknowledgedIsRecorded(c: Config, steps: seq<Step>, id: string)
    requires ValidConfig(c)
    requires var s := Exec(c, Start(), steps); id in s.restaurant.orders && s.restaurant.orders[id].acknowledged
    ensures var s := Exec(c, Start(), steps);
      var o := s.restaurant.orders[id];
      CallbackRecorded(s.partner, R.CallbackFor(o)) && HasDecision(s.partner, id, o.order.status)
  {
    var s := Exec(c, Start(), steps);
    RunHolds(c, steps);
    RecordedDecides(c.partner, s.partner, R.CallbackFor(s.restaurant.orders[id]));
    assert R.StoredOk(id, s.restaurant.orders[id]);
  }

  lemma RecordedDecides(c: P.Config, p: P.State, cb: Callback)
    requires P.Inv(c, p) && CallbackRecorded(p, cb)
    ensures HasDecision(p, cb.orderId, cb.status)
  {
    assert P.CallbackOk(p, cb.callbackId, p.callbacks[cb.callbackId]);
  }

  /**
    The way back works: a callback on its way from the restaurant always names its submission, so it is
    answered with success if and only if the integration is active with that token, no other decision
    was made first, and its ids clash with nothing recorded.
   */
  lemma {:induction false} CallbackIsAccepted(
    c: Config, steps: seq<Step>, request: string, digest: string, eventId: string, requestId: string, now: int)
    requires ValidConfig(c) && request in Exec(c, Start(), steps).restaurant.sending
    ensures var s := Exec(c, Start(), steps);
      var cb := s.restaurant.sending[request].callback;
      P.ReceiveCallback(c.partner, s.partner, cb, digest, eventId, requestId, now).1.Success? <==>
        eventId != "" && cb.occurredAt != 0 && !DecidedOtherwise(s.partner, cb) &&
        cb.restaurantId in s.partner.integrations && s.partner.integrations[cb.restaurantId].active &&
        s.partner.integrations[cb.restaurantId].externalStoreId == cb.externalStoreId &&
        s.partner.integrations[cb.restaurantId].secretDigest == digest &&
        if cb.callbackId in s.partner.callbacks then CallbackRecorded(s.partner, cb) else eventId !in s.partner.outbox.rows
  {
    var s := Exec(c, Start(), steps);
    RunHolds(c, steps);
    var cb := s.restaurant.sending[request].callback;
    CallbackIsNamed(c, s, request);
    if cb.callbackId in s.partner.callbacks { assert P.CallbackOk(s.partner, cb.callbackId, s.partner.callbacks[cb.callbackId]); }
    NamedIsAccepted(c.partner, s.partner, cb, digest, eventId, requestId, now);
  }

  predicate DecidedOtherwise(p: P.State, cb: Callback) {
    cb.orderId in p.index && p.index[cb.orderId] in p.submissions.rows &&
    var status := p.submissions.rows[p.index[cb.orderId]].status; status.Decided? && status.decision != cb.status
  }

  // Everything about a callback that does not depend on the clock.
  predicate WellFormed(cb: Callback) {
    cb.callbackId != "" && cb.orderId != "" && cb.restaurantId != "" && cb.externalStoreId != "" && R.IsDecision(cb.status)
  }

  lemma CallbackIsNamed(c: Config, s: System, request: string)
    requires P.Inv(c.partner, s.partner) && R.Inv(s.restaurant) && SubmissionsOk(s) && RestaurantOk(s)
    requires request in s.restaurant.sending
    ensures var cb := s.restaurant.sending[request].callback; WellFormed(cb) && P.Named(s.partner, cb).Some?
  {
    var k := s.restaurant.sending[request];
    assert R.SendingOk(s.restaurant, k);
    var o := s.restaurant.orders[k.orderId];
    assert R.StoredOk(k.orderId, o) && StoredLinked(s.partner, k.orderId, o);
    var d := s.partner.submissions.rows[o.submissionId].payload;
    assert P.DeliveryOk(s.partner, d) && SubmissionLinked(s.creation.store, s.orderOutbox, d);
  }

  lemma NamedIsAccepted(c: P.Config, p: P.State, cb: Callback, digest: string, eventId: string, requestId: string, now: int)
    requires WellFormed(cb) && P.Named(p, cb).Some?
    requires cb.callbackId in p.callbacks ==> P.CallbackOk(p, cb.callbackId, p.callbacks[cb.callbackId])
    ensures P.ReceiveCallback(c, p, cb, digest, eventId, requestId, now).1.Success? <==>
      eventId != "" && cb.occurredAt != 0 && !DecidedOtherwise(p, cb) &&
      cb.restaurantId in p.integrations && p.integrations[cb.restaurantId].active &&
      p.integrations[cb.restaurantId].externalStoreId == cb.externalStoreId &&
      p.integrations[cb.restaurantId].secretDigest == digest &&
      if cb.callbackId in p.callbacks then CallbackRecorded(p, cb) else eventId !in p.outbox.rows
  {
  }

  // Everything partner-service wrote has been published and handled.
  ghost predicate Drained(s: System) {
    (forall e :: e in s.partner.outbox.rows ==> s.partner.outbox.rows[e].status == L.Done) &&
    (forall i :: 0 <= i < |s.partner.outbox.log| ==> s.partner.outbox.log[i].id in s.creation.store.inbox)
  }

  /** Once outbox and topic are drained, submissions and orders agree: one is decided exactly as the other. */
  lemma {:induction false} DrainedAgrees(c: Config, steps: seq<Step>, orderId: string, status: Status)
    requires ValidConfig(c) && Drained(Exec(c, Start(), steps)) && R.IsDecision(status)
    ensures var s := Exec(c, Start(), steps);
      HasDecision(s.partner, orderId, status) <==>
      orderId in s.creation.store.orders && s.creation.store.orders[orderId].status == status
  {
    var s := Exec(c, Start(), steps);
    RunHolds(c, steps);
    if HasDecision(s.partner, orderId, status) {
      var e := DecisionHasEvent(c.partner, s.partner, orderId, status);
      var i := DoneIsLogged(c, s, e);
      assert InboxAgrees(s.creation.store, s.partner, e, s.creation.store.inbox[e]);
    }
    if orderId in s.creation.store.orders && s.creation.store.orders[orderId].status == status {
      assert OrderAgrees(s.partner, s.creation.store.orders[orderId]);
    }
  }

  lemma DecisionHasEvent(c: P.Config, p: P.State, orderId: string, status: Status) returns (e: string)
    requires P.Inv(c, p) && HasDecision(p, orderId, status)
    ensures e in p.outbox.rows && p.outbox.rows[e].payload.payload.orderId == orderId &&
            p.outbox.rows[e].payload.payload.status == status
  {
    var id := p.index[orderId];
    assert P.HasCallback(p, p.submissions.rows[id].payload.orderId, status);
    var k :| k in p.callbacks && p.callbacks[k].orderId == orderId && p.callbacks[k].fingerprint.status == status;
    assert P.HasEvent(p, k) && P.CallbackOk(p, k, p.callbacks[k]);
    e :| e in p.outbox.rows && p.outbox.rows[e].payload.payload.callbackId == k;
    assert P.EventOk(p, e, p.outbox.rows[e].payload);
  }

  lemma DoneIsLogged(c: Config, s: System, e: string) returns (i: nat)
    requires P.Inv(c.partner, s.partner) && Drained(s) && e in s.partner.outbox.rows
    ensures i < |s.partner.outbox.log| && s.partner.outbox.log[i].id == e && e in s.creation.store.inbox
  {
    assert L.InLog(s.partner.outbox.log, e);
    i :| 0 <= i < |s.partner.outbox.log| && s.partner.outbox.log[i].id == e;
  }

  /**
    The order topic, exactly: a record is readable if and only if its order's price, as stored, is
    positive; and a readable one is filed unless the integration is missing or the drawn submission id
    is empty or taken. It never meets an inbox conflict and never files an order twice.
   */
  lemma {:induction false} OrderTopicAccepted(c: Config, steps: seq<Step>, index: nat, submissionId: string)
    requires ValidConfig(c) && index < |Exec(c, Start(), steps).orderOutbox.log|
    ensures var s := Exec(c, Start(), steps);
      var e := s.orderOutbox.log[index].payload;
      var read := ReadOrderCreated(OrderRecord(c, s, index));
      e.aggregateId in s.creation.store.orders && e.payload == Snapshot(s.creation.store.orders[e.aggregateId]) &&
      (read.Some? <==> s.creation.store.orders[e.aggregateId].total > 0) &&
      (read.Some? ==>
         (P.ReceiveOrder(c.partner, s.partner, submissionId, read.value).1.Success? <==>
          submissionId != "" &&
          (e.eventId in s.partner.inbox ||
           (Active(s.partner, e.payload.restaurantId) && submissionId !in s.partner.submissions.rows))))
  {
    var s := Exec(c, Start(), steps);
    RunHolds(c, steps);
    LoggedEvent(s, index);
    var e := s.orderOutbox.log[index].payload;
    EventReads(c.orderTopic, e, s.creation.store.orders[e.aggregateId]);
    FiledIsSame(c, s, e);
    if e.eventId !in s.partner.inbox { NewEventIsNewOrder(c, s, e); }
    FilesExactly(c.partner, s.partner, submissionId, OrderReceipt(e.eventId, e.correlationId, e.payload));
  }

  lemma FilesExactly(c: P.Config, p: P.State, submissionId: string, r: OrderReceipt)
    requires r.eventId in p.inbox ==> p.inbox[r.eventId] == P.InboxRow(r.payload, r.payload.orderId)
    requires r.eventId !in p.inbox ==>
      r.payload.orderId !in p.index &&
      forall id :: id in p.submissions.rows ==> p.submissions.rows[id].payload.sourceEventId != r.eventId
    ensures P.ReceiveOrder(c, p, submissionId, r).1.Success? <==>
      submissionId != "" &&
      (r.eventId in p.inbox || (Active(p, r.payload.restaurantId) && submissionId !in p.submissions.rows))
  {
  }

  predicate Active(p: P.State, restaurantId: string) {
    restaurantId in p.integrations && p.integrations[restaurantId].active
  }

  lemma FiledIsSame(c: Config, s: System, e: Envelope<OrderCreated>)
    requires Inv(c, s) && EventLinked(s.creation.store, s.orderOutbox, e)
    ensures e.eventId in s.partner.inbox ==> s.partner.inbox[e.eventId] == P.InboxRow(e.payload, e.payload.orderId)
  {
    if e.eventId in s.partner.inbox {
      var row := s.partner.inbox[e.eventId];
      assert P.InboxRowOk(s.partner, e.eventId, row);
      var d := P.SubmissionFor(s.partner, row.orderId).payload;
      assert SubmissionLinked(s.creation.store, s.orderOutbox, d) && P.DeliveryOk(s.partner, d);
    }
  }

  lemma EventOfRow(s: System, id: string)
    requires EventsOk(s) && id in s.orderOutbox.rows
    ensures EventLinked(s.creation.store, s.orderOutbox, s.orderOutbox.rows[id].payload)
    ensures exists i :: 0 <= i < |s.creation.store.outbox| && s.creation.store.outbox[i] == s.orderOutbox.rows[id].payload
  {
    var i :| 0 <= i < |s.creation.store.outbox| && s.creation.store.outbox[i] == s.orderOutbox.rows[id].payload;
    assert EventLinked(s.creation.store, s.orderOutbox, s.creation.store.outbox[i]);
  }

  // Each order has one event, so an event that was not received is about an order that was not either.
  lemma NewEventIsNewOrder(c: Config, s: System, e: Envelope<OrderCreated>)
    requires Inv(c, s) && EventLinked(s.creation.store, s.orderOutbox, e) && e.eventId !in s.partner.inbox
    ensures e.payload.orderId !in s.partner.index
    ensures forall id :: id in s.partner.submissions.rows ==> s.partner.submissions.rows[id].payload.sourceEventId != e.eventId
  {
    forall id | id in s.partner.submissions.rows
      ensures s.partner.submissions.rows[id].payload.orderId != e.payload.orderId
      ensures s.partner.submissions.rows[id].payload.sourceEventId != e.eventId
    {
      var d := s.partner.submissions.rows[id].payload;
      assert P.DeliveryOk(s.partner, d) && SubmissionLinked(s.creation.store, s.orderOutbox, d);
      OneEventPerOrder(s, d.sourceEventId, e);
    }
  }

  lemma OneEventPerOrder(s: System, id: string, e: Envelope<OrderCreated>)
    requires EventsOk(s) && C.OneEventEach(s.creation.store) && O.StoreOk(s.creation.store)
    requires id in s.orderOutbox.rows && EventLinked(s.creation.store, s.orderOutbox, e) && e.eventId != id
    ensures s.orderOutbox.rows[id].payload.payload.orderId != e.payload.orderId
  {
    EventOfRow(s, id);
    EventOfRow(s, e.eventId);
    var i :| 0 <= i < |s.creation.store.outbox| && s.creation.store.outbox[i] == s.orderOutbox.rows[id].payload;
    var j :| 0 <= j < |s.creation.store.outbox| && s.creation.store.outbox[j] == e;
    assert i != j;
  }

  /**
    Snapshot integrity: what the order's event, its submission and the restaurant hold is the order as
    it was created; and the restaurant was sent it undecided, so its callbacks carry an identity.
   */
  lemma {:induction false} SnapshotsAgree(c: Config, steps: seq<Step>, submissionId: string, orderId: string)
    requires ValidConfig(c)
    ensures var s := Exec(c, Start(), steps);
      (submissionId in s.partner.submissions.rows ==>
         var d := s.partner.submissions.rows[submissionId].payload;
         d.orderId in s.creation.store.orders && d.payload == Snapshot(s.creation.store.orders[d.orderId]) &&
         d.sourceEventId in s.orderOutbox.rows && s.orderOutbox.rows[d.sourceEventId].payload.payload == d.payload &&
         s.orderOutbox.rows[d.sourceEventId].payload.correlationId == d.correlationId) &&
      (orderId in s.restaurant.orders ==>
         orderId in s.creation.store.orders &&
         s.restaurant.orders[orderId].fingerprint == Snapshot(s.creation.store.orders[orderId]) &&
         s.restaurant.orders[orderId].order ==
           Snapshot(s.creation.store.orders[orderId]).(status := s.restaurant.orders[orderId].order.status))
  {
    var s := Exec(c, Start(), steps);
    RunHolds(c, steps);
    if orderId in s.restaurant.orders {
      var o := s.restaurant.orders[orderId];
      assert StoredLinked(s.partner, orderId, o) && R.StoredOk(orderId, o);
      assert SubmissionLinked(s.creation.store, s.orderOutbox, s.partner.submissions.rows[o.submissionId].payload);
    }
  }

  // What no step changes of an order: its snapshot, and its decision once there is one.
  predicate Stays(o: Order, o': Order) {
    Snapshot(o') == Snapshot(o) && (o.status != Pending ==> o' == o)
  }

  lemma CreateStays(s: C.System, k: C.Step, id: string)
    requires C.RequestsOk(s) && !k.PartnerApplies? && id in s.store.orders
    ensures var s' := C.Next(s, k); id in s'.store.orders && s'.store.orders[id] == s.store.orders[id]
  {
    if k.Save? && k.request in s.requests && s.requests[k.request].phase.Priced? { SaveShape(s, k.request); }
  }

  lemma TakenStays(s: System, read: Option<PartnerEvent>, id: string)
    requires Applicable(s, read) && id in s.creation.store.orders
    ensures id in Taken(s, read).creation.store.orders &&
            Stays(s.creation.store.orders[id], Taken(s, read).creation.store.orders[id])
  {
    TakenTakes(s, read);
  }

  lemma HandleStatusStays(c: Config, s: System, index: nat, id: string)
    requires SubmissionsOk(s) && OrdersOk(s) && P.Inv(c.partner, s.partner) && O.StoreOk(s.creation.store)
    requires id in s.creation.store.orders
    ensures var s' := HandledStatus(c, s, index);
      id in s'.creation.store.orders && Stays(s.creation.store.orders[id], s'.creation.store.orders[id])
  {
    if index < |s.partner.outbox.log| {
      var read := StatusRead(c, s, index);
      TakenStays(s, read, id);
    }
  }

  lemma StoreStays(c: Config, s: System, step: Step)
    requires !step.Create? && !step.HandleStatus?
    ensures Next(c, s, step).creation == s.creation
  {
  }

  lemma NextStays(c: Config, s: System, step: Step, id: string)
    requires SubmissionsOk(s) && OrdersOk(s) && P.Inv(c.partner, s.partner) && C.Inv(s.creation)
    requires id in s.creation.store.orders
    ensures var s' := Next(c, s, step);
      id in s'.creation.store.orders && Stays(s.creation.store.orders[id], s'.creation.store.orders[id])
  {
    match step
    case Create(k) => if !k.PartnerApplies? { CreateStays(s.creation, k, id); }
    case HandleStatus(index) => HandleStatusStays(c, s, index, id);
    case _ => StoreStays(c, s, step);
  }

  /** And none of it ever changes afterwards: neither the snapshot nor a decision. */
  lemma {:induction false} OrdersNeverChange(c: Config, steps: seq<Step>, later: seq<Step>, id: string)
    requires ValidConfig(c) && id in Exec(c, Start(), steps).creation.store.orders
    ensures var (s, s') := (Exec(c, Start(), steps), Exec(c, Exec(c, Start(), steps), later));
      id in s'.creation.store.orders && Stays(s.creation.store.orders[id], s'.creation.store.orders[id])
  {
    if later != [] {
      var s := Exec(c, Start(), steps);
      var n := |later| - 1;
      OrdersNeverChange(c, steps, later[..n], id);
      RunHolds(c, steps);
      ExecKeepsInv(c, s, later[..n]);
      NextStays(c, Exec(c, s, later[..n]), later[n], id);
    }
  }

  // ----- who decided -----

  // A callback as a step presents it to partner-service, with the token it came with.
  ghost predicate Presents(s: System, step: Step, cb: Callback, digest: string) {
    match step
    case Call(callback, token, _, _, _) => cb == callback && digest == token
    case Arrive(request, token, _, _, _) =>
      request in s.restaurant.sending && cb == s.restaurant.sending[request].callback && digest == token
    case _ => false
  }

  lemma NewCallbackIsPresented(c: Config, s: System, step: Step, k: string) returns (cb: Callback, digest: string)
    requires k in Next(c, s, step).partner.callbacks && k !in s.partner.callbacks
    ensures Presents(s, step, cb, digest) && cb.callbackId == k
    ensures var row := Next(c, s, step).partner.callbacks[k];
      row.orderId == cb.orderId && row.fingerprint.restaurantId == cb.restaurantId && row.fingerprint.status == cb.status
    ensures cb.restaurantId in s.partner.integrations && s.partner.integrations[cb.restaurantId].active &&
            s.partner.integrations[cb.restaurantId].externalStoreId == cb.externalStoreId &&
            s.partner.integrations[cb.restaurantId].secretDigest == digest
  {
    match step
    case HandleOrder(index, submissionId) =>
      if Next(c, s, step) != s {
        var r := HandleIsReceive(c, s, index, submissionId);
        P.ReceiveFiles(c.partner, s.partner, submissionId, r);
      }
      assert false;
    case Call(callback, token, eventId, requestId, now) =>
      cb, digest := callback, token;
      CallIsAuthorized(c.partner, s.partner, cb, digest, eventId, requestId, now, k);
    case Arrive(request, token, eventId, requestId, now) =>
      cb, digest := s.restaurant.sending[request].callback, token;
      CallIsAuthorized(c.partner, s.partner, cb, digest, eventId, requestId, now, k);
    case HandleStatus(index) =>
      if index < |s.partner.outbox.log| { var read := HandleIsTaken(c, s, index); }
      assert false;
    case _ => assert false;
  }

  lemma CallIsAuthorized(
    c: P.Config, p: P.State, cb: Callback, digest: string, eventId: string, requestId: string, now: int, k: string)
    requires k !in p.callbacks && k in P.ReceiveCallback(c, p, cb, digest, eventId, requestId, now).0.callbacks
    ensures cb.callbackId == k
    ensures var row := P.ReceiveCallback(c, p, cb, digest, eventId, requestId, now).0.callbacks[k];
      row.orderId == cb.orderId && row.fingerprint.restaurantId == cb.restaurantId && row.fingerprint.status == cb.status
    ensures cb.restaurantId in p.integrations && p.integrations[cb.restaurantId].active &&
            p.integrations[cb.restaurantId].externalStoreId == cb.externalStoreId &&
            p.integrations[cb.restaurantId].secretDigest == digest
  {
    P.CallbackRecords(c, p, cb, digest, eventId, requestId, now);
    P.CallbackSucceeds(c, p, cb, digest, eventId, requestId, now);
    P.CallbackWrites(c, p, cb, digest, eventId, requestId, now);
  }

  lemma PartnerNeverForgets(c: Config, s: System, step: Step, k: string)
    requires k in s.partner.callbacks
    ensures var p' := Next(c, s, step).partner; k in p'.callbacks && p'.callbacks[k] == s.partner.callbacks[k]
  {
    match step
    case HandleOrder(index, submissionId) =>
      if Next(c, s, step) != s {
        var r := HandleIsReceive(c, s, index, submissionId);
        P.ReceiveGrows(c.partner, s.partner, submissionId, r);
      }
    case Call(callback, digest, eventId, requestId, now) =>
      P.CallGrows(c.partner, s.partner, callback, digest, eventId, requestId, now);
    case Arrive(request, digest, eventId, requestId, now) =>
      if request in s.restaurant.sending {
        P.CallGrows(c.partner, s.partner, s.restaurant.sending[request].callback, digest, eventId, requestId, now);
      }
    case HandleStatus(index) =>
      if index < |s.partner.outbox.log| { var read := HandleIsTaken(c, s, index); }
    case _ =>
  }

  lemma {:induction false} RecordedWasPresented(c: Config, steps: seq<Step>, k: string)
    returns (n: nat, cb: Callback, digest: string)
    requires k in Exec(c, Start(), steps).partner.callbacks
    ensures n < |steps| && Presents(Exec(c, Start(), steps[..n]), steps[n], cb, digest)
    ensures var row := Exec(c, Start(), steps).partner.callbacks[k];
      row.orderId == cb.orderId && row.fingerprint.restaurantId == cb.restaurantId && row.fingerprint.status == cb.status
    ensures var known := Exec(c, Start(), steps[..n]).partner.integrations;
      cb.restaurantId in known && known[cb.restaurantId].active &&
      known[cb.restaurantId].externalStoreId == cb.externalStoreId && known[cb.restaurantId].secretDigest == digest
  {
    var m := |steps| - 1;
    var s := Exec(c, Start(), steps[..m]);
    if k in s.partner.callbacks {
      PartnerNeverForgets(c, s, steps[m], k);
      n, cb, digest := RecordedWasPresented(c, steps[..m], k);
      assert steps[..m][..n] == steps[..n];
    } else {
      n := m;
      cb, digest := NewCallbackIsPresented(c, s, steps[m], k);
    }
  }

  /**
    Only the restaurant decides: in every run, an order that is no longer pending got its status from a
    callback about it, presented with the very token its restaurant's active integration then had.
   */
  lemma {:induction false} OnlyTheRestaurantDecides(c: Config, steps: seq<Step>, id: string)
    returns (n: nat, cb: Callback, digest: string)
    requires ValidConfig(c) && id in Exec(c, Start(), steps).creation.store.orders
    requires Exec(c, Start(), steps).creation.store.orders[id].status != Pending
    ensures n < |steps| && Presents(Exec(c, Start(), steps[..n]), steps[n], cb, digest)
    ensures cb.orderId == id && cb.status == Exec(c, Start(), steps).creation.store.orders[id].status
    ensures cb.restaurantId == Exec(c, Start(), steps).creation.store.orders[id].restaurantId
    ensures var known := Exec(c, Start(), steps[..n]).partner.integrations;
      cb.restaurantId in known && known[cb.restaurantId].active &&
      known[cb.restaurantId].externalStoreId == cb.externalStoreId && known[cb.restaurantId].secretDigest == digest
  {
    RunHolds(c, steps);
    var k := DecisionHasCallback(c, Exec(c, Start(), steps), id);
    n, cb, digest := RecordedWasPresented(c, steps, k);
  }

  lemma DecisionHasCallback(c: Config, s: System, id: string) returns (k: string)
    requires P.Inv(c.partner, s.partner) && SubmissionsOk(s) && OrdersOk(s) && O.StoreOk(s.creation.store)
    requires id in s.creation.store.orders && s.creation.store.orders[id].status != Pending
    ensures k in s.partner.callbacks && s.partner.callbacks[k].orderId == id
    ensures s.partner.callbacks[k].fingerprint.status == s.creation.store.orders[id].status
    ensures s.partner.callbacks[k].fingerprint.restaurantId == s.creation.store.orders[id].restaurantId
  {
    OrderFollows(s, id);
    var (p, status) := (s.partner, s.creation.store.orders[id].status);
    var row := p.submissions.rows[p.index[id]];
    assert P.HasCallback(p, row.payload.orderId, status);
    k :| k in p.callbacks && p.callbacks[k].orderId == id && p.callbacks[k].fingerprint.status == status;
    assert P.CallbackOk(p, k, p.callbacks[k]);
    assert P.DeliveryOk(p, row.payload) && SubmissionLinked(s.creation.store, s.orderOutbox, row.payload);
  }
}
