/**
  One run from an empty system to a decided order, for any order and either decision: the run theorems
  speak of something. Every service takes the steps it takes when nothing goes wrong.
 */
module Journey {
  import opened Wrappers
  import opened OrderDomain
  import opened Events
  import opened Saga
  import C = Creation
  import G = ConsumerGroups
  import Money
  import L = Lease
  import N = Canonical
  import O = OrderStore
  import P = Partner
  import R = Restaurant

  datatype Trip = Trip(
    input: C.Input, items: seq<NewItem>, orderId: string, eventId: string, now: int,
    integration: P.Integration, submissionId: string,
    decision: Status, callbackId: string, occurredAt: int, statusEventId: string)

  function Asked(t: Trip): NewOrderInput {
    NewOrderInput(t.orderId, t.input.command.userId, t.input.command.restaurantId, t.items)
  }

  // A priced order with positive total, drawn ids, an active integration, a decision.
  predicate Ready(t: Trip) {
    C.ValidInput(t.input) && OrderFor(Asked(t)).Success? && OrderFor(Asked(t)).value.total > 0 &&
    t.eventId != "" && t.eventId != t.orderId && t.submissionId != "" &&
    t.integration.active && t.integration.externalStoreId != "" &&
    R.IsDecision(t.decision) && t.callbackId != "" && t.occurredAt != 0 && t.statusEventId != ""
  }

  function NewOrderOf(t: Trip): Order
    requires Ready(t)
  {
    OrderFor(Asked(t)).value
  }

  // A row that one worker claims and sends.
  lemma ClaimedThenSent<Q>(c: L.Config, t: L.Table<Q>, worker: string, id: string)
    requires worker !in t.workers && id in t.rows && id in t.history && L.Claimable(t.rows[id], t.now)
    ensures var t1 := L.Next(c, t, L.Claim(worker, [id]));
      var t2 := L.Next(c, t1, L.Send(worker, true, L.Delivered));
      L.CanSend(t1, worker, true, L.Delivered) && t1.workers[worker].queue[0].id == id &&
      t1.workers[worker].queue[0].payload == t.rows[id].payload && t1.rows.Keys == t.rows.Keys &&
      t2.log == t.log + [L.Entry(id, t.rows[id].payload)] && t2.rows == t1.rows &&
      t2.rows[id].payload == t.rows[id].payload && t2.rows[id].status == L.Open && t2.rows[id].lockedBy == Some(worker) &&
      L.CanMark(t2, worker) && t2.workers[worker].queue[0].id == id && t2.workers[worker].sent == Some(L.Delivered) &&
      id in t2.history
  {
    assert L.CanClaim(t, worker, [id]);
    var t1 := L.Next(c, t, L.Claim(worker, [id]));
    assert t1.workers[worker].queue == [L.TicketFor(c, t, id)];
  }

  lemma SentThenMarked<Q>(c: L.Config, t: L.Table<Q>, worker: string, id: string)
    requires L.CanMark(t, worker) && t.workers[worker].queue[0].id == id && t.workers[worker].sent == Some(L.Delivered)
    requires L.Owned(t, worker, id)
    ensures var t' := L.Next(c, t, L.Mark(worker, L.Answered));
      t'.rows.Keys == t.rows.Keys && t'.rows[id].status == L.Done && t'.rows[id].payload == t.rows[id].payload && t'.log == t.log
  {
  }

  // ----- stage by stage -----

  ghost predicate IsNew<Q>(t: L.Table<Q>, id: string, payload: Q) {
    t.rows == map[id := L.NewRow(payload)] && id in t.history && t.workers == map[] && t.log == []
  }

  ghost predicate Created(s: System, t: Trip, event: Envelope<OrderCreated>)
    requires Ready(t)
  {
    EventOf(event, NewOrderOf(t)) && event.eventId == t.eventId && IsNew(s.orderOutbox, t.eventId, event) &&
    s.partner == P.Empty() && s.restaurant == R.Empty() && s.answered == {}
  }

  function CreateSteps(t: Trip): seq<Step> {
    [Create(C.Begin("request", t.input)), Create(C.AskCatalog("request", Some(t.items), t.orderId, t.eventId, t.now)),
     Create(C.Save("request"))]
  }

  lemma {:induction false} ExecSnoc(c: Config, s: System, steps: seq<Step>, step: Step)
    ensures Exec(c, s, steps + [step]) == Next(c, Exec(c, s, steps), step)
  {
    assert (steps + [step])[..|steps|] == steps;
  }

  lemma {:induction false} ExecTwo(c: Config, s: System, x: Step, y: Step)
    ensures Exec(c, s, [x]) == Next(c, s, x)
    ensures Exec(c, s, [x, y]) == Next(c, Next(c, s, x), y)
  {
    assert [] + [x] == [x] && [x] + [y] == [x, y];
    ExecSnoc(c, s, [], x);
    ExecSnoc(c, s, [x], y);
  }

  lemma {:induction false} ExecThree(c: Config, s: System, x: Step, y: Step, z: Step)
    ensures Exec(c, s, [x, y, z]) == Next(c, Next(c, Next(c, s, x), y), z)
  {
    assert [x, y] + [z] == [x, y, z];
    ExecTwo(c, s, x, y);
    ExecSnoc(c, s, [x, y], z);
  }

  lemma {:induction false} ExecConcat(c: Config, s: System, x: seq<Step>, y: seq<Step>)
    ensures Exec(c, s, x + y) == Exec(c, Exec(c, s, x), y)
  {
    if y == [] {
      assert x + y == x;
    } else {
      var n := |y| - 1;
      ExecConcat(c, s, x, y[..n]);
      assert (x + y)[..|x + y| - 1] == x + y[..n];
    }
  }

  // The three steps of a request that meets nobody else.
  function Looked(t: Trip, request: string): C.System {
    C.System(O.Empty(), map[request := C.Request(t.input, N.Fingerprint(t.input.command), C.Looked)], {})
  }

  lemma BeginLooks(t: Trip, request: string)
    requires Ready(t)
    ensures C.Next(C.Start(), C.Begin(request, t.input)) == Looked(t, request)
  {
  }

  lemma Prices(t: Trip, fingerprint: string) returns (record: O.CreateRecord)
    requires Ready(t)
    ensures C.Price(t.input, fingerprint, Some(t.items), t.orderId, t.eventId, t.now) == Success(record)
    ensures NewRecord(record) && record.order == NewOrderOf(t) && record.event.eventId == t.eventId
  {
    OrderEventReads(ORDER_CREATED, Asked(t), t.eventId, t.input.requestId, t.input.key, t.now);
    PricedIsNew(t.input, fingerprint, Some(t.items), t.orderId, t.eventId, t.now);
    record := C.Price(t.input, fingerprint, Some(t.items), t.orderId, t.eventId, t.now).value;
  }

  lemma AskPrices(t: Trip, request: string) returns (record: O.CreateRecord)
    requires Ready(t)
    ensures NewRecord(record) && record.order == NewOrderOf(t) && record.event.eventId == t.eventId
    ensures var s := C.Next(Looked(t, request), C.AskCatalog(request, Some(t.items), t.orderId, t.eventId, t.now));
      s.store == O.Empty() && request in s.requests && s.requests[request].phase == C.Priced(record)
  {
    record := Prices(t, N.Fingerprint(t.input.command));
  }

  lemma SaveStores(s: C.System, request: string, record: O.CreateRecord)
    requires s.store == O.Empty() && request in s.requests && s.requests[request].phase == C.Priced(record)
    ensures C.Next(s, C.Save(request)).store.outbox == [record.event]
  {
  }

  lemma Creates(c: Config, t: Trip) returns (event: Envelope<OrderCreated>)
    requires Ready(t)
    ensures Created(Exec(c, Start(), CreateSteps(t)), t, event)
  {
    var request := "request";
    BeginLooks(t, request);
    var record := AskPrices(t, request);
    var asked := C.Next(Looked(t, request), C.AskCatalog(request, Some(t.items), t.orderId, t.eventId, t.now));
    SaveStores(asked, request, record);
    event := record.event;
    var saved := C.Next(asked, C.Save(request));
    var s1 := Start().(creation := Looked(t, request));
    var s2 := s1.(creation := asked);
    var s3 := s2.(creation := saved, orderOutbox := Inserted(c, L.Empty(), asked.store, saved.store));
    assert Next(c, Start(), Create(C.Begin(request, t.input))) == s1;
    assert Next(c, s1, Create(C.AskCatalog(request, Some(t.items), t.orderId, t.eventId, t.now))) == s2;
    assert Next(c, s2, Create(C.Save(request))) == s3;
    ExecThree(c, Start(), Create(C.Begin(request, t.input)),
      Create(C.AskCatalog(request, Some(t.items), t.orderId, t.eventId, t.now)), Create(C.Save(request)));
  }

  function Names(t: Trip, event: Envelope<OrderCreated>): P.Delivery {
    P.DeliveryFor(t.integration, event.eventId, event.correlationId, event.payload)
  }

  ghost predicate Published(s: System, t: Trip, event: Envelope<OrderCreated>)
    requires Ready(t)
  {
    EventOf(event, NewOrderOf(t)) && event.eventId == t.eventId && s.orderOutbox.log == [L.Entry(t.eventId, event)] &&
    s.partner == P.Empty() && s.restaurant == R.Empty() && s.answered == {}
  }

  function PublishSteps(t: Trip): seq<Step> {
    [RelayOrders(L.Claim("relay", [t.eventId])), RelayOrders(L.Send("relay", true, L.Delivered))]
  }

  lemma {:induction false} Publishes(c: Config, s: System, t: Trip, event: Envelope<OrderCreated>)
    requires Ready(t) && Created(s, t, event)
    ensures Published(Exec(c, s, PublishSteps(t)), t, event)
  {
    var claim, send := L.Claim("relay", [t.eventId]), L.Send("relay", true, L.Delivered);
    ClaimedThenSent(c.orderRelay, s.orderOutbox, "relay", t.eventId);
    ExecTwo(c, s, RelayOrders(claim), RelayOrders(send));
    assert [] + [L.Entry(t.eventId, event)] == [L.Entry(t.eventId, event)];
  }

  ghost predicate Filed(s: System, t: Trip, d: P.Delivery)
    requires Ready(t)
  {
    d.orderId == t.orderId && d.restaurantId == NewOrderOf(t).restaurantId && d.externalStoreId == t.integration.externalStoreId &&
    d.payload == Snapshot(NewOrderOf(t)) && s.partner.integrations == map[d.restaurantId := t.integration] &&
    IsNew(s.partner.submissions, t.submissionId, d) && s.partner.index == map[t.orderId := t.submissionId] &&
    s.partner.callbacks == map[] && s.partner.outbox == L.Empty() && s.restaurant == R.Empty() && s.answered == {}
  }

  function FileSteps(t: Trip): seq<Step> {
    [Integrate(t.input.command.restaurantId, t.integration), HandleOrder(0, t.submissionId)]
  }

  // partner-service with nothing but the integration receives the order.
  lemma ReceiptFiles(c: P.Config, t: Trip, r: OrderReceipt)
    requires Ready(t) && r.payload == Snapshot(NewOrderOf(t))
    ensures var p := P.Empty().(integrations := map[t.input.command.restaurantId := t.integration]);
      var d := P.DeliveryFor(t.integration, r.eventId, r.correlationId, r.payload);
      var p' := P.ReceiveOrder(c, p, t.submissionId, r).0;
      p'.integrations == p.integrations && IsNew(p'.submissions, t.submissionId, d) &&
      p'.index == map[t.orderId := t.submissionId] && p'.callbacks == map[] && p'.outbox == L.Empty()
  {
  }

  lemma HandlesEvent(c: Config, s: System, submissionId: string, event: Envelope<OrderCreated>, o: Order)
    requires s.orderOutbox.log != [] && s.orderOutbox.log[0].payload == event && EventOf(event, o) && o.total > 0
    ensures Next(c, s, HandleOrder(0, submissionId)) ==
      s.(partner := P.ReceiveOrder(c.partner, s.partner, submissionId, OrderReceipt(event.eventId, event.correlationId, event.payload)).0)
  {
    EventReads(c.orderTopic, event, o);
    HandlesReceipt(c, s, submissionId, OrderReceipt(event.eventId, event.correlationId, event.payload));
  }

  lemma Integrates(c: Config, s: System, restaurantId: string, integration: P.Integration)
    ensures Next(c, s, Integrate(restaurantId, integration)) ==
      s.(partner := s.partner.(integrations := s.partner.integrations[restaurantId := integration]))
  {
  }

  lemma {:induction false} FilesTo(c: Config, s: System, t: Trip, event: Envelope<OrderCreated>)
    requires Ready(t) && Published(s, t, event)
    ensures var p := P.Empty().(integrations := map[t.input.command.restaurantId := t.integration]);
      Exec(c, s, FileSteps(t)) ==
      s.(partner := P.ReceiveOrder(c.partner, p, t.submissionId, OrderReceipt(event.eventId, event.correlationId, event.payload)).0)
  {
    var restaurantId := t.input.command.restaurantId;
    var s1 := s.(partner := P.Empty().(integrations := map[restaurantId := t.integration]));
    Integrates(c, s, restaurantId, t.integration);
    assert s.partner.integrations[restaurantId := t.integration] == map[restaurantId := t.integration];
    HandlesEvent(c, s1, t.submissionId, event, NewOrderOf(t));
    ExecTwo(c, s, Integrate(restaurantId, t.integration), HandleOrder(0, t.submissionId));
  }

  lemma {:induction false} Files(c: Config, s: System, t: Trip, event: Envelope<OrderCreated>)
    requires Ready(t) && Published(s, t, event)
    ensures Filed(Exec(c, s, FileSteps(t)), t, Names(t, event))
  {
    FilesTo(c, s, t, event);
    ReceiptFiles(c.partner, t, OrderReceipt(event.eventId, event.correlationId, event.payload));
  }

  lemma HandlesReceipt(c: Config, s: System, submissionId: string, r: OrderReceipt)
    requires |s.orderOutbox.log| > 0 && ReadOrderCreated(OrderRecord(c, s, 0)) == Some(r)
    ensures Next(c, s, HandleOrder(0, submissionId)) == s.(partner := P.ReceiveOrder(c.partner, s.partner, submissionId, r).0)
  {
  }

  ghost predicate Dispatched(s: System, t: Trip, d: P.Delivery)
    requires Ready(t)
  {
    d.orderId == t.orderId && d.externalStoreId == t.integration.externalStoreId && d.restaurantId != "" &&
    d.payload.orderId == t.orderId && d.payload.restaurantId == d.restaurantId && d.payload.status == Pending &&
    s.partner.integrations == map[d.restaurantId := t.integration] && s.partner.index == map[t.orderId := t.submissionId] &&
    t.submissionId in s.partner.submissions.rows && s.partner.submissions.rows[t.submissionId].payload == d &&
    s.partner.submissions.rows[t.submissionId].status == L.Open &&
    s.partner.callbacks == map[] && s.partner.outbox == L.Empty() && s.answered == {} &&
    s.restaurant == R.State(
      map[t.orderId := R.Stored(d.payload, d.externalStoreId, t.submissionId, "", false, 0, false, d.payload)], map[], [])
  }

  function DispatchSteps(t: Trip): seq<Step> {
    [Dispatch(L.Claim("dispatcher", [t.submissionId])), Dispatch(L.Send("dispatcher", true, L.Delivered))]
  }

  lemma NewOrderIsDeliverable(t: Trip)
    requires Ready(t)
    ensures var o := NewOrderOf(t); o.id == t.orderId != "" && o.restaurantId != "" && o.items != []
  {
  }

  lemma {:induction false} Dispatches(c: Config, s: System, t: Trip, d: P.Delivery)
    requires Ready(t) && Filed(s, t, d)
    ensures Dispatched(Exec(c, s, DispatchSteps(t)), t, d)
  {
    var claim, send := L.Claim("dispatcher", [t.submissionId]), L.Send("dispatcher", true, L.Delivered);
    NewOrderIsDeliverable(t);
    ClaimedThenSent(c.partner.dispatch, s.partner.submissions, "dispatcher", t.submissionId);
    ExecTwo(c, s, Dispatch(claim), Dispatch(send));
  }

  ghost predicate Reported(s: System, t: Trip, event: Envelope<StatusChanged>)
    requires Ready(t)
  {
    IsNew(s.partner.outbox, t.statusEventId, event) && t.orderId in s.restaurant.orders &&
    s.restaurant.orders[t.orderId].acknowledged && s.restaurant.orders[t.orderId].order.status == t.decision
  }

  function ReportSteps(t: Trip): seq<Step> {
    [Saga.Decide("decision", t.orderId, t.decision, t.callbackId, t.occurredAt),
     Arrive("decision", t.integration.secretDigest, t.statusEventId, "", t.now), Conclude("decision", true)]
  }

  function CallbackOf(t: Trip, d: P.Delivery): Callback {
    Callback(t.callbackId, t.orderId, d.restaurantId, d.externalStoreId, t.decision, t.occurredAt)
  }

  // The restaurant decides and hands its callback to the sender.
  lemma Decides(s: System, t: Trip, d: P.Delivery, request: string)
    requires Ready(t) && Dispatched(s, t, d)
    ensures var r := R.BeginChange(true, s.restaurant, request, t.orderId, t.decision, t.callbackId, t.occurredAt).0;
      r.sending == map[request := R.Sending(t.orderId, CallbackOf(t, d), false)] && t.orderId in r.orders &&
      r.orders[t.orderId].callbackId == t.callbackId && r.orders[t.orderId].order.status == t.decision
  {
  }

  lemma CallbackArrives(c: P.Config, s: System, t: Trip, d: P.Delivery)
    requires Ready(t) && Dispatched(s, t, d)
    ensures var (p, answer) := P.ReceiveCallback(c, s.partner, CallbackOf(t, d), t.integration.secretDigest, t.statusEventId, "", t.now);
      answer == Success(P.Receipt(false)) && CallbackEvent(CallbackOf(t, d), t.statusEventId, "", t.now).Some? &&
      IsNew(p.outbox, t.statusEventId, CallbackEvent(CallbackOf(t, d), t.statusEventId, "", t.now).value)
  {
    var cb := CallbackOf(t, d);
    assert P.Authorized(s.partner, cb, t.integration.secretDigest);
    assert P.Named(s.partner, cb) == Some(t.submissionId);
    assert CallbackEvent(cb, t.statusEventId, "", t.now).Some?;
  }

  lemma Reports(c: Config, s: System, t: Trip, d: P.Delivery) returns (event: Envelope<StatusChanged>)
    requires c.connected && Ready(t) && Dispatched(s, t, d)
    ensures Reported(Exec(c, s, ReportSteps(t)), t, event)
  {
    var request := "decision";
    Decides(s, t, d, request);
    CallbackArrives(c.partner, s, t, d);
    event := CallbackEvent(CallbackOf(t, d), t.statusEventId, "", t.now).value;
    var r := R.BeginChange(true, s.restaurant, request, t.orderId, t.decision, t.callbackId, t.occurredAt).0;
    var p := P.ReceiveCallback(c.partner, s.partner, CallbackOf(t, d), t.integration.secretDigest, t.statusEventId, "", t.now).0;
    var s1 := s.(restaurant := r, answered := s.answered - {request});
    var s2 := s1.(partner := p, answered := s1.answered + {request});
    assert Next(c, s, Saga.Decide(request, t.orderId, t.decision, t.callbackId, t.occurredAt)) == s1;
    assert Next(c, s1, Arrive(request, t.integration.secretDigest, t.statusEventId, "", t.now)) == s2;
    assert Next(c, s2, Conclude(request, true)) == s2.(restaurant := R.FinishChange(r, request, true).0);
    ExecThree(c, s, Saga.Decide(request, t.orderId, t.decision, t.callbackId, t.occurredAt),
      Arrive(request, t.integration.secretDigest, t.statusEventId, "", t.now), Conclude(request, true));
  }

  ghost predicate Returned(s: System, t: Trip)
    requires Ready(t)
  {
    s.partner.outbox.rows.Keys == {t.statusEventId} && s.partner.outbox.rows[t.statusEventId].status == L.Done &&
    |s.partner.outbox.log| == 1 && s.partner.outbox.log[0].id == t.statusEventId && t.orderId in s.restaurant.orders &&
    s.restaurant.orders[t.orderId].acknowledged && s.restaurant.orders[t.orderId].order.status == t.decision
  }

  function ReturnSteps(t: Trip): seq<Step> {
    [RelayStatuses(L.Claim("relay", [t.statusEventId])), RelayStatuses(L.Send("relay", true, L.Delivered)),
     RelayStatuses(L.Mark("relay", L.Answered))]
  }

  lemma Relays(c: Config, s: System, w: L.Step<Envelope<StatusChanged>>)
    requires L.WorkerStep(w)
    ensures Next(c, s, RelayStatuses(w)) == s.(partner := s.partner.(outbox := L.Next(c.partner.relay, s.partner.outbox, w)))
  {
  }

  lemma {:induction false} Returns(c: Config, s: System, t: Trip, event: Envelope<StatusChanged>)
    requires Ready(t) && Reported(s, t, event)
    ensures Returned(Exec(c, s, ReturnSteps(t)), t)
  {
    var claim, send := L.Claim("relay", [t.statusEventId]), L.Send("relay", true, L.Delivered);
    ClaimedThenSent(c.partner.relay, s.partner.outbox, "relay", t.statusEventId);
    var claimed := L.Next(c.partner.relay, s.partner.outbox, claim);
    var sent := L.Next(c.partner.relay, claimed, send);
    SentThenMarked(c.partner.relay, sent, "relay", t.statusEventId);
    Relays(c, s, claim);
    Relays(c, s.(partner := s.partner.(outbox := claimed)), send);
    Relays(c, s.(partner := s.partner.(outbox := sent)), L.Mark("relay", L.Answered));
    ExecThree(c, s, RelayStatuses(claim), RelayStatuses(send), RelayStatuses(L.Mark("relay", L.Answered)));
  }

  // ----- the whole way -----

  function Outward(t: Trip): seq<Step> { CreateSteps(t) + PublishSteps(t) + FileSteps(t) + DispatchSteps(t) }

  function Route(t: Trip): seq<Step> { Outward(t) + ReportSteps(t) + ReturnSteps(t) }

  lemma GoesOut(c: Config, t: Trip) returns (d: P.Delivery)
    requires Ready(t)
    ensures Dispatched(Exec(c, Start(), Outward(t)), t, d)
  {
    var event := Creates(c, t);
    var s1 := Exec(c, Start(), CreateSteps(t));
    Publishes(c, s1, t, event);
    var s2 := Exec(c, s1, PublishSteps(t));
    Files(c, s2, t, event);
    d := Names(t, event);
    Dispatches(c, Exec(c, s2, FileSteps(t)), t, d);
    ExecConcat(c, Start(), CreateSteps(t), PublishSteps(t));
    ExecConcat(c, Start(), CreateSteps(t) + PublishSteps(t), FileSteps(t));
    ExecConcat(c, Start(), CreateSteps(t) + PublishSteps(t) + FileSteps(t), DispatchSteps(t));
  }

  lemma {:induction false} ComesBack(c: Config, t: Trip)
    requires c.connected && Ready(t)
    ensures Returned(Exec(c, Start(), Route(t)), t)
  {
    var d := GoesOut(c, t);
    var s := Exec(c, Start(), Outward(t));
    var event := Reports(c, s, t, d);
    Returns(c, Exec(c, s, ReportSteps(t)), t, event);
    ExecConcat(c, Start(), Outward(t), ReportSteps(t));
    ExecConcat(c, Start(), Outward(t) + ReportSteps(t), ReturnSteps(t));
  }

  lemma {:induction false} LastIsFiled(c: Config, t: Trip)
    requires ValidConfig(c) && c.connected && Ready(t)
    ensures var s := Exec(c, Start(), Route(t));
      s.partner.outbox.log != [] && t.statusEventId in HandledStatus(c, s, 0).creation.store.inbox &&
      HandledStatus(c, s, 0).partner == s.partner
  {
    ComesBack(c, t);
    RunHolds(c, Route(t));
    G.HandledIsFiled(c, Exec(c, Start(), Route(t)), 0);
  }

  lemma HandlesNext(c: Config, s: System)
    ensures Next(c, s, HandleStatus(0)) == HandledStatus(c, s, 0)
  {
  }

  lemma {:induction false} EndsDrained(c: Config, t: Trip)
    requires ValidConfig(c) && c.connected && Ready(t)
    ensures var s := Exec(c, Start(), Route(t) + [HandleStatus(0)]);
      Drained(s) && t.orderId in s.restaurant.orders && s.restaurant.orders[t.orderId].acknowledged &&
      s.restaurant.orders[t.orderId].order.status == t.decision
  {
    var s := Exec(c, Start(), Route(t));
    ComesBack(c, t);
    LastIsFiled(c, t);
    HandlesLast(c, s, t);
    HandlesInPlace(c, s);
    HandlesNext(c, s);
    ExecSnoc(c, Start(), Route(t), HandleStatus(0));
  }

  /**
    From nothing to a decided order: such a run ends with everything published and handled, the
    restaurant acknowledged, and the order holding exactly the restaurant's decision.
   */
  lemma {:induction false} OrderGetsDecided(c: Config, t: Trip)
    requires ValidConfig(c) && c.connected && Ready(t)
    ensures var s := Exec(c, Start(), Route(t) + [HandleStatus(0)]);
      t.orderId in s.creation.store.orders && s.creation.store.orders[t.orderId].status == t.decision &&
      HasDecision(s.partner, t.orderId, t.decision) && Drained(s) &&
      t.orderId in s.restaurant.orders && s.restaurant.orders[t.orderId].acknowledged
  {
    var steps := Route(t) + [HandleStatus(0)];
    EndsDrained(c, t);
    AcknowledgedIsRecorded(c, steps, t.orderId);
    DrainedAgrees(c, steps, t.orderId, t.decision);
  }

  lemma HandlesLast(c: Config, s: System, t: Trip)
    requires Ready(t) && Returned(s, t) && HandledStatus(c, s, 0).partner == s.partner
    requires t.statusEventId in HandledStatus(c, s, 0).creation.store.inbox
    ensures Drained(HandledStatus(c, s, 0))
  {
  }

  lemma HandlesInPlace(c: Config, s: System)
    requires s.partner.outbox.log != []
    ensures HandledStatus(c, s, 0).restaurant == s.restaurant
  {
    var read := HandleIsTaken(c, s, 0);
    TakenInPlace(s, read);
  }

  lemma TakenInPlace(s: System, read: Option<PartnerEvent>)
    ensures Taken(s, read).restaurant == s.restaurant
  {
  }

  // One order with one item at one cent, and either decision.
  function SampleTrip(decision: Status): Trip {
    Trip(C.Input("request", "key", N.Command("user", "restaurant", [N.RequestedItem("item", 1, ["extra"])])),
         [NewItem("item", "Item", 1, 1, ["extra"])], "order", "event", 1,
         P.Integration("store", "url", "digest", true), "submission", decision, "callback", 1, "status-event")
  }

  lemma {:induction false} SampleTripIsReady(decision: Status)
    requires R.IsDecision(decision)
    ensures Ready(SampleTrip(decision))
  {
    var t := SampleTrip(decision);
    assert FirstInvalid(t.items, 0) == None;
    var lines := ExactLines(t.items);
    assert lines == [1];
    assert lines[..0] == [] && lines[..1] == lines;
    Money.SumExtend(lines, 0);
  }
}
