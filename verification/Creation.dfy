/**
  Creating orders idempotently. One request looks its key up, prices its items with the catalog and
  then stores the order under the key's lock; any number of requests interleave at those steps.
 */
module Creation {
  import opened Wrappers
  import opened OrderDomain
  import opened Events
  import opened OrderStore
  import C = Canonical

  datatype Input = Input(requestId: string, key: string, command: C.Command)

  // CatalogError stands for every error the catalog client may return.
  datatype ServiceError = InvalidCommand | CatalogError | BadOrder(order: OrderError) | BadEnvelope | StoreError(store: Error)

  type Reply = Result<Created, ServiceError>

  predicate ValidInput(input: Input) {
    input.command.userId != "" && input.key != "" && input.command.restaurantId != "" && input.command.items != [] &&
    forall i :: 0 <= i < |input.command.items| ==>
      input.command.items[i].menuItemId != "" && input.command.items[i].quantity > 0
  }

  method ValidateCreateOrderInput(input: Input) returns (ok: bool)
    ensures ok <==> ValidInput(input)
  {
    if input.command.userId == "" || input.key == "" || input.command.restaurantId == "" || |input.command.items| == 0 {
      return false;
    }
    for i := 0 to |input.command.items|
      invariant forall j :: 0 <= j < i ==>
        input.command.items[j].menuItemId != "" && input.command.items[j].quantity > 0
    {
      var item := input.command.items[i];
      if item.menuItemId == "" || item.quantity <= 0 {
        return false;
      }
    }
    return true;
  }

  function Answer(r: Result<Created, Error>): Reply {
    match r
    case Success(created) => Success(created)
    case Failure(e) => Failure(StoreError(e))
  }

  // The lookup step: a reply, or None when the key is new.
  function Look(s: State, input: Input, fingerprint: string): Option<Reply> {
    if !ValidInput(input) then Some(Failure(InvalidCommand))
    else match Find(s, input.command.userId, input.key, fingerprint)
      case Some(r) => Some(Answer(r))
      case None => None
  }

  // The catalog step: what will be stored, with ids drawn for it.
  function Price(input: Input, fingerprint: string, catalog: Option<seq<NewItem>>, orderId: string, eventId: string, now: int)
    : Result<CreateRecord, ServiceError>
  {
    if catalog.None? then Failure(CatalogError)
    else match OrderFor(NewOrderInput(orderId, input.command.userId, input.command.restaurantId, catalog.value))
      case Failure(e) => Failure(BadOrder(e))
      case Success(order) =>
        match OrderEvent(order, eventId, input.requestId, input.key, now)
        case None => Failure(BadEnvelope)
        case Some(event) => Success(CreateRecord(order, input.key, fingerprint, event))
  }

  /**
    What is stored for a priced request: an order for its user and restaurant with the catalog's items at
    the catalog's prices, under its key and fingerprint, and an event that names its request and key.
   */
  lemma PriceFields(input: Input, fingerprint: string, catalog: Option<seq<NewItem>>, orderId: string, eventId: string, now: int)
    requires Price(input, fingerprint, catalog, orderId, eventId, now).Success?
    ensures var r := Price(input, fingerprint, catalog, orderId, eventId, now).value;
      catalog.Some? && r.key == input.key && r.fingerprint == fingerprint &&
      r.order.id == orderId && r.order.userId == input.command.userId && r.order.restaurantId == input.command.restaurantId &&
      r.order.status == Pending && r.order.version == 1 && |r.order.items| == |catalog.value| &&
      (forall i :: 0 <= i < |r.order.items| ==>
         var (line, item) := (r.order.items[i], catalog.value[i]);
         line.menuItemId == item.menuItemId && line.name == item.name && line.unitPrice == item.unitPrice &&
         line.quantity == item.quantity && line.modifiers == item.modifiers) &&
      r.event.eventId == eventId && r.event.aggregateId == r.event.partitionKey == orderId &&
      r.event.correlationId == input.requestId && r.event.causationId == input.key && r.event.occurredAt == now &&
      r.event.payload.userId == input.command.userId && r.event.payload.restaurantId == input.command.restaurantId &&
      r.event.payload.items == r.order.items && r.event.payload.total == r.order.total
  {
    var asked := NewOrderInput(orderId, input.command.userId, input.command.restaurantId, catalog.value);
    OrderForFields(asked);
    OrderEventFields(OrderFor(asked).value, eventId, input.requestId, input.key, now);
  }

  /** Pricing fails exactly without a catalog answer, for an order NewOrder refuses, or without an event id, and says which. */
  lemma PriceFails(input: Input, fingerprint: string, catalog: Option<seq<NewItem>>, orderId: string, eventId: string, now: int)
    ensures Price(input, fingerprint, catalog, orderId, eventId, now).Failure? <==>
      catalog.None? || eventId == "" || orderId == "" || input.command.userId == "" || input.command.restaurantId == "" ||
      catalog.value == [] ||
      exists i :: 0 <= i < |catalog.value| &&
        (catalog.value[i].menuItemId == "" || catalog.value[i].name == "" ||
         catalog.value[i].quantity <= 0 || catalog.value[i].unitPrice <= 0)
    ensures var r := Price(input, fingerprint, catalog, orderId, eventId, now);
      r.Failure? ==>
        (r.error == CatalogError <==> catalog.None?) &&
        (r.error == BadEnvelope ==> eventId == "") &&
        (r.error.BadOrder? <==> catalog.Some? && r.error != BadEnvelope) && !r.error.StoreError? && !r.error.InvalidCommand?
  {
    if catalog.Some? {
      var asked := NewOrderInput(orderId, input.command.userId, input.command.restaurantId, catalog.value);
      OrderForFields(asked);
      if OrderFor(asked).Success? { OrderEventFields(OrderFor(asked).value, eventId, input.requestId, input.key, now); }
    }
  }

  /** The lookup's reply: an incomplete request is refused, a new key goes on, a used one is answered from the store. */
  lemma LookReplies(s: State, input: Input, fingerprint: string)
    ensures var reply := Look(s, input, fingerprint);
      if input.command.userId == "" || input.key == "" || input.command.restaurantId == "" || input.command.items == [] ||
         exists i :: 0 <= i < |input.command.items| &&
           (input.command.items[i].menuItemId == "" || input.command.items[i].quantity <= 0)
      then reply == Some(Failure(InvalidCommand))
      else if (input.command.userId, input.key) !in s.keys then reply == None
      else
        var row := s.keys[(input.command.userId, input.key)];
        if row.fingerprint != fingerprint then reply == Some(Failure(StoreError(IdempotencyConflict)))
        else if row.orderId in s.orders then reply == Some(Success(Created(s.orders[row.orderId], true)))
        else reply == Some(Failure(StoreError(OrderNotFound)))
  {
  }

  // The service method, run without interruption.
  method CreateOrder(store: MemoryStore, input: Input, catalog: Option<seq<NewItem>>, orderId: string, eventId: string, now: int)
    returns (r: Reply, asked: bool)
    requires store.Valid()
    modifies store
    ensures store.Valid()
    ensures asked <==> Look(old(store.Contents()), input, C.Fingerprint(input.command)).None?
    ensures var (s, fingerprint) := (old(store.Contents()), C.Fingerprint(input.command));
      match Look(s, input, fingerprint)
      case Some(reply) => store.Contents() == s && r == reply
      case None =>
        match Price(input, fingerprint, catalog, orderId, eventId, now)
        case Failure(e) => store.Contents() == s && r == Failure(e)
        case Success(record) => store.Contents() == Create(s, record).0 && r == Answer(Create(s, record).1)
  {
    asked := false;
    var ok := ValidateCreateOrderInput(input);
    if !ok {
      return Failure(InvalidCommand), false;
    }
    var fingerprint := C.FingerprintCreateOrderRequest(input.command);
    var found := store.FindOrderByIdempotencyKey(input.command.userId, input.key, fingerprint);
    if found.Some? {
      return Answer(found.value), false;
    }
    asked := true;
    if catalog.None? {
      return Failure(CatalogError), true;
    }
    var order := NewOrder(NewOrderInput(orderId, input.command.userId, input.command.restaurantId, catalog.value));
    if order.Failure? {
      return Failure(BadOrder(order.error)), true;
    }
    var event := OrderEvent(order.value, eventId, input.requestId, input.key, now);
    if event.None? {
      return Failure(BadEnvelope), true;
    }
    var created := store.CreateOrder(CreateRecord(order.value, input.key, fingerprint, event.value));
    r := Answer(created);
  }

  // ----- interleaved requests -----

  datatype Phase = Looked | Priced(record: CreateRecord) | Replied(reply: Reply)

  datatype Request = Request(input: Input, fingerprint: string, phase: Phase)

  // `used` holds every id ever drawn.
  datatype System = System(store: State, requests: map<string, Request>, used: set<string>)

  datatype Step =
    | Begin(request: string, input: Input)
    | AskCatalog(request: string, catalog: Option<seq<NewItem>>, orderId: string, eventId: string, now: int)
    | Save(request: string)
    | Vanish(request: string)
    | PartnerApplies(event: PartnerEvent)

  function Start(): System { System(Empty(), map[], {}) }

  function Begun(s: State, input: Input): Request {
    var fingerprint := C.Fingerprint(input.command);
    Request(input, fingerprint, match Look(s, input, fingerprint) case Some(reply) => Replied(reply) case None => Looked)
  }

  function Asked(r: Request, catalog: Option<seq<NewItem>>, orderId: string, eventId: string, now: int): Request {
    r.(phase := match Price(r.input, r.fingerprint, catalog, orderId, eventId, now)
      case Success(record) => Priced(record)
      case Failure(e) => Replied(Failure(e)))
  }

  function Next(s: System, step: Step): System {
    match step
    case Begin(request, input) =>
      if request in s.requests then s else s.(requests := s.requests[request := Begun(s.store, input)])
    case AskCatalog(request, catalog, orderId, eventId, now) =>
      if request !in s.requests || s.requests[request].phase != Looked then s
      else if orderId in s.used || eventId in s.used || orderId == eventId then s
      else
        s.(requests := s.requests[request := Asked(s.requests[request], catalog, orderId, eventId, now)],
           used := s.used + {orderId, eventId})
    case Save(request) =>
      if request !in s.requests || !s.requests[request].phase.Priced? then s
      else
        var r := s.requests[request];
        var (store, created) := Create(s.store, r.phase.record);
        s.(store := store, requests := s.requests[request := r.(phase := Replied(Answer(created)))])
    case Vanish(request) =>
      if request in s.requests && !s.requests[request].phase.Replied? then s.(requests := s.requests - {request}) else s
    case PartnerApplies(event) => s.(store := Apply(s.store, event).0)
  }

  function Exec(steps: seq<Step>): System {
    if steps == [] then Start() else Next(Exec(steps[..|steps| - 1]), steps[|steps| - 1])
  }

  // The order a request has been told it created.
  function CreatedId(r: Request): Option<string> {
    if r.phase.Replied? && r.phase.reply.Success? && !r.phase.reply.value.reused then Some(r.phase.reply.value.order.id) else None
  }

  // Keys, orders and outbox events are in one-to-one correspondence.

  ghost predicate HasKey(s: State, id: string)
    requires id in s.orders
  {
    exists k :: k in s.keys && s.keys[k].orderId == id && k.0 == s.orders[id].userId
  }

  ghost predicate HasEvent(s: State, id: string) {
    exists i :: 0 <= i < |s.outbox| && s.outbox[i].aggregateId == id
  }

  ghost predicate OneKeyEach(s: State) {
    (forall k, l :: k in s.keys && l in s.keys && s.keys[k].orderId == s.keys[l].orderId ==> k == l) &&
    (forall id :: id in s.orders ==> HasKey(s, id))
  }

  ghost predicate OneEventEach(s: State) {
    (forall i, j :: 0 <= i < j < |s.outbox| ==>
       s.outbox[i].aggregateId != s.outbox[j].aggregateId && s.outbox[i].eventId != s.outbox[j].eventId) &&
    (forall i :: 0 <= i < |s.outbox| ==> s.outbox[i].aggregateId in s.orders) &&
    (forall id :: id in s.orders ==> HasEvent(s, id))
  }

  // A priced order is new: its ids appear nowhere in the store.
  ghost predicate Unused(s: State, record: CreateRecord) {
    record.order.id !in s.orders && forall i :: 0 <= i < |s.outbox| ==> s.outbox[i].eventId != record.event.eventId
  }

  ghost predicate RequestOk(s: System, r: Request) {
    match r.phase
    case Looked => true
    case Priced(record) =>
      record.order.userId == r.input.command.userId && record.key == r.input.key && record.fingerprint == r.fingerprint &&
      record.event.aggregateId == record.order.id && record.order.id in s.used && record.event.eventId in s.used &&
      Unused(s.store, record)
    case Replied(reply) =>
      reply.Success? ==>
        var k := (r.input.command.userId, r.input.key);
        k in s.store.keys && s.store.keys[k] == KeyRow(r.fingerprint, reply.value.order.id)
  }

  // Ids drawn for different requests differ.
  predicate OwnIds(a: Request, b: Request) {
    (a.phase.Priced? && b.phase.Priced? ==>
       a.phase.record.order.id != b.phase.record.order.id && a.phase.record.event.eventId != b.phase.record.event.eventId) &&
    (CreatedId(a).Some? ==> CreatedId(a) != CreatedId(b))
  }

  ghost predicate StoredIdsUsed(s: System) {
    (forall id :: id in s.store.orders ==> id in s.used) &&
    (forall i :: 0 <= i < |s.store.outbox| ==> s.store.outbox[i].eventId in s.used)
  }

  ghost predicate RequestsOk(s: System) {
    (forall r :: r in s.requests ==> RequestOk(s, s.requests[r])) &&
    (forall q, r {:trigger OwnIds(s.requests[q], s.requests[r])} ::
       q in s.requests && r in s.requests && q != r ==> OwnIds(s.requests[q], s.requests[r]))
  }

  ghost predicate Inv(s: System) {
    StoreOk(s.store) && OneKeyEach(s.store) && OneEventEach(s.store) && StoredIdsUsed(s) && RequestsOk(s)
  }

  lemma CreateKeepsKeys(s: State, r: CreateRecord)
    requires StoreOk(s) && OneKeyEach(s) && r.order.id !in s.orders
    ensures OneKeyEach(Create(s, r).0)
  {
    var s' := Create(s, r).0;
    var key := (r.order.userId, r.key);
    if key !in s.keys {
      assert s'.keys[key].orderId == r.order.id;
      forall id | id in s'.orders ensures HasKey(s', id) {
        if id != r.order.id {
          assert HasKey(s, id);
          var k :| k in s.keys && s.keys[k].orderId == id && k.0 == s.orders[id].userId;
          assert s'.keys[k] == s.keys[k];
        }
      }
    }
  }

  lemma CreateKeepsEvents(s: State, r: CreateRecord)
    requires StoreOk(s) && OneEventEach(s) && Unused(s, r) && r.event.aggregateId == r.order.id
    ensures OneEventEach(Create(s, r).0)
  {
    var s' := Create(s, r).0;
    if (r.order.userId, r.key) !in s.keys {
      forall id | id in s'.orders ensures HasEvent(s', id) {
        if id == r.order.id {
          assert s'.outbox[|s.outbox|].aggregateId == id;
        } else {
          assert HasEvent(s, id);
          var i :| 0 <= i < |s.outbox| && s.outbox[i].aggregateId == id;
          assert s'.outbox[i].aggregateId == id;
        }
      }
    }
  }

  // The store's part of a step, seen by a request that did not take it.
  lemma StoreStepKeepsRequest(s: System, s': System, r: Request)
    requires RequestOk(s, r) && s.used <= s'.used
    requires forall k :: k in s.store.keys ==> k in s'.store.keys && s'.store.keys[k] == s.store.keys[k]
    requires r.phase.Priced? ==> Unused(s'.store, r.phase.record)
    ensures RequestOk(s', r)
  {
  }

  lemma SaveShape(s: System, request: string)
    requires StoreOk(s.store) && request in s.requests && s.requests[request].phase.Priced? && RequestOk(s, s.requests[request])
    ensures var s' := Next(s, Save(request));
      RequestOk(s', s'.requests[request]) && !s'.requests[request].phase.Priced? &&
      s'.requests[request].fingerprint == s.requests[request].fingerprint &&
      s'.requests[request].input == s.requests[request].input &&
      (CreatedId(s'.requests[request]).Some? ==>
         CreatedId(s'.requests[request]).value == s.requests[request].phase.record.order.id)
    ensures var s' := Next(s, Save(request));
      var record := s.requests[request].phase.record;
      s'.used == s.used &&
      (forall k :: k in s.store.keys ==> k in s'.store.keys && s'.store.keys[k] == s.store.keys[k]) &&
      (forall id :: id in s'.store.orders ==> id in s.store.orders || id == record.order.id) &&
      (s'.store.outbox == s.store.outbox || s'.store.outbox == s.store.outbox + [record.event])
  {
  }

  lemma SaveKeepsRequests(s: System, request: string)
    requires Inv(s) && request in s.requests && s.requests[request].phase.Priced?
    ensures RequestsOk(Next(s, Save(request)))
  {
    var s' := Next(s, Save(request));
    assert RequestOk(s, s.requests[request]);
    SaveShape(s, request);
    forall r | r in s'.requests ensures RequestOk(s', s'.requests[r]) {
      if r != request { SaveKeepsOther(s, request, r); }
    }
    forall q, r | q in s'.requests && r in s'.requests && q != r ensures OwnIds(s'.requests[q], s'.requests[r]) {
      SaveKeepsOwnIds(s, request, q, r);
    }
  }

  lemma SaveKeepsOwnIds(s: System, request: string, q: string, r: string)
    requires Inv(s) && request in s.requests && s.requests[request].phase.Priced? && q in s.requests && r in s.requests && q != r
    ensures var s' := Next(s, Save(request));
      q in s'.requests && r in s'.requests && OwnIds(s'.requests[q], s'.requests[r])
  {
    assert RequestOk(s, s.requests[request]);
    SaveShape(s, request);
    assert OwnIds(s.requests[q], s.requests[r]);
    CreatedIsStored(s, q);
    CreatedIsStored(s, r);
  }

  lemma SaveKeepsOther(s: System, request: string, r: string)
    requires Inv(s) && request in s.requests && s.requests[request].phase.Priced? && r in s.requests && r != request
    ensures RequestOk(Next(s, Save(request)), s.requests[r])
  {
    assert RequestOk(s, s.requests[r]) && OwnIds(s.requests[r], s.requests[request]);
    assert RequestOk(s, s.requests[request]);
    SaveShape(s, request);
    StoreStepKeepsRequest(s, Next(s, Save(request)), s.requests[r]);
  }

  lemma CreatedIsStored(s: System, r: string)
    requires Inv(s) && r in s.requests
    ensures CreatedId(s.requests[r]).Some? ==> CreatedId(s.requests[r]).value in s.store.orders
  {
    assert RequestOk(s, s.requests[r]);
  }

  lemma SaveKeepsInv(s: System, request: string)
    requires Inv(s) && request in s.requests && s.requests[request].phase.Priced?
    ensures Inv(Next(s, Save(request)))
  {
    var record := s.requests[request].phase.record;
    assert RequestOk(s, s.requests[request]);
    CreateKeepsKeys(s.store, record);
    CreateKeepsEvents(s.store, record);
    SaveKeepsRequests(s, request);
    SaveKeepsIds(s, request);
  }

  lemma SaveKeepsIds(s: System, request: string)
    requires StoreOk(s.store) && StoredIdsUsed(s) && request in s.requests && s.requests[request].phase.Priced?
    requires RequestOk(s, s.requests[request])
    ensures StoreOk(Next(s, Save(request)).store) && StoredIdsUsed(Next(s, Save(request)))
  {
    SaveShape(s, request);
  }

  lemma PriceShape(r: Request, catalog: Option<seq<NewItem>>, orderId: string, eventId: string, now: int)
    ensures var r' := Asked(r, catalog, orderId, eventId, now);
      r'.input == r.input && r'.fingerprint == r.fingerprint && CreatedId(r').None? &&
      match r'.phase
      case Priced(record) =>
        record.order.id == orderId && record.order.userId == r.input.command.userId && record.key == r.input.key &&
        record.fingerprint == r.fingerprint && record.event.eventId == eventId && record.event.aggregateId == orderId
      case Replied(reply) => reply.Failure?
      case Looked => false
  {
  }

  lemma PriceKeepsInv(s: System, request: string, catalog: Option<seq<NewItem>>, orderId: string, eventId: string, now: int)
    requires Inv(s)
    ensures Inv(Next(s, AskCatalog(request, catalog, orderId, eventId, now)))
  {
    var s' := Next(s, AskCatalog(request, catalog, orderId, eventId, now));
    if s' != s {
      PriceShape(s.requests[request], catalog, orderId, eventId, now);
      forall r | r in s'.requests ensures RequestOk(s', s'.requests[r]) {
        assert RequestOk(s, s.requests[r]);
        if r != request { StoreStepKeepsRequest(s, s', s.requests[r]); }
      }
      forall q, r | q in s'.requests && r in s'.requests && q != r ensures OwnIds(s'.requests[q], s'.requests[r]) {
        PriceKeepsOwnIds(s, request, catalog, orderId, eventId, now, q, r);
      }
    }
  }

  lemma PriceKeepsOwnIds(
    s: System, request: string, catalog: Option<seq<NewItem>>, orderId: string, eventId: string, now: int, q: string, r: string)
    requires Inv(s) && request in s.requests && q in s.requests && r in s.requests && q != r
    requires orderId !in s.used && eventId !in s.used && s.requests[request].phase == Looked
    ensures var s' := Next(s, AskCatalog(request, catalog, orderId, eventId, now));
      q in s'.requests && r in s'.requests && OwnIds(s'.requests[q], s'.requests[r])
  {
    PriceShape(s.requests[request], catalog, orderId, eventId, now);
    assert OwnIds(s.requests[q], s.requests[r]);
    assert RequestOk(s, s.requests[q]) && RequestOk(s, s.requests[r]);
  }

  lemma BeginShape(s: State, input: Input)
    ensures var r := Begun(s, input);
      r.input == input && r.fingerprint == C.Fingerprint(input.command) && CreatedId(r).None? && !r.phase.Priced? &&
      (r.phase.Replied? && r.phase.reply.Success? ==>
         var k := (input.command.userId, input.key);
         k in s.keys && s.keys[k].fingerprint == r.fingerprint && s.keys[k].orderId in s.orders &&
         r.phase.reply.value.order == s.orders[s.keys[k].orderId])
  {
  }

  lemma BeginKeepsInv(s: System, request: string, input: Input)
    requires Inv(s)
    ensures Inv(Next(s, Begin(request, input)))
  {
    var s' := Next(s, Begin(request, input));
    BeginShape(s.store, input);
    if request !in s.requests {
      forall r | r in s'.requests ensures RequestOk(s', s'.requests[r]) {
        if r != request {
          assert RequestOk(s, s.requests[r]);
          StoreStepKeepsRequest(s, s', s.requests[r]);
        }
      }
      forall q, r | q in s'.requests && r in s'.requests && q != r ensures OwnIds(s'.requests[q], s'.requests[r]) {
        if q != request && r != request { assert OwnIds(s.requests[q], s.requests[r]); }
      }
    }
  }

  lemma VanishKeepsInv(s: System, request: string)
    requires Inv(s)
    ensures Inv(Next(s, Vanish(request)))
  {
    var s' := Next(s, Vanish(request));
    forall r | r in s'.requests ensures RequestOk(s', s'.requests[r]) {
      assert RequestOk(s, s.requests[r]);
      StoreStepKeepsRequest(s, s', s.requests[r]);
    }
    forall q, r | q in s'.requests && r in s'.requests && q != r ensures OwnIds(s'.requests[q], s'.requests[r]) {
      assert OwnIds(s.requests[q], s.requests[r]);
    }
  }

  lemma ApplyShape(s: State, event: PartnerEvent)
    ensures var s' := Apply(s, event).0;
      s'.orders.Keys == s.orders.Keys && s'.keys == s.keys && s'.outbox == s.outbox &&
      forall id :: id in s.orders ==> s'.orders[id].userId == s.orders[id].userId
  {
    assert (if event.orderId in s.orders then s.orders.Keys + {event.orderId} else s.orders.Keys) == s.orders.Keys;
  }

  lemma SameKeysKeepStore(s: State, s': State)
    requires OneKeyEach(s) && OneEventEach(s)
    requires s'.orders.Keys == s.orders.Keys && s'.keys == s.keys && s'.outbox == s.outbox
    requires forall id :: id in s.orders ==> s'.orders[id].userId == s.orders[id].userId
    ensures OneKeyEach(s') && OneEventEach(s')
  {
    forall id | id in s'.orders ensures HasKey(s', id) && HasEvent(s', id) {
      assert HasKey(s, id) && HasEvent(s, id);
    }
  }

  lemma ApplyKeepsInv(s: System, event: PartnerEvent)
    requires Inv(s)
    ensures Inv(Next(s, PartnerApplies(event)))
  {
    var s' := Next(s, PartnerApplies(event));
    ApplyShape(s.store, event);
    SameKeysKeepStore(s.store, s'.store);
    ApplyKeepsStoreOk(s.store, event);
    SameKeysKeepRequests(s, s');
  }

  lemma ApplyKeepsStoreOk(s: State, event: PartnerEvent)
    requires StoreOk(s)
    ensures StoreOk(Apply(s, event).0)
  {
  }

  lemma SameKeysKeepRequests(s: System, s': System)
    requires StoredIdsUsed(s) && RequestsOk(s) && s'.requests == s.requests && s'.used == s.used
    requires s'.store.orders.Keys == s.store.orders.Keys && s'.store.keys == s.store.keys && s'.store.outbox == s.store.outbox
    ensures StoredIdsUsed(s') && RequestsOk(s')
  {
    forall id | id in s'.store.orders ensures id in s'.used { assert id in s.store.orders.Keys; }
    forall r | r in s'.requests ensures RequestOk(s', s'.requests[r]) {
      assert RequestOk(s, s.requests[r]);
      StoreStepKeepsRequest(s, s', s.requests[r]);
    }
  }

  lemma NextKeepsInv(s: System, step: Step)
    requires Inv(s)
    ensures Inv(Next(s, step))
  {
    match step
    case Begin(request, input) => BeginKeepsInv(s, request, input);
    case AskCatalog(request, catalog, orderId, eventId, now) => PriceKeepsInv(s, request, catalog, orderId, eventId, now);
    case Save(request) =>
      if request in s.requests && s.requests[request].phase.Priced? { SaveKeepsInv(s, request); }
    case Vanish(request) => VanishKeepsInv(s, request);
    case PartnerApplies(event) => ApplyKeepsInv(s, event);
  }

  lemma {:induction false} ExecKeepsInv(steps: seq<Step>)
    ensures Inv(Exec(steps))
  {
    if steps != [] {
      ExecKeepsInv(steps[..|steps| - 1]);
      NextKeepsInv(Exec(steps[..|steps| - 1]), steps[|steps| - 1]);
    }
  }

  lemma {:induction false} FingerprintsAreCanonical(steps: seq<Step>, q: string)
    requires q in Exec(steps).requests
    ensures Exec(steps).requests[q].fingerprint == C.Fingerprint(Exec(steps).requests[q].input.command)
  {
    var n := |steps| - 1;
    var s := Exec(steps[..n]);
    if q in s.requests {
      RequestLasts(s, steps[n], q);
      FingerprintsAreCanonical(steps[..n], q);
    } else {
      RequestBegins(s, steps[n], q);
      BeginShape(s.store, steps[n].input);
    }
  }

  lemma RequestLasts(s: System, step: Step, q: string)
    requires q in s.requests && q in Next(s, step).requests
    ensures Next(s, step).requests[q].input == s.requests[q].input
    ensures Next(s, step).requests[q].fingerprint == s.requests[q].fingerprint
  {
  }

  lemma RequestBegins(s: System, step: Step, q: string)
    requires q !in s.requests && q in Next(s, step).requests
    ensures step.Begin? && Next(s, step).requests[q] == Begun(s.store, step.input)
  {
  }

  function SuccessOf(s: System, request: string): Option<Created> {
    if request in s.requests && s.requests[request].phase.Replied? && s.requests[request].phase.reply.Success?
    then Some(s.requests[request].phase.reply.value)
    else None
  }

  /**
    Idempotency over every interleaving: successful replies to one (user, key) name one order and
    belong to one canonical command, and at most one of them is the reply that created it.
   */
  lemma {:induction false} OneOrderPerKey(steps: seq<Step>, q: string, r: string)
    requires var s := Exec(steps);
      SuccessOf(s, q).Some? && SuccessOf(s, r).Some? &&
      s.requests[q].input.key == s.requests[r].input.key &&
      s.requests[q].input.command.userId == s.requests[r].input.command.userId
    ensures var s := Exec(steps);
      SuccessOf(s, q).value.order.id == SuccessOf(s, r).value.order.id &&
      C.Fingerprint(s.requests[q].input.command) == C.Fingerprint(s.requests[r].input.command) &&
      (q != r ==> SuccessOf(s, q).value.reused || SuccessOf(s, r).value.reused)
  {
    var s := Exec(steps);
    ExecKeepsInv(steps);
    assert RequestOk(s, s.requests[q]) && RequestOk(s, s.requests[r]);
    if q != r { assert OwnIds(s.requests[q], s.requests[r]); }
    FingerprintsAreCanonical(steps, q);
    FingerprintsAreCanonical(steps, r);
  }

  /** Nothing is written twice: orders, keys and outbox events stay in one-to-one correspondence. */
  lemma {:induction false} OneOrderOneKeyOneEvent(steps: seq<Step>)
    ensures StoreOk(Exec(steps).store) && OneKeyEach(Exec(steps).store) && OneEventEach(Exec(steps).store)
  {
    ExecKeepsInv(steps);
  }

  /**
    A clean retry of a stored request is answered from the store whatever the catalog says now, and
    a clean request for anything else under the same key is refused.
   */
  lemma {:induction false} RetryIsAnsweredFromStore(steps: seq<Step>, q: string, retry: Input)
    requires SuccessOf(Exec(steps), q).Some? && ValidInput(retry)
    requires var input := Exec(steps).requests[q].input;
      retry.key == input.key && retry.command.userId == input.command.userId &&
      C.Clean(retry.command) && C.Clean(input.command)
    ensures var s := Exec(steps);
      var id := SuccessOf(s, q).value.order.id;
      id in s.store.orders &&
      Look(s.store, retry, C.Fingerprint(retry.command)) ==
        Some(if C.SameRequest(retry.command, s.requests[q].input.command)
             then Success(Created(s.store.orders[id], true))
             else Failure(StoreError(IdempotencyConflict)))
  {
    var s := Exec(steps);
    ExecKeepsInv(steps);
    FingerprintsAreCanonical(steps, q);
    StoredAnswer(s, q, retry, C.Fingerprint(retry.command));
    C.FingerprintIdentifiesRequest(retry.command, s.requests[q].input.command);
  }

  lemma StoredAnswer(s: System, q: string, retry: Input, fingerprint: string)
    requires Inv(s) && SuccessOf(s, q).Some? && ValidInput(retry)
    requires retry.key == s.requests[q].input.key && retry.command.userId == s.requests[q].input.command.userId
    ensures var id := SuccessOf(s, q).value.order.id;
      id in s.store.orders &&
      Look(s.store, retry, fingerprint) ==
        Some(if fingerprint == s.requests[q].fingerprint
             then Success(Created(s.store.orders[id], true))
             else Failure(StoreError(IdempotencyConflict)))
  {
    assert RequestOk(s, s.requests[q]);
  }

  // ----- whose order a reply names -----

  lemma ReplyStays(s: System, step: Step, q: string)
    requires q in s.requests && s.requests[q].phase.Replied?
    ensures q in Next(s, step).requests && Next(s, step).requests[q] == s.requests[q]
  {
  }

  lemma BegunIsComplete(s: State, input: Input)
    requires !(Begun(s, input).phase.Replied? && Begun(s, input).phase.reply.Failure?)
    ensures input.command.userId != "" && input.key != "" && input.command.restaurantId != "" && input.command.items != [] &&
      forall i :: 0 <= i < |input.command.items| ==> input.command.items[i].menuItemId != "" && input.command.items[i].quantity > 0
  {
  }

  /** An incomplete request is refused at once: whatever is looked up, priced or answered with an order was complete. */
  lemma {:induction false} OnlyCompleteRequestsProceed(steps: seq<Step>, q: string)
    requires q in Exec(steps).requests
    requires !(Exec(steps).requests[q].phase.Replied? && Exec(steps).requests[q].phase.reply.Failure?)
    ensures var input := Exec(steps).requests[q].input;
      input.command.userId != "" && input.key != "" && input.command.restaurantId != "" && input.command.items != [] &&
      forall i :: 0 <= i < |input.command.items| ==> input.command.items[i].menuItemId != "" && input.command.items[i].quantity > 0
  {
    var n := |steps| - 1;
    var s := Exec(steps[..n]);
    if q in s.requests {
      if s.requests[q].phase.Replied? { ReplyStays(s, steps[n], q); }
      RequestLasts(s, steps[n], q);
      OnlyCompleteRequestsProceed(steps[..n], q);
    } else {
      RequestBegins(s, steps[n], q);
      BeginShape(s.store, steps[n].input);
      BegunIsComplete(s.store, steps[n].input);
    }
  }

  // The request whose reply says it created the order under a key.
  ghost predicate IsCreator(s: System, k: (string, string), r: string) {
    k in s.store.keys && r in s.requests && CreatedId(s.requests[r]) == Some(s.store.keys[k].orderId) &&
    s.requests[r].fingerprint == s.store.keys[k].fingerprint && s.requests[r].input.command.userId == k.0 &&
    s.requests[r].input.key == k.1
  }

  ghost predicate HasCreator(s: System, k: (string, string)) { exists r :: IsCreator(s, k, r) }

  // What a request has priced, or is told it created, is for its own user and restaurant.
  predicate OwnOrder(s: System, r: Request) {
    (r.phase.Priced? ==>
       r.phase.record.order.userId == r.input.command.userId && r.phase.record.order.restaurantId == r.input.command.restaurantId) &&
    (CreatedId(r).Some? ==>
       CreatedId(r).value in s.store.orders && s.store.orders[CreatedId(r).value].userId == r.input.command.userId &&
       s.store.orders[CreatedId(r).value].restaurantId == r.input.command.restaurantId)
  }

  ghost predicate CreatorsOk(s: System) {
    (forall k :: k in s.store.keys ==> HasCreator(s, k)) && (forall r :: r in s.requests ==> OwnOrder(s, s.requests[r]))
  }

  lemma CreatorLasts(s: System, s': System, k: (string, string))
    requires HasCreator(s, k) && k in s'.store.keys && s'.store.keys[k] == s.store.keys[k]
    requires forall r :: r in s.requests && s.requests[r].phase.Replied? ==> r in s'.requests && s'.requests[r] == s.requests[r]
    ensures HasCreator(s', k)
  {
    var r :| IsCreator(s, k, r);
    assert IsCreator(s', k, r);
  }

  lemma PricesOwnOrder(s: System, r: Request, catalog: Option<seq<NewItem>>, orderId: string, eventId: string, now: int)
    requires r.phase == Looked
    ensures OwnOrder(s, Asked(r, catalog, orderId, eventId, now))
  {
    PriceShape(r, catalog, orderId, eventId, now);
    if catalog.Some? { OrderForFields(NewOrderInput(orderId, r.input.command.userId, r.input.command.restaurantId, catalog.value)); }
  }

  lemma AskKeepsCreators(s: System, request: string, catalog: Option<seq<NewItem>>, orderId: string, eventId: string, now: int)
    requires CreatorsOk(s)
    ensures CreatorsOk(Next(s, AskCatalog(request, catalog, orderId, eventId, now)))
  {
    var s' := Next(s, AskCatalog(request, catalog, orderId, eventId, now));
    if s' != s {
      forall k | k in s.store.keys ensures HasCreator(s', k) { CreatorLasts(s, s', k); }
      forall r | r in s'.requests ensures OwnOrder(s', s'.requests[r]) {
        if r == request { PricesOwnOrder(s', s.requests[r], catalog, orderId, eventId, now); } else { assert OwnOrder(s, s.requests[r]); }
      }
    }
  }

  lemma BeginKeepsCreators(s: System, request: string, input: Input)
    requires CreatorsOk(s)
    ensures CreatorsOk(Next(s, Begin(request, input)))
  {
    var s' := Next(s, Begin(request, input));
    BeginShape(s.store, input);
    forall k | k in s.store.keys ensures HasCreator(s', k) { CreatorLasts(s, s', k); }
    forall r | r in s'.requests ensures OwnOrder(s', s'.requests[r]) {
      if r in s.requests { assert OwnOrder(s, s.requests[r]); }
    }
  }

  lemma SaveWrites(s: System, request: string)
    requires Inv(s) && request in s.requests && s.requests[request].phase.Priced?
    ensures var (s', r) := (Next(s, Save(request)), s.requests[request].phase.record);
      var k := (r.order.userId, r.key);
      (forall id :: id in s.store.orders ==> id in s'.store.orders && s'.store.orders[id] == s.store.orders[id]) &&
      (k in s.store.keys ==> s'.store == s.store && CreatedId(s'.requests[request]).None?) &&
      (k !in s.store.keys ==>
         s'.store.keys == s.store.keys[k := KeyRow(r.fingerprint, r.order.id)] &&
         r.order.id in s'.store.orders && s'.store.orders[r.order.id] == r.order &&
         CreatedId(s'.requests[request]) == Some(r.order.id))
  {
    var r := s.requests[request].phase.record;
    assert RequestOk(s, s.requests[request]);
    if (r.order.userId, r.key) in s.store.keys { CreateUnderUsedKey(s.store, r); } else { CreateWrites(s.store, r); }
  }

  // What a save leaves behind, apart from the request that took it.
  ghost predicate SavedBy(s: System, s': System, request: string) {
    (forall id :: id in s.store.orders ==> id in s'.store.orders && s'.store.orders[id] == s.store.orders[id]) &&
    (forall k :: k in s.store.keys ==> k in s'.store.keys && s'.store.keys[k] == s.store.keys[k]) &&
    (forall k :: k in s'.store.keys && k !in s.store.keys ==> IsCreator(s', k, request)) &&
    s'.requests.Keys == s.requests.Keys && (forall q :: q in s.requests && q != request ==> s'.requests[q] == s.requests[q])
  }

  lemma SaveIsSaved(s: System, request: string)
    requires Inv(s) && request in s.requests && s.requests[request].phase.Priced? && OwnOrder(s, s.requests[request])
    ensures SavedBy(s, Next(s, Save(request)), request)
    ensures OwnOrder(Next(s, Save(request)), Next(s, Save(request)).requests[request])
  {
    assert RequestOk(s, s.requests[request]);
    SaveWrites(s, request);
    SaveShape(s, request);
  }

  lemma SavedKeepsCreators(s: System, s': System, request: string)
    requires CreatorsOk(s) && request in s.requests && !s.requests[request].phase.Replied? && SavedBy(s, s', request)
    requires OwnOrder(s', s'.requests[request])
    ensures CreatorsOk(s')
  {
    forall k | k in s'.store.keys ensures HasCreator(s', k) {
      if k in s.store.keys { CreatorLasts(s, s', k); } else { assert IsCreator(s', k, request); }
    }
    forall q | q in s'.requests ensures OwnOrder(s', s'.requests[q]) {
      if q != request { assert OwnOrder(s, s.requests[q]); }
    }
  }

  lemma SaveKeepsCreators(s: System, request: string)
    requires Inv(s) && CreatorsOk(s) && request in s.requests && s.requests[request].phase.Priced?
    ensures CreatorsOk(Next(s, Save(request)))
  {
    assert OwnOrder(s, s.requests[request]);
    SaveIsSaved(s, request);
    SavedKeepsCreators(s, Next(s, Save(request)), request);
  }

  lemma ElsewhereKeepsCreators(s: System, step: Step)
    requires CreatorsOk(s) && (step.Vanish? || step.PartnerApplies?)
    ensures CreatorsOk(Next(s, step))
  {
    var s' := Next(s, step);
    if step.PartnerApplies? { ApplyKeepsOwners(s.store, step.event); }
    forall k | k in s'.store.keys ensures HasCreator(s', k) { CreatorLasts(s, s', k); }
    forall r | r in s'.requests ensures OwnOrder(s', s'.requests[r]) { assert OwnOrder(s, s.requests[r]); }
  }

  lemma ApplyKeepsOwners(s: State, event: PartnerEvent)
    ensures var s' := Apply(s, event).0;
      s'.keys == s.keys &&
      forall id :: id in s.orders ==>
        id in s'.orders && s'.orders[id].userId == s.orders[id].userId && s'.orders[id].restaurantId == s.orders[id].restaurantId
  {
    if event.eventId in s.inbox { ApplyAgain(s, event); } else { ApplyFirst(s, event); }
  }

  lemma {:induction false} CreatorsHold(steps: seq<Step>)
    ensures CreatorsOk(Exec(steps))
  {
    if steps != [] {
      var s := Exec(steps[..|steps| - 1]);
      CreatorsHold(steps[..|steps| - 1]);
      ExecKeepsInv(steps[..|steps| - 1]);
      match steps[|steps| - 1]
      case Begin(request, input) => BeginKeepsCreators(s, request, input);
      case AskCatalog(request, catalog, orderId, eventId, now) => AskKeepsCreators(s, request, catalog, orderId, eventId, now);
      case Save(request) => if request in s.requests && s.requests[request].phase.Priced? { SaveKeepsCreators(s, request); }
      case _ => ElsewhereKeepsCreators(s, steps[|steps| - 1]);
    }
  }

  /**
    Whose order it is: behind every successful reply, repeated or not, there is one request of the same
    user under the same key with the same canonical command whose reply created the order; the order is
    that user's, for the restaurant that request named, and nobody else can read it. For clean commands
    both requests name the same restaurant.
   */
  lemma {:induction false} ReplyNamesOwnOrder(steps: seq<Step>, q: string) returns (r: string)
    requires SuccessOf(Exec(steps), q).Some?
    ensures var s := Exec(steps);
      var (id, mine) := (SuccessOf(s, q).value.order.id, s.requests[q].input);
      SuccessOf(s, r).Some? && !SuccessOf(s, r).value.reused && SuccessOf(s, r).value.order.id == id &&
      var first := s.requests[r].input;
      first.key == mine.key && first.command.userId == mine.command.userId &&
      C.Fingerprint(first.command) == C.Fingerprint(mine.command) &&
      id in s.store.orders && s.store.orders[id].userId == mine.command.userId &&
      s.store.orders[id].restaurantId == first.command.restaurantId &&
      (C.Clean(first.command) && C.Clean(mine.command) ==> s.store.orders[id].restaurantId == mine.command.restaurantId) &&
      forall other :: Get(s.store, id, other).Success? <==> other == mine.command.userId
  {
    var s := Exec(steps);
    ExecKeepsInv(steps);
    CreatorsHold(steps);
    assert RequestOk(s, s.requests[q]);
    r := CreatorOf(s, q);
    FingerprintsAreCanonical(steps, q);
    FingerprintsAreCanonical(steps, r);
    SameFingerprintSameRestaurant(s.requests[r].input.command, s.requests[q].input.command);
  }

  lemma CreatorOf(s: System, q: string) returns (r: string)
    requires CreatorsOk(s) && SuccessOf(s, q).Some? && RequestOk(s, s.requests[q])
    ensures var k := (s.requests[q].input.command.userId, s.requests[q].input.key);
      IsCreator(s, k, r) && OwnOrder(s, s.requests[r]) && s.requests[r].fingerprint == s.requests[q].fingerprint
    ensures SuccessOf(s, r).Some? && SuccessOf(s, r).value.order.id == SuccessOf(s, q).value.order.id
  {
    var k := (s.requests[q].input.command.userId, s.requests[q].input.key);
    assert HasCreator(s, k);
    r :| IsCreator(s, k, r);
    assert OwnOrder(s, s.requests[r]);
  }

  lemma SameFingerprintSameRestaurant(a: C.Command, b: C.Command)
    requires C.Fingerprint(a) == C.Fingerprint(b)
    ensures C.Clean(a) && C.Clean(b) ==> a.restaurantId == b.restaurantId
  {
    if C.Clean(a) && C.Clean(b) { C.FingerprintIdentifiesRequest(a, b); }
  }
}
