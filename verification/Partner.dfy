/**
  partner-service's database: the inbox of order events, the submissions they become, the callbacks
  restaurants send, and the outbox of partner events. Each function is one transaction.
 */
module Partner {
  import opened Wrappers
  import opened Events
  import D = OrderDomain
  import L = Lease

  datatype Integration = Integration(externalStoreId: string, url: string, secretDigest: string, active: bool)

  datatype InboxRow = InboxRow(fingerprint: OrderCreated, orderId: string)

  datatype Delivery = Delivery(
    orderId: string, restaurantId: string, externalStoreId: string, url: string,
    payload: OrderCreated, correlationId: string, sourceEventId: string)

  datatype CallbackRow = CallbackRow(orderId: string, externalStoreId: string, fingerprint: StatusChanged)

  // `index` is the UNIQUE index on submissions.order_id.
  datatype State = State(
    integrations: map<string, Integration>, inbox: map<string, InboxRow>,
    submissions: L.Table<Delivery>, index: map<string, string>,
    callbacks: map<string, CallbackRow>, outbox: L.Table<Envelope<StatusChanged>>)

  datatype Error = InvalidEvent | InboxConflict | IntegrationNotFound | InvalidCallback | Unauthorized | CallbackConflict | ConstraintViolation

  datatype Receipt = Receipt(duplicate: bool)

  function Empty(): State { State(map[], map[], L.Empty(), map[], map[], L.Empty()) }

  // Both tables share the protocol; only submissions are ever given up.
  datatype Config = Config(dispatch: L.Config, relay: L.Config)

  predicate ValidConfig(c: Config) {
    L.ValidConfig(c.dispatch) && c.relay.maxAttempts == None
  }

  function DeliveryFor(integration: Integration, eventId: string, correlationId: string, p: OrderCreated): Delivery {
    Delivery(p.orderId, p.restaurantId, integration.externalStoreId, integration.url, p, correlationId, eventId)
  }

  // The UNIQUE constraints of the submissions table.
  predicate SubmissionAllowed(s: State, submissionId: string, orderId: string, eventId: string) {
    submissionId !in s.submissions.rows && orderId !in s.index &&
    forall id :: id in s.submissions.rows ==> s.submissions.rows[id].payload.sourceEventId != eventId
  }

  // HandleOrderCreated from the drawn submission id on, and ReceiveOrder.
  function ReceiveOrder(c: Config, s: State, submissionId: string, r: OrderReceipt): (State, Result<Receipt, Error>) {
    var p := r.payload;
    if submissionId == "" then (s, Failure(InvalidEvent))
    else if r.eventId in s.inbox then
      var row := s.inbox[r.eventId];
      if row.fingerprint != p || row.orderId != p.orderId then (s, Failure(InboxConflict))
      else (s, Success(Receipt(true)))
    else if p.restaurantId !in s.integrations || !s.integrations[p.restaurantId].active then (s, Failure(IntegrationNotFound))
    else if !SubmissionAllowed(s, submissionId, p.orderId, r.eventId) then (s, Failure(ConstraintViolation))
    else
      var delivery := DeliveryFor(s.integrations[p.restaurantId], r.eventId, r.correlationId, p);
      (s.(submissions := L.Next(c.dispatch, s.submissions, L.Insert(submissionId, delivery)),
          index := s.index[p.orderId := submissionId],
          inbox := s.inbox[r.eventId := InboxRow(p, p.orderId)]),
       Success(Receipt(false)))
  }

  predicate Authorized(s: State, c: Callback, digest: string) {
    c.restaurantId in s.integrations &&
    var i := s.integrations[c.restaurantId];
    i.externalStoreId == c.externalStoreId && i.active && i.secretDigest == digest
  }

  // The submission a callback names by order, restaurant and store.
  function Named(s: State, c: Callback): Option<string> {
    if c.orderId in s.index && s.index[c.orderId] in s.submissions.rows &&
       var d := s.submissions.rows[s.index[c.orderId]].payload;
       d.orderId == c.orderId && d.restaurantId == c.restaurantId && d.externalStoreId == c.externalStoreId
    then Some(s.index[c.orderId])
    else None
  }

  // The callback service and store: a new decision, an exact replay, or an error that changes nothing.
  function ReceiveCallback(config: Config, s: State, c: Callback, digest: string, eventId: string, requestId: string, now: int)
    : (State, Result<Receipt, Error>)
  {
    match CallbackEvent(c, eventId, requestId, now)
    case None => (s, Failure(InvalidCallback))
    case Some(event) =>
      if !Authorized(s, c, digest) || Named(s, c).None? then (s, Failure(Unauthorized))
      else
        var id := Named(s, c).value;
        var status := s.submissions.rows[id].status;
        if status.Decided? && status.decision != c.status then (s, Failure(CallbackConflict))
        else if c.callbackId in s.callbacks then
          (s, if s.callbacks[c.callbackId] == CallbackRow(c.orderId, c.externalStoreId, CallbackPayload(c))
              then Success(Receipt(true)) else Failure(CallbackConflict))
        else if eventId in s.outbox.rows then (s, Failure(ConstraintViolation))
        else
          (s.(callbacks := s.callbacks[c.callbackId := CallbackRow(c.orderId, c.externalStoreId, CallbackPayload(c))],
              outbox := L.Next(config.relay, s.outbox, L.Insert(eventId, event)),
              submissions := L.Next(config.dispatch, s.submissions, L.Decide(id, c.status))),
           Success(Receipt(false)))
  }

  // ----- any sequence of order events, callbacks, dispatcher and relay steps, and integration changes -----

  datatype Step =
    | Receive(submissionId: string, receipt: OrderReceipt)
    | Call(callback: Callback, digest: string, eventId: string, requestId: string, now: int)
    | Dispatch(dispatch: L.Step<Delivery>)
    | Relay(relay: L.Step<Envelope<StatusChanged>>)
    | Integrate(restaurantId: string, integration: Integration)

  function Next(c: Config, s: State, step: Step): State {
    match step
    case Receive(submissionId, receipt) => ReceiveOrder(c, s, submissionId, receipt).0
    case Call(callback, digest, eventId, requestId, now) => ReceiveCallback(c, s, callback, digest, eventId, requestId, now).0
    case Dispatch(d) => if L.WorkerStep(d) then s.(submissions := L.Next(c.dispatch, s.submissions, d)) else s
    case Relay(r) => if L.WorkerStep(r) then s.(outbox := L.Next(c.relay, s.outbox, r)) else s
    case Integrate(restaurantId, integration) => s.(integrations := s.integrations[restaurantId := integration])
  }

  function Exec(c: Config, s: State, steps: seq<Step>): State {
    if steps == [] then s else Next(c, Exec(c, s, steps[..|steps| - 1]), steps[|steps| - 1])
  }

  // One submission per order, found through the index.
  ghost predicate IndexOk(s: State) {
    (forall o :: o in s.index ==> s.index[o] in s.submissions.rows && s.submissions.rows[s.index[o]].payload.orderId == o) &&
    (forall id :: id in s.submissions.rows ==>
       s.submissions.rows[id].payload.orderId in s.index && s.index[s.submissions.rows[id].payload.orderId] == id)
  }

  function SubmissionFor(s: State, orderId: string): L.Row<Delivery>
    requires orderId in s.index && s.index[orderId] in s.submissions.rows
  {
    s.submissions.rows[s.index[orderId]]
  }

  ghost predicate InboxRowOk(s: State, eventId: string, row: InboxRow) {
    row.orderId in s.index && s.index[row.orderId] in s.submissions.rows &&
    var d := SubmissionFor(s, row.orderId).payload;
    d.sourceEventId == eventId && d.payload == row.fingerprint
  }

  ghost predicate DeliveryOk(s: State, d: Delivery) {
    d.sourceEventId in s.inbox && s.inbox[d.sourceEventId].orderId == d.orderId &&
    d.orderId == d.payload.orderId && d.restaurantId == d.payload.restaurantId
  }

  // Inbox rows and submissions in one-to-one correspondence, with the event's payload in both.
  ghost predicate InboxOk(s: State) {
    (forall e :: e in s.inbox ==> InboxRowOk(s, e, s.inbox[e])) &&
    (forall id :: id in s.submissions.rows ==> DeliveryOk(s, s.submissions.rows[id].payload))
  }

  // A recorded callback names its submission, whose decision is the callback's.
  ghost predicate CallbackOk(s: State, id: string, row: CallbackRow) {
    row.fingerprint.callbackId == id && row.fingerprint.orderId == row.orderId &&
    row.fingerprint.externalStoreId == row.externalStoreId &&
    row.orderId in s.index && s.index[row.orderId] in s.submissions.rows &&
    var submission := SubmissionFor(s, row.orderId);
    submission.status == L.Decided(row.fingerprint.status) &&
    submission.payload.restaurantId == row.fingerprint.restaurantId && submission.payload.externalStoreId == row.externalStoreId
  }

  ghost predicate CallbacksOk(s: State) {
    forall id :: id in s.callbacks ==> CallbackOk(s, id, s.callbacks[id])
  }

  ghost predicate HasEvent(s: State, callbackId: string) {
    exists e :: e in s.outbox.rows && s.outbox.rows[e].payload.payload.callbackId == callbackId
  }

  function CallbackOf(p: StatusChanged): Callback {
    Callback(p.callbackId, p.orderId, p.restaurantId, p.externalStoreId, p.status, p.occurredAt)
  }

  // An outbox event is the event of a recorded callback.
  ghost predicate EventOk(s: State, id: string, e: Envelope<StatusChanged>) {
    CallbackEvent(CallbackOf(e.payload), id, e.correlationId, e.occurredAt) == Some(e) &&
    e.payload.callbackId in s.callbacks && s.callbacks[e.payload.callbackId].fingerprint == e.payload
  }

  // Callbacks and outbox events in one-to-one correspondence.
  ghost predicate OutboxOk(s: State) {
    (forall e :: e in s.outbox.rows ==> EventOk(s, e, s.outbox.rows[e].payload)) &&
    (forall e, f :: e in s.outbox.rows && f in s.outbox.rows ==>
       s.outbox.rows[e].payload.payload.callbackId == s.outbox.rows[f].payload.payload.callbackId ==> e == f) &&
    (forall id :: id in s.callbacks ==> HasEvent(s, id))
  }

  ghost predicate HasCallback(s: State, orderId: string, decision: D.Status) {
    exists id :: id in s.callbacks && s.callbacks[id].orderId == orderId && s.callbacks[id].fingerprint.status == decision
  }

  // A submission is decided only by a recorded callback.
  ghost predicate DecisionsOk(s: State) {
    forall id :: id in s.submissions.rows && s.submissions.rows[id].status.Decided? ==>
      HasCallback(s, s.submissions.rows[id].payload.orderId, s.submissions.rows[id].status.decision)
  }

  ghost predicate Inv(c: Config, s: State) {
    IndexOk(s) && InboxOk(s) && CallbacksOk(s) && OutboxOk(s) && DecisionsOk(s) &&
    L.Inv(c.dispatch, s.submissions) && L.Inv(c.relay, s.outbox)
  }

  // Dispatcher and relay steps keep what the rows carry and every decision.
  ghost predicate SameRows(s: State, s': State) {
    s'.inbox == s.inbox && s'.index == s.index && s'.callbacks == s.callbacks &&
    s'.submissions.rows.Keys == s.submissions.rows.Keys && s'.outbox.rows.Keys == s.outbox.rows.Keys &&
    (forall id :: id in s.submissions.rows ==>
       var (row, row') := (s.submissions.rows[id], s'.submissions.rows[id]);
       row'.payload == row.payload && (row.status.Decided? || row'.status.Decided? ==> row'.status == row.status)) &&
    (forall id :: id in s.outbox.rows ==> s'.outbox.rows[id].payload == s.outbox.rows[id].payload)
  }

  lemma SameRowsKeepSubmissions(s: State, s': State)
    requires IndexOk(s) && InboxOk(s) && SameRows(s, s')
    ensures IndexOk(s') && InboxOk(s')
  {
    forall e | e in s'.inbox ensures InboxRowOk(s', e, s'.inbox[e]) { assert InboxRowOk(s, e, s.inbox[e]); }
    forall id | id in s'.submissions.rows ensures DeliveryOk(s', s'.submissions.rows[id].payload) {
      assert DeliveryOk(s, s.submissions.rows[id].payload);
    }
  }

  lemma SameRowsKeepCallbacks(s: State, s': State)
    requires IndexOk(s) && CallbacksOk(s) && OutboxOk(s) && DecisionsOk(s) && SameRows(s, s')
    ensures CallbacksOk(s') && OutboxOk(s') && DecisionsOk(s')
  {
    forall id | id in s'.callbacks ensures CallbackOk(s', id, s'.callbacks[id]) && HasEvent(s', id) {
      assert CallbackOk(s, id, s.callbacks[id]) && HasEvent(s, id);
    }
    forall e | e in s'.outbox.rows ensures EventOk(s', e, s'.outbox.rows[e].payload) {
      assert EventOk(s, e, s.outbox.rows[e].payload);
    }
    forall id | id in s'.submissions.rows && s'.submissions.rows[id].status.Decided?
      ensures HasCallback(s', s'.submissions.rows[id].payload.orderId, s'.submissions.rows[id].status.decision)
    {
      assert HasCallback(s, s.submissions.rows[id].payload.orderId, s.submissions.rows[id].status.decision);
    }
  }

  // What a newly received order writes.
  ghost predicate Filed(s: State, s': State, submissionId: string, d: Delivery) {
    submissionId !in s.submissions.rows && d.orderId !in s.index && d.sourceEventId !in s.inbox &&
    d.orderId == d.payload.orderId && d.restaurantId == d.payload.restaurantId &&
    s'.submissions.rows == s.submissions.rows[submissionId := L.NewRow(d)] &&
    s'.index == s.index[d.orderId := submissionId] &&
    s'.inbox == s.inbox[d.sourceEventId := InboxRow(d.payload, d.orderId)] &&
    s'.callbacks == s.callbacks && s'.outbox == s.outbox
  }

  lemma ReceiveFiles(c: Config, s: State, submissionId: string, r: OrderReceipt)
    ensures var (s', answer) := ReceiveOrder(c, s, submissionId, r);
      if answer == Success(Receipt(false))
      then r.payload.restaurantId in s.integrations &&
           Filed(s, s', submissionId,
                 DeliveryFor(s.integrations[r.payload.restaurantId], r.eventId, r.correlationId, r.payload))
      else s' == s
  {
  }

  lemma FiledKeepsIndex(s: State, s': State, submissionId: string, d: Delivery)
    requires IndexOk(s) && Filed(s, s', submissionId, d)
    ensures IndexOk(s')
  {
  }

  lemma FiledKeepsInbox(s: State, s': State, submissionId: string, d: Delivery)
    requires IndexOk(s) && InboxOk(s) && Filed(s, s', submissionId, d)
    ensures InboxOk(s')
  {
    forall e | e in s'.inbox
      ensures InboxRowOk(s', e, s'.inbox[e])
    {
      if e != d.sourceEventId { assert InboxRowOk(s, e, s.inbox[e]); }
    }
    forall id | id in s'.submissions.rows ensures DeliveryOk(s', s'.submissions.rows[id].payload) {
      if id != submissionId { assert DeliveryOk(s, s.submissions.rows[id].payload); }
    }
  }

  lemma FiledKeepsCallbacks(s: State, s': State, submissionId: string, d: Delivery)
    requires IndexOk(s) && CallbacksOk(s) && OutboxOk(s) && DecisionsOk(s) && Filed(s, s', submissionId, d)
    ensures CallbacksOk(s') && OutboxOk(s') && DecisionsOk(s')
  {
    forall id | id in s'.callbacks ensures CallbackOk(s', id, s'.callbacks[id]) && HasEvent(s', id) {
      assert CallbackOk(s, id, s.callbacks[id]) && HasEvent(s, id);
    }
    forall e | e in s'.outbox.rows ensures EventOk(s', e, s'.outbox.rows[e].payload) {
      assert EventOk(s, e, s.outbox.rows[e].payload);
    }
    forall id | id in s'.submissions.rows && s'.submissions.rows[id].status.Decided?
      ensures HasCallback(s', s'.submissions.rows[id].payload.orderId, s'.submissions.rows[id].status.decision)
    {
      assert HasCallback(s, s.submissions.rows[id].payload.orderId, s.submissions.rows[id].status.decision);
    }
  }

  // What an accepted new callback writes.
  ghost predicate Recorded(s: State, s': State, c: Callback, id: string, eventId: string, event: Envelope<StatusChanged>) {
    c.callbackId !in s.callbacks && eventId !in s.outbox.rows && Named(s, c) == Some(id) &&
    (s.submissions.rows[id].status.Decided? ==> s.submissions.rows[id].status.decision == c.status) &&
    s'.inbox == s.inbox && s'.index == s.index &&
    s'.callbacks == s.callbacks[c.callbackId := CallbackRow(c.orderId, c.externalStoreId, CallbackPayload(c))] &&
    s'.outbox.rows == s.outbox.rows[eventId := L.NewRow(event)] &&
    s'.submissions.rows == s.submissions.rows[id := s.submissions.rows[id].(status := L.Decided(c.status))] &&
    CallbackEvent(c, eventId, event.correlationId, event.occurredAt) == Some(event)
  }

  lemma EventFixpoint(c: Callback, eventId: string, requestId: string, now: int)
    requires CallbackEvent(c, eventId, requestId, now).Some?
    ensures var e := CallbackEvent(c, eventId, requestId, now).value;
      e.eventId == eventId && e.payload == CallbackPayload(c) &&
      CallbackEvent(c, eventId, e.correlationId, e.occurredAt) == Some(e)
  {
  }

  lemma CallbackRecords(config: Config, s: State, c: Callback, digest: string, eventId: string, requestId: string, now: int)
    ensures var (s', r) := ReceiveCallback(config, s, c, digest, eventId, requestId, now);
      if r == Success(Receipt(false))
      then Named(s, c).Some? && CallbackEvent(c, eventId, requestId, now).Some? &&
           Recorded(s, s', c, Named(s, c).value, eventId, CallbackEvent(c, eventId, requestId, now).value)
      else s' == s
  {
    if CallbackEvent(c, eventId, requestId, now).Some? { EventFixpoint(c, eventId, requestId, now); }
  }

  lemma RecordKeepsIndex(s: State, s': State, c: Callback, id: string, eventId: string, event: Envelope<StatusChanged>)
    requires IndexOk(s) && Recorded(s, s', c, id, eventId, event)
    ensures IndexOk(s')
  {
  }

  lemma RecordKeepsInbox(s: State, s': State, c: Callback, id: string, eventId: string, event: Envelope<StatusChanged>)
    requires IndexOk(s) && InboxOk(s) && Recorded(s, s', c, id, eventId, event)
    ensures InboxOk(s')
  {
    forall e | e in s'.inbox ensures InboxRowOk(s', e, s'.inbox[e]) { assert InboxRowOk(s, e, s.inbox[e]); }
    forall k | k in s'.submissions.rows ensures DeliveryOk(s', s'.submissions.rows[k].payload) {
      assert DeliveryOk(s, s.submissions.rows[k].payload);
    }
  }

  lemma RecordKeepsCallbacks(s: State, s': State, c: Callback, id: string, eventId: string, event: Envelope<StatusChanged>)
    requires IndexOk(s) && CallbacksOk(s) && DecisionsOk(s) && Recorded(s, s', c, id, eventId, event)
    ensures CallbacksOk(s') && DecisionsOk(s')
  {
    forall k | k in s'.callbacks ensures CallbackOk(s', k, s'.callbacks[k]) {
      if k != c.callbackId {
        assert CallbackOk(s, k, s.callbacks[k]);
      }
    }
    forall k | k in s'.submissions.rows && s'.submissions.rows[k].status.Decided?
      ensures HasCallback(s', s'.submissions.rows[k].payload.orderId, s'.submissions.rows[k].status.decision)
    {
      if k == id {
        assert s'.callbacks[c.callbackId].orderId == c.orderId;
      } else {
        HasCallbackLasts(s, s', s.submissions.rows[k].payload.orderId, s.submissions.rows[k].status.decision);
      }
    }
  }

  lemma HasCallbackLasts(s: State, s': State, orderId: string, decision: D.Status)
    requires HasCallback(s, orderId, decision)
    requires forall k :: k in s.callbacks ==> k in s'.callbacks && s'.callbacks[k] == s.callbacks[k]
    ensures HasCallback(s', orderId, decision)
  {
    var k :| k in s.callbacks && s.callbacks[k].orderId == orderId && s.callbacks[k].fingerprint.status == decision;
    assert s'.callbacks[k] == s.callbacks[k];
  }

  lemma RecordKeepsEvents(s: State, s': State, c: Callback, id: string, eventId: string, event: Envelope<StatusChanged>)
    requires OutboxOk(s) && Recorded(s, s', c, id, eventId, event)
    ensures forall e :: e in s'.outbox.rows ==> EventOk(s', e, s'.outbox.rows[e].payload)
  {
    forall e | e in s'.outbox.rows ensures EventOk(s', e, s'.outbox.rows[e].payload) {
      if e != eventId { assert EventOk(s, e, s.outbox.rows[e].payload); }
    }
  }

  lemma RecordKeepsOneEvent(s: State, s': State, c: Callback, id: string, eventId: string, event: Envelope<StatusChanged>)
    requires OutboxOk(s) && Recorded(s, s', c, id, eventId, event)
    ensures forall e, f :: e in s'.outbox.rows && f in s'.outbox.rows ==>
      s'.outbox.rows[e].payload.payload.callbackId == s'.outbox.rows[f].payload.payload.callbackId ==> e == f
  {
    forall e | e in s.outbox.rows ensures s.outbox.rows[e].payload.payload.callbackId != c.callbackId {
      assert EventOk(s, e, s.outbox.rows[e].payload);
    }
    assert s'.outbox.rows[eventId].payload.payload.callbackId == c.callbackId;
  }

  lemma RecordKeepsHasEvent(s: State, s': State, c: Callback, id: string, eventId: string, event: Envelope<StatusChanged>)
    requires OutboxOk(s) && Recorded(s, s', c, id, eventId, event)
    ensures forall k :: k in s'.callbacks ==> HasEvent(s', k)
  {
    forall k | k in s'.callbacks ensures HasEvent(s', k) {
      if k == c.callbackId {
        assert s'.outbox.rows[eventId].payload.payload.callbackId == k;
      } else {
        assert HasEvent(s, k);
        var e :| e in s.outbox.rows && s.outbox.rows[e].payload.payload.callbackId == k;
        assert s'.outbox.rows[e] == s.outbox.rows[e];
      }
    }
  }

  lemma RecordKeepsLinks(s: State, s': State, c: Callback, id: string, eventId: string, event: Envelope<StatusChanged>)
    requires IndexOk(s) && InboxOk(s) && CallbacksOk(s) && OutboxOk(s) && DecisionsOk(s) && Recorded(s, s', c, id, eventId, event)
    ensures IndexOk(s') && InboxOk(s') && CallbacksOk(s') && OutboxOk(s') && DecisionsOk(s')
  {
    RecordKeepsIndex(s, s', c, id, eventId, event);
    RecordKeepsInbox(s, s', c, id, eventId, event);
    RecordKeepsCallbacks(s, s', c, id, eventId, event);
    RecordKeepsEvents(s, s', c, id, eventId, event);
    RecordKeepsOneEvent(s, s', c, id, eventId, event);
    RecordKeepsHasEvent(s, s', c, id, eventId, event);
  }

  lemma CallKeepsTables(config: Config, s: State, c: Callback, digest: string, eventId: string, requestId: string, now: int)
    requires ValidConfig(config) && L.Inv(config.dispatch, s.submissions) && L.Inv(config.relay, s.outbox)
    ensures var s' := ReceiveCallback(config, s, c, digest, eventId, requestId, now).0;
      L.Inv(config.dispatch, s'.submissions) && L.Inv(config.relay, s'.outbox)
  {
    if CallbackEvent(c, eventId, requestId, now).Some? && Named(s, c).Some? {
      L.NextKeepsInv(config.relay, s.outbox, L.Insert(eventId, CallbackEvent(c, eventId, requestId, now).value));
      L.NextKeepsInv(config.dispatch, s.submissions, L.Decide(Named(s, c).value, c.status));
    }
  }

  lemma FiledKeepsLinks(s: State, s': State, submissionId: string, d: Delivery)
    requires IndexOk(s) && InboxOk(s) && CallbacksOk(s) && OutboxOk(s) && DecisionsOk(s) && Filed(s, s', submissionId, d)
    ensures IndexOk(s') && InboxOk(s') && CallbacksOk(s') && OutboxOk(s') && DecisionsOk(s')
  {
    FiledKeepsIndex(s, s', submissionId, d);
    FiledKeepsInbox(s, s', submissionId, d);
    FiledKeepsCallbacks(s, s', submissionId, d);
  }

  lemma ReceiveKeepsTables(c: Config, s: State, submissionId: string, r: OrderReceipt)
    requires ValidConfig(c) && L.Inv(c.dispatch, s.submissions) && L.Inv(c.relay, s.outbox)
    ensures var s' := ReceiveOrder(c, s, submissionId, r).0; L.Inv(c.dispatch, s'.submissions) && L.Inv(c.relay, s'.outbox)
  {
    if r.payload.restaurantId in s.integrations {
      var d := DeliveryFor(s.integrations[r.payload.restaurantId], r.eventId, r.correlationId, r.payload);
      L.NextKeepsInv(c.dispatch, s.submissions, L.Insert(submissionId, d));
    }
  }

  lemma ReceiveKeepsInv(c: Config, s: State, submissionId: string, r: OrderReceipt)
    requires ValidConfig(c) && Inv(c, s)
    ensures Inv(c, ReceiveOrder(c, s, submissionId, r).0)
  {
    var (s', answer) := ReceiveOrder(c, s, submissionId, r);
    ReceiveFiles(c, s, submissionId, r);
    if answer == Success(Receipt(false)) {
      var d := DeliveryFor(s.integrations[r.payload.restaurantId], r.eventId, r.correlationId, r.payload);
      FiledKeepsLinks(s, s', submissionId, d);
    }
    ReceiveKeepsTables(c, s, submissionId, r);
  }

  lemma CallKeepsInv(config: Config, s: State, c: Callback, digest: string, eventId: string, requestId: string, now: int)
    requires ValidConfig(config) && Inv(config, s)
    ensures Inv(config, ReceiveCallback(config, s, c, digest, eventId, requestId, now).0)
  {
    var (s', r) := ReceiveCallback(config, s, c, digest, eventId, requestId, now);
    CallbackRecords(config, s, c, digest, eventId, requestId, now);
    if r == Success(Receipt(false)) {
      var event := CallbackEvent(c, eventId, requestId, now).value;
      var id := Named(s, c).value;
      RecordKeepsLinks(s, s', c, id, eventId, event);
    }
    CallKeepsTables(config, s, c, digest, eventId, requestId, now);
  }

  lemma WorkerKeepsInv(c: Config, s: State, s': State)
    requires Inv(c, s) && SameRows(s, s') && L.Inv(c.dispatch, s'.submissions) && L.Inv(c.relay, s'.outbox)
    ensures Inv(c, s')
  {
    SameRowsKeepSubmissions(s, s');
    SameRowsKeepCallbacks(s, s');
  }

  lemma NextKeepsInv(c: Config, s: State, step: Step)
    requires ValidConfig(c) && Inv(c, s)
    ensures Inv(c, Next(c, s, step))
  {
    var s' := Next(c, s, step);
    match step
    case Receive(submissionId, receipt) => ReceiveKeepsInv(c, s, submissionId, receipt);
    case Call(callback, digest, eventId, requestId, now) => CallKeepsInv(c, s, callback, digest, eventId, requestId, now);
    case Dispatch(d) =>
      if L.WorkerStep(d) {
        L.WorkerStepRows(c.dispatch, s.submissions, d);
        L.NextKeepsInv(c.dispatch, s.submissions, d);
        WorkerKeepsInv(c, s, s');
      }
    case Relay(r) =>
      if L.WorkerStep(r) {
        L.WorkerStepRows(c.relay, s.outbox, r);
        L.NextKeepsInv(c.relay, s.outbox, r);
        WorkerKeepsInv(c, s, s');
      }
    case Integrate(restaurantId, integration) => WorkerKeepsInv(c, s, s');
  }

  lemma {:induction false} ExecKeepsInv(c: Config, s: State, steps: seq<Step>)
    requires ValidConfig(c) && Inv(c, s)
    ensures Inv(c, Exec(c, s, steps))
  {
    if steps != [] {
      ExecKeepsInv(c, s, steps[..|steps| - 1]);
      NextKeepsInv(c, Exec(c, s, steps[..|steps| - 1]), steps[|steps| - 1]);
    }
  }

  // ----- what that means, for every run -----

  // Nothing recorded is ever lost, rewritten, or decided otherwise.
  ghost predicate Grows(s: State, s': State) {
    (forall o :: o in s.index ==> o in s'.index && s'.index[o] == s.index[o]) &&
    (forall e :: e in s.inbox ==> e in s'.inbox && s'.inbox[e] == s.inbox[e]) &&
    (forall k :: k in s.callbacks ==> k in s'.callbacks && s'.callbacks[k] == s.callbacks[k]) &&
    (forall id :: id in s.submissions.rows ==> RowLasts(s, s', id)) &&
    (forall e :: e in s.outbox.rows ==> e in s'.outbox.rows && s'.outbox.rows[e].payload == s.outbox.rows[e].payload)
  }

  ghost predicate RowLasts(s: State, s': State, id: string)
    requires id in s.submissions.rows
  {
    id in s'.submissions.rows &&
    var (row, row') := (s.submissions.rows[id], s'.submissions.rows[id]);
    row'.payload == row.payload && (row.status.Decided? ==> row'.status == row.status)
  }

  lemma FiledGrows(s: State, s': State, submissionId: string, d: Delivery)
    requires Filed(s, s', submissionId, d)
    ensures Grows(s, s')
  {
  }

  lemma RecordedGrows(s: State, s': State, c: Callback, id: string, eventId: string, event: Envelope<StatusChanged>)
    requires Recorded(s, s', c, id, eventId, event)
    ensures Grows(s, s')
  {
  }

  lemma SameRowsGrow(s: State, s': State)
    requires SameRows(s, s')
    ensures Grows(s, s')
  {
  }

  lemma ReceiveGrows(c: Config, s: State, submissionId: string, r: OrderReceipt)
    ensures Grows(s, ReceiveOrder(c, s, submissionId, r).0)
  {
    var (s', answer) := ReceiveOrder(c, s, submissionId, r);
    ReceiveFiles(c, s, submissionId, r);
    if answer == Success(Receipt(false)) {
      FiledGrows(s, s', submissionId, DeliveryFor(s.integrations[r.payload.restaurantId], r.eventId, r.correlationId, r.payload));
    }
  }

  lemma CallGrows(config: Config, s: State, c: Callback, digest: string, eventId: string, requestId: string, now: int)
    ensures Grows(s, ReceiveCallback(config, s, c, digest, eventId, requestId, now).0)
  {
    var (s', answer) := ReceiveCallback(config, s, c, digest, eventId, requestId, now);
    CallbackRecords(config, s, c, digest, eventId, requestId, now);
    if answer == Success(Receipt(false)) {
      RecordedGrows(s, s', c, Named(s, c).value, eventId, CallbackEvent(c, eventId, requestId, now).value);
    }
  }

  lemma NextGrows(c: Config, s: State, step: Step)
    ensures Grows(s, Next(c, s, step))
  {
    var s' := Next(c, s, step);
    match step
    case Receive(submissionId, receipt) => ReceiveGrows(c, s, submissionId, receipt);
    case Call(callback, digest, eventId, requestId, now) => CallGrows(c, s, callback, digest, eventId, requestId, now);
    case Dispatch(d) =>
      if L.WorkerStep(d) { L.WorkerStepRows(c.dispatch, s.submissions, d); }
      SameRowsGrow(s, s');
    case Relay(r) =>
      if L.WorkerStep(r) { L.WorkerStepRows(c.relay, s.outbox, r); }
      SameRowsGrow(s, s');
    case Integrate(restaurantId, integration) => SameRowsGrow(s, s');
  }

  lemma GrowsTransitive(a: State, b: State, c: State)
    requires Grows(a, b) && Grows(b, c)
    ensures Grows(a, c)
  {
    forall id | id in a.submissions.rows ensures RowLasts(a, c, id) {
      assert RowLasts(a, b, id) && RowLasts(b, c, id);
    }
  }

  lemma {:induction false} ExecGrows(c: Config, s: State, steps: seq<Step>)
    ensures Grows(s, Exec(c, s, steps))
  {
    if steps != [] {
      var t := Exec(c, s, steps[..|steps| - 1]);
      ExecGrows(c, s, steps[..|steps| - 1]);
      NextGrows(c, t, steps[|steps| - 1]);
      GrowsTransitive(s, t, Next(c, t, steps[|steps| - 1]));
    }
  }

  lemma {:induction false} RunHolds(c: Config, steps: seq<Step>)
    requires ValidConfig(c)
    ensures Inv(c, Exec(c, Empty(), steps))
  {
    ExecKeepsInv(c, Empty(), steps);
  }

  /** A decision never flips: a decided submission keeps its decision and its payload whatever comes later. */
  lemma {:induction false} DecisionNeverFlips(c: Config, steps: seq<Step>, later: seq<Step>, id: string)
    requires var s := Exec(c, Empty(), steps); id in s.submissions.rows && s.submissions.rows[id].status.Decided?
    ensures var (s, s') := (Exec(c, Empty(), steps), Exec(c, Exec(c, Empty(), steps), later));
      id in s'.submissions.rows && s'.submissions.rows[id].status == s.submissions.rows[id].status &&
      s'.submissions.rows[id].payload == s.submissions.rows[id].payload
  {
    var s := Exec(c, Empty(), steps);
    ExecGrows(c, s, later);
    assert RowLasts(s, Exec(c, s, later), id);
  }

  /**
    One decision per order: in every run, all callbacks and all partner events of an order carry the
    decision its submission holds, and a submission is decided exactly when it has such a callback.
   */
  lemma {:induction false} OneDecisionPerOrder(c: Config, steps: seq<Step>, orderId: string)
    requires ValidConfig(c) && orderId in Exec(c, Empty(), steps).index
    ensures var s := Exec(c, Empty(), steps);
      s.index[orderId] in s.submissions.rows &&
      var status := SubmissionFor(s, orderId).status;
      (status.Decided? <==> exists k :: k in s.callbacks && s.callbacks[k].orderId == orderId) &&
      (forall k :: k in s.callbacks && s.callbacks[k].orderId == orderId ==>
         status == L.Decided(s.callbacks[k].fingerprint.status)) &&
      (forall e :: e in s.outbox.rows && s.outbox.rows[e].payload.payload.orderId == orderId ==>
         status == L.Decided(s.outbox.rows[e].payload.payload.status))
  {
    var s := Exec(c, Empty(), steps);
    RunHolds(c, steps);
    var row := SubmissionFor(s, orderId);
    forall k | k in s.callbacks && s.callbacks[k].orderId == orderId
      ensures row.status == L.Decided(s.callbacks[k].fingerprint.status)
    {
      assert CallbackOk(s, k, s.callbacks[k]);
    }
    forall e | e in s.outbox.rows && s.outbox.rows[e].payload.payload.orderId == orderId
      ensures row.status == L.Decided(s.outbox.rows[e].payload.payload.status)
    {
      EventDecides(c, s, e);
    }
    if row.status.Decided? {
      assert HasCallback(s, row.payload.orderId, row.status.decision);
    }
  }

  // An outbox event's order has a submission holding the event's decision.
  lemma EventDecides(c: Config, s: State, e: string)
    requires Inv(c, s) && e in s.outbox.rows
    ensures var p := s.outbox.rows[e].payload.payload;
      p.orderId in s.index && s.index[p.orderId] in s.submissions.rows &&
      SubmissionFor(s, p.orderId).status == L.Decided(p.status)
  {
    assert EventOk(s, e, s.outbox.rows[e].payload);
    var k := s.outbox.rows[e].payload.payload.callbackId;
    assert CallbackOk(s, k, s.callbacks[k]);
  }

  /** Callbacks and partner events are in bijection: each callback has exactly one event, carrying its payload. */
  lemma {:induction false} OneEventPerCallback(c: Config, steps: seq<Step>, callbackId: string)
    requires ValidConfig(c)
    ensures var s := Exec(c, Empty(), steps);
      (callbackId in s.callbacks <==> HasEvent(s, callbackId)) &&
      (forall e, f ::
         e in s.outbox.rows && f in s.outbox.rows && s.outbox.rows[e].payload.payload.callbackId == callbackId &&
         s.outbox.rows[f].payload.payload.callbackId == callbackId ==>
           e == f && s.outbox.rows[e].payload.payload == s.callbacks[callbackId].fingerprint)
  {
    var s := Exec(c, Empty(), steps);
    RunHolds(c, steps);
    forall e | e in s.outbox.rows && s.outbox.rows[e].payload.payload.callbackId == callbackId
      ensures callbackId in s.callbacks && s.outbox.rows[e].payload.payload == s.callbacks[callbackId].fingerprint
    {
      assert EventOk(s, e, s.outbox.rows[e].payload);
    }
  }

  /** One submission per order and per event, and every submission comes from the one inbox row that agrees with it. */
  lemma {:induction false} OneSubmissionPerEvent(c: Config, steps: seq<Step>, id: string)
    requires ValidConfig(c) && id in Exec(c, Empty(), steps).submissions.rows
    ensures var s := Exec(c, Empty(), steps);
      var d := s.submissions.rows[id].payload;
      d.sourceEventId in s.inbox && s.inbox[d.sourceEventId] == InboxRow(d.payload, d.orderId) &&
      d.orderId == d.payload.orderId &&
      (forall other :: other in s.submissions.rows && other != id ==>
         s.submissions.rows[other].payload.orderId != d.orderId &&
         s.submissions.rows[other].payload.sourceEventId != d.sourceEventId) &&
      (forall e :: e in s.inbox && s.inbox[e].orderId == d.orderId ==> e == d.sourceEventId)
  {
    var s := Exec(c, Empty(), steps);
    RunHolds(c, steps);
    var d := s.submissions.rows[id].payload;
    assert DeliveryOk(s, d) && InboxRowOk(s, d.sourceEventId, s.inbox[d.sourceEventId]);
    forall other | other in s.submissions.rows && other != id
      ensures s.submissions.rows[other].payload.sourceEventId != d.sourceEventId
    {
      assert DeliveryOk(s, s.submissions.rows[other].payload);
    }
    forall e | e in s.inbox && s.inbox[e].orderId == d.orderId ensures e == d.sourceEventId {
      assert InboxRowOk(s, e, s.inbox[e]);
    }
  }

  /** And the other way round: every inbox row has its submission, made from that very event with that payload. */
  lemma {:induction false} EveryInboxRowIsFiled(c: Config, steps: seq<Step>, eventId: string)
    requires ValidConfig(c) && eventId in Exec(c, Empty(), steps).inbox
    ensures var s := Exec(c, Empty(), steps);
      var row := s.inbox[eventId];
      row.orderId in s.index && s.index[row.orderId] in s.submissions.rows &&
      var d := SubmissionFor(s, row.orderId).payload;
      d.sourceEventId == eventId && d.payload == row.fingerprint && d.orderId == row.orderId
  {
    var s := Exec(c, Empty(), steps);
    RunHolds(c, steps);
    assert InboxRowOk(s, eventId, s.inbox[eventId]);
  }

  lemma CallbackIsKept(c: Config, s: State, cb: Callback, digest: string, eventId: string, requestId: string, now: int)
    requires ReceiveCallback(c, s, cb, digest, eventId, requestId, now).1.Success?
    ensures var s' := ReceiveCallback(c, s, cb, digest, eventId, requestId, now).0;
      cb.callbackId in s'.callbacks &&
      s'.callbacks[cb.callbackId] == CallbackRow(cb.orderId, cb.externalStoreId, CallbackPayload(cb)) &&
      Named(s', cb).Some? && CallbackType(cb).Some?
  {
    CallbackRecords(c, s, cb, digest, eventId, requestId, now);
  }

  lemma NamedLasts(s: State, s': State, cb: Callback)
    requires Named(s, cb).Some? && Grows(s, s')
    ensures Named(s', cb) == Named(s, cb)
  {
    assert RowLasts(s, s', Named(s, cb).value);
  }

  lemma KeptCallbackReplays(
    c: Config, s: State, cb: Callback, digest: string, eventId: string, requestId: string, now: int)
    requires cb.callbackId in s.callbacks && Named(s, cb).Some? && CallbackType(cb).Some? && eventId != ""
    requires s.callbacks[cb.callbackId] == CallbackRow(cb.orderId, cb.externalStoreId, CallbackPayload(cb))
    requires CallbackOk(s, cb.callbackId, s.callbacks[cb.callbackId])
    ensures ReceiveCallback(c, s, cb, digest, eventId, requestId, now) ==
      (s, if cb.restaurantId in s.integrations && s.integrations[cb.restaurantId].active &&
             s.integrations[cb.restaurantId].externalStoreId == cb.externalStoreId &&
             s.integrations[cb.restaurantId].secretDigest == digest
          then Success(Receipt(true)) else Failure(Unauthorized))
  {
    assert CallbackEvent(cb, eventId, requestId, now).Some?;
  }

  /**
    An exact replay of an answered callback, however much later, changes nothing; it answers
    Duplicate exactly when the integration is still active with the presented token.
   */
  lemma {:induction false} ExactReplayIsDuplicate(
    c: Config, steps: seq<Step>, later: seq<Step>, cb: Callback,
    digest: string, eventId: string, requestId: string, now: int,
    digest': string, eventId': string, requestId': string, now': int)
    requires ValidConfig(c) && eventId' != ""
    requires ReceiveCallback(c, Exec(c, Empty(), steps), cb, digest, eventId, requestId, now).1.Success?
    ensures
      var s := ReceiveCallback(c, Exec(c, Empty(), steps), cb, digest, eventId, requestId, now).0;
      var s' := Exec(c, s, later);
      ReceiveCallback(c, s', cb, digest', eventId', requestId', now') ==
        (s', if cb.restaurantId in s'.integrations && s'.integrations[cb.restaurantId].active &&
                s'.integrations[cb.restaurantId].externalStoreId == cb.externalStoreId &&
                s'.integrations[cb.restaurantId].secretDigest == digest'
             then Success(Receipt(true)) else Failure(Unauthorized))
  {
    var s0 := Exec(c, Empty(), steps);
    RunHolds(c, steps);
    CallKeepsInv(c, s0, cb, digest, eventId, requestId, now);
    CallbackIsKept(c, s0, cb, digest, eventId, requestId, now);
    KeptCallbackLasts(c, ReceiveCallback(c, s0, cb, digest, eventId, requestId, now).0, later, cb);
    KeptCallbackReplays(c, Exec(c, ReceiveCallback(c, s0, cb, digest, eventId, requestId, now).0, later), cb,
                        digest', eventId', requestId', now');
  }

  lemma {:induction false} KeptCallbackLasts(c: Config, s: State, later: seq<Step>, cb: Callback)
    requires ValidConfig(c) && Inv(c, s) && cb.callbackId in s.callbacks && Named(s, cb).Some?
    ensures var s' := Exec(c, s, later);
      cb.callbackId in s'.callbacks && s'.callbacks[cb.callbackId] == s.callbacks[cb.callbackId] &&
      Named(s', cb) == Named(s, cb) && CallbackOk(s', cb.callbackId, s'.callbacks[cb.callbackId])
  {
    ExecKeepsInv(c, s, later);
    ExecGrows(c, s, later);
    NamedLasts(s, Exec(c, s, later), cb);
  }

  /** The opposite decision for an order that has one is refused and changes nothing, under any callback id. */
  lemma {:induction false} OtherDecisionIsRefused(
    c: Config, steps: seq<Step>, k: string, cb: Callback, digest: string, eventId: string, requestId: string, now: int)
    requires ValidConfig(c) && k in Exec(c, Empty(), steps).callbacks
    requires Exec(c, Empty(), steps).callbacks[k].orderId == cb.orderId
    requires Exec(c, Empty(), steps).callbacks[k].fingerprint.status != cb.status
    ensures var s := Exec(c, Empty(), steps);
      var (s', answer) := ReceiveCallback(c, s, cb, digest, eventId, requestId, now);
      s' == s && answer.Failure?
  {
    RunHolds(c, steps);
    OtherDecisionConflicts(c, Exec(c, Empty(), steps), k, cb, digest, eventId, requestId, now);
  }

  lemma OtherDecisionConflicts(
    c: Config, s: State, k: string, cb: Callback, digest: string, eventId: string, requestId: string, now: int)
    requires k in s.callbacks && CallbackOk(s, k, s.callbacks[k])
    requires s.callbacks[k].orderId == cb.orderId && s.callbacks[k].fingerprint.status != cb.status
    ensures var (s', answer) := ReceiveCallback(c, s, cb, digest, eventId, requestId, now); s' == s && answer.Failure?
  {
  }

  /** Redelivering an order event whose first delivery was answered is a duplicate, even with the integration gone. */
  lemma {:induction false} RedeliveryIsDuplicate(
    c: Config, steps: seq<Step>, later: seq<Step>, submissionId: string, submissionId': string, r: OrderReceipt)
    requires ReceiveOrder(c, Exec(c, Empty(), steps), submissionId, r).1.Success? && submissionId' != ""
    ensures
      var s := ReceiveOrder(c, Exec(c, Empty(), steps), submissionId, r).0;
      var s' := Exec(c, s, later);
      ReceiveOrder(c, s', submissionId', r) == (s', Success(Receipt(true)))
  {
    var s := ReceiveOrder(c, Exec(c, Empty(), steps), submissionId, r).0;
    ExecGrows(c, s, later);
  }

  // ----- what one call does, column by column -----

  /**
    The door of the callback endpoint: a callback succeeds if and only if every field is there, the
    integration is active for that store with exactly the presented token, the order was submitted to
    that restaurant and store and not decided otherwise, and the callback is new or was the same
    before. Success says Duplicate exactly when the callback was known.
   */
  lemma CallbackSucceeds(config: Config, s: State, c: Callback, digest: string, eventId: string, requestId: string, now: int)
    ensures ReceiveCallback(config, s, c, digest, eventId, requestId, now).1.Success? <==>
      c.callbackId != "" && c.orderId != "" && c.restaurantId != "" && c.externalStoreId != "" && c.occurredAt != 0 &&
      (c.status == D.Accepted || c.status == D.Rejected) && eventId != "" &&
      c.restaurantId in s.integrations && s.integrations[c.restaurantId].active &&
      s.integrations[c.restaurantId].externalStoreId == c.externalStoreId &&
      s.integrations[c.restaurantId].secretDigest == digest &&
      c.orderId in s.index && s.index[c.orderId] in s.submissions.rows &&
      (var row := s.submissions.rows[s.index[c.orderId]];
       row.payload.orderId == c.orderId && row.payload.restaurantId == c.restaurantId &&
       row.payload.externalStoreId == c.externalStoreId && (row.status.Decided? ==> row.status.decision == c.status)) &&
      if c.callbackId in s.callbacks
      then var k := s.callbacks[c.callbackId];
        k.orderId == c.orderId && k.externalStoreId == c.externalStoreId &&
        k.fingerprint == StatusChanged(c.callbackId, c.orderId, c.restaurantId, c.externalStoreId, c.status, c.occurredAt)
      else eventId !in s.outbox.rows
    ensures var answer := ReceiveCallback(config, s, c, digest, eventId, requestId, now).1;
      answer.Success? ==> answer.value.duplicate == (c.callbackId in s.callbacks)
  {
    DoorIsOpen(s, c, digest, eventId, requestId, now);
  }

  lemma DoorIsOpen(s: State, c: Callback, digest: string, eventId: string, requestId: string, now: int)
    ensures CallbackEvent(c, eventId, requestId, now).Some? <==>
      c.callbackId != "" && c.orderId != "" && c.restaurantId != "" && c.externalStoreId != "" && c.occurredAt != 0 &&
      (c.status == D.Accepted || c.status == D.Rejected) && eventId != ""
    ensures Authorized(s, c, digest) <==>
      c.restaurantId in s.integrations && s.integrations[c.restaurantId].active &&
      s.integrations[c.restaurantId].externalStoreId == c.externalStoreId &&
      s.integrations[c.restaurantId].secretDigest == digest
    ensures Named(s, c).Some? <==>
      c.orderId in s.index && s.index[c.orderId] in s.submissions.rows &&
      (var d := s.submissions.rows[s.index[c.orderId]].payload;
       d.orderId == c.orderId && d.restaurantId == c.restaurantId && d.externalStoreId == c.externalStoreId)
    ensures Named(s, c).Some? ==> Named(s, c).value == s.index[c.orderId]
  {
  }

  /**
    And which failure it is: a malformed callback, then a token or a submission that is not the
    restaurant's, then another decision or another callback under the same id, then a repeated event id.
   */
  lemma CallbackFails(config: Config, s: State, c: Callback, digest: string, eventId: string, requestId: string, now: int)
    requires ReceiveCallback(config, s, c, digest, eventId, requestId, now).1.Failure?
    ensures var error := ReceiveCallback(config, s, c, digest, eventId, requestId, now).1.error;
      if c.callbackId == "" || c.orderId == "" || c.restaurantId == "" || c.externalStoreId == "" || c.occurredAt == 0 ||
         (c.status != D.Accepted && c.status != D.Rejected) || eventId == ""
      then error == InvalidCallback
      else if c.restaurantId !in s.integrations || !s.integrations[c.restaurantId].active ||
              s.integrations[c.restaurantId].externalStoreId != c.externalStoreId ||
              s.integrations[c.restaurantId].secretDigest != digest ||
              c.orderId !in s.index || s.index[c.orderId] !in s.submissions.rows ||
              (var d := s.submissions.rows[s.index[c.orderId]].payload;
               d.orderId != c.orderId || d.restaurantId != c.restaurantId || d.externalStoreId != c.externalStoreId)
      then error == Unauthorized
      else if s.submissions.rows[s.index[c.orderId]].status.Decided? &&
              s.submissions.rows[s.index[c.orderId]].status.decision != c.status
      then error == CallbackConflict
      else if c.callbackId in s.callbacks then error == CallbackConflict
      else error == ConstraintViolation
    ensures ReceiveCallback(config, s, c, digest, eventId, requestId, now).0 == s
  {
    DoorIsOpen(s, c, digest, eventId, requestId, now);
  }

  /** A new callback's three writes: its row, its partner event, its submission's decision; all else stays. */
  lemma CallbackWrites(config: Config, s: State, c: Callback, digest: string, eventId: string, requestId: string, now: int)
    requires ReceiveCallback(config, s, c, digest, eventId, requestId, now).1 == Success(Receipt(false))
    ensures var s' := ReceiveCallback(config, s, c, digest, eventId, requestId, now).0;
      var p := StatusChanged(c.callbackId, c.orderId, c.restaurantId, c.externalStoreId, c.status, c.occurredAt);
      s'.callbacks == s.callbacks[c.callbackId := CallbackRow(c.orderId, c.externalStoreId, p)] &&
      s'.integrations == s.integrations && s'.inbox == s.inbox && s'.index == s.index &&
      eventId in s'.outbox.rows && s'.outbox.rows.Keys == s.outbox.rows.Keys + {eventId} &&
      s'.submissions.rows.Keys == s.submissions.rows.Keys
    ensures var s' := ReceiveCallback(config, s, c, digest, eventId, requestId, now).0;
      var e := s'.outbox.rows[eventId].payload;
      s'.outbox.rows[eventId].status == L.Open && s'.outbox.rows[eventId].attempts == 0 &&
      e.eventId == eventId && e.eventType == (if c.status == D.Accepted then ORDER_ACCEPTED else ORDER_REJECTED) &&
      e.eventVersion == 1 && e.occurredAt == now && e.producer == "partner-service" && e.aggregateType == "order" &&
      e.aggregateId == e.partitionKey == c.orderId && e.correlationId == requestId && e.causationId == c.callbackId &&
      e.payload == StatusChanged(c.callbackId, c.orderId, c.restaurantId, c.externalStoreId, c.status, c.occurredAt)
    ensures var s' := ReceiveCallback(config, s, c, digest, eventId, requestId, now).0;
      var id := s.index[c.orderId];
      (forall e :: e in s.outbox.rows ==> s'.outbox.rows[e] == s.outbox.rows[e]) &&
      s'.submissions.rows[id] == s.submissions.rows[id].(status := L.Decided(c.status)) &&
      forall other :: other in s.submissions.rows && other != id ==> s'.submissions.rows[other] == s.submissions.rows[other]
  {
    DoorIsOpen(s, c, digest, eventId, requestId, now);
    CallbackRecords(config, s, c, digest, eventId, requestId, now);
  }

  /** An order event is filed if and only if it is new, its integration is active, and no key it needs is taken. */
  lemma OrderIsFiled(c: Config, s: State, submissionId: string, r: OrderReceipt)
    ensures var (s', answer) := ReceiveOrder(c, s, submissionId, r);
      answer == Success(Receipt(false)) <==>
        submissionId != "" && r.eventId !in s.inbox &&
        r.payload.restaurantId in s.integrations && s.integrations[r.payload.restaurantId].active &&
        submissionId !in s.submissions.rows && r.payload.orderId !in s.index &&
        forall id :: id in s.submissions.rows ==> s.submissions.rows[id].payload.sourceEventId != r.eventId
  {
  }

  /** What is filed: the order, for the store and address its integration has in that state, with the event's ids. */
  lemma OrderWrites(c: Config, s: State, submissionId: string, r: OrderReceipt)
    requires ReceiveOrder(c, s, submissionId, r).1 == Success(Receipt(false))
    ensures var s' := ReceiveOrder(c, s, submissionId, r).0;
      r.payload.restaurantId in s.integrations && submissionId in s'.submissions.rows &&
      var (i, row) := (s.integrations[r.payload.restaurantId], s'.submissions.rows[submissionId]);
      i.active && row.status == L.Open && row.attempts == 0 && row.lockedBy == None && row.nextAttemptAt == None &&
      row.payload.url == i.url && row.payload.externalStoreId == i.externalStoreId &&
      row.payload.correlationId == r.correlationId && row.payload.sourceEventId == r.eventId &&
      row.payload.orderId == r.payload.orderId && row.payload.restaurantId == r.payload.restaurantId &&
      row.payload.payload == r.payload
    ensures var s' := ReceiveOrder(c, s, submissionId, r).0;
      s'.inbox == s.inbox[r.eventId := InboxRow(r.payload, r.payload.orderId)] &&
      s'.index == s.index[r.payload.orderId := submissionId] && s'.integrations == s.integrations &&
      s'.callbacks == s.callbacks && s'.outbox == s.outbox &&
      forall id :: id in s.submissions.rows ==> id in s'.submissions.rows && s'.submissions.rows[id] == s.submissions.rows[id]
  {
    ReceiveFiles(c, s, submissionId, r);
  }

  /** And what is not: a known event is a duplicate or a conflict, a missing integration and a taken key are errors. */
  lemma OrderIsNotFiled(c: Config, s: State, submissionId: string, r: OrderReceipt)
    requires ReceiveOrder(c, s, submissionId, r).1 != Success(Receipt(false))
    ensures var (s', answer) := ReceiveOrder(c, s, submissionId, r);
      s' == s &&
      answer ==
        if submissionId == "" then Failure(InvalidEvent)
        else if r.eventId in s.inbox then
          if s.inbox[r.eventId].fingerprint == r.payload && s.inbox[r.eventId].orderId == r.payload.orderId
          then Success(Receipt(true)) else Failure(InboxConflict)
        else if r.payload.restaurantId in s.integrations && s.integrations[r.payload.restaurantId].active
        then Failure(ConstraintViolation) else Failure(IntegrationNotFound)
  {
    OrderIsFiled(c, s, submissionId, r);
  }

  // A step that leaves something new behind is the one that wrote it.
  lemma NewCallbackIsCall(c: Config, s: State, step: Step, k: string)
    requires k in Next(c, s, step).callbacks && k !in s.callbacks
    ensures step.Call? && step.callback.callbackId == k
    ensures ReceiveCallback(c, s, step.callback, step.digest, step.eventId, step.requestId, step.now).1 == Success(Receipt(false))
  {
    if step.Call? { CallbackRecords(c, s, step.callback, step.digest, step.eventId, step.requestId, step.now); }
    if step.Receive? { ReceiveFiles(c, s, step.submissionId, step.receipt); }
  }

  lemma NewSubmissionIsReceive(c: Config, s: State, step: Step, id: string)
    requires id in Next(c, s, step).submissions.rows && id !in s.submissions.rows
    ensures step.Receive? && step.submissionId == id
    ensures ReceiveOrder(c, s, id, step.receipt).1 == Success(Receipt(false))
  {
    if step.Receive? { ReceiveFiles(c, s, step.submissionId, step.receipt); }
    if step.Call? { CallbackRecords(c, s, step.callback, step.digest, step.eventId, step.requestId, step.now); }
    if step.Dispatch? && L.WorkerStep(step.dispatch) { L.WorkerStepRows(c.dispatch, s.submissions, step.dispatch); }
  }

  /**
    Nobody decides without the restaurant's token: in every run, each recorded callback was presented
    at some step with exactly the token its restaurant's active integration had then, for its store.
   */
  lemma {:induction false} CallbackWasAuthorized(c: Config, steps: seq<Step>, k: string) returns (n: nat)
    requires k in Exec(c, Empty(), steps).callbacks
    ensures n < |steps| && steps[n].Call?
    ensures var (cb, row) := (steps[n].callback, Exec(c, Empty(), steps).callbacks[k]);
      cb.callbackId == k && cb.orderId == row.orderId && cb.externalStoreId == row.externalStoreId &&
      row.fingerprint == StatusChanged(k, cb.orderId, cb.restaurantId, cb.externalStoreId, cb.status, cb.occurredAt) &&
      var before := Exec(c, Empty(), steps[..n]);
      cb.restaurantId in before.integrations && before.integrations[cb.restaurantId].active &&
      before.integrations[cb.restaurantId].externalStoreId == cb.externalStoreId &&
      before.integrations[cb.restaurantId].secretDigest == steps[n].digest
  {
    var m := |steps| - 1;
    var s := Exec(c, Empty(), steps[..m]);
    NextGrows(c, s, steps[m]);
    if k in s.callbacks {
      n := CallbackWasAuthorized(c, steps[..m], k);
      assert steps[..m][..n] == steps[..n];
    } else {
      n := m;
      NewCallbackIsCall(c, s, steps[m], k);
      var x := steps[m];
      CallbackSucceeds(c, s, x.callback, x.digest, x.eventId, x.requestId, x.now);
      CallbackWrites(c, s, x.callback, x.digest, x.eventId, x.requestId, x.now);
    }
  }

  /**
    Every submission goes where its restaurant's active integration pointed when its order event was
    received, and carries that event's ids and payload for good.
   */
  lemma {:induction false} SubmissionWasAddressed(c: Config, steps: seq<Step>, id: string) returns (n: nat)
    requires id in Exec(c, Empty(), steps).submissions.rows
    ensures n < |steps| && steps[n].Receive? && steps[n].submissionId == id
    ensures var (d, r) := (Exec(c, Empty(), steps).submissions.rows[id].payload, steps[n].receipt);
      var before := Exec(c, Empty(), steps[..n]);
      r.payload.restaurantId in before.integrations && before.integrations[r.payload.restaurantId].active &&
      d.url == before.integrations[r.payload.restaurantId].url &&
      d.externalStoreId == before.integrations[r.payload.restaurantId].externalStoreId &&
      d.correlationId == r.correlationId && d.sourceEventId == r.eventId && d.payload == r.payload &&
      d.orderId == r.payload.orderId && d.restaurantId == r.payload.restaurantId
  {
    var m := |steps| - 1;
    var s := Exec(c, Empty(), steps[..m]);
    NextGrows(c, s, steps[m]);
    if id in s.submissions.rows {
      assert RowLasts(s, Exec(c, Empty(), steps), id);
      n := SubmissionWasAddressed(c, steps[..m], id);
      assert steps[..m][..n] == steps[..n];
    } else {
      n := m;
      NewSubmissionIsReceive(c, s, steps[m], id);
      OrderWrites(c, s, id, steps[m].receipt);
    }
  }
}
