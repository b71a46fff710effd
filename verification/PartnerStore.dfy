/**
  partner-service's transactions as they run: statements one after the other on the tables, rolled
  back unless the last one commits.
 */
module PartnerStore {
  import opened Wrappers
  import opened Events
  import opened Partner
  import L = Lease

  class Store {
    const config: Config
    var tables: State

    constructor (config: Config)
      ensures tables == Empty() && this.config == config
    {
      this.config := config;
      tables := Empty();
    }

    method InsertSubmission(submissionId: string, delivery: Delivery) returns (ok: bool)
      modifies this
      ensures ok <==> SubmissionAllowed(old(tables), submissionId, delivery.orderId, delivery.sourceEventId)
      ensures !ok ==> tables == old(tables)
      ensures ok ==> tables == old(tables).(
        submissions := L.Next(config.dispatch, old(tables).submissions, L.Insert(submissionId, delivery)),
        index := old(tables).index[delivery.orderId := submissionId])
    {
      var t := tables.submissions;
      if submissionId in t.rows || delivery.orderId in tables.index ||
         exists id :: id in t.rows && t.rows[id].payload.sourceEventId == delivery.sourceEventId {
        return false;
      }
      var row := L.Row(delivery, L.Open, 0, None, None, None);
      tables := tables.(
        submissions := t.(rows := t.rows[submissionId := row], history := t.history[submissionId := L.History([], [], 0, 0, 0)]),
        index := tables.index[delivery.orderId := submissionId]);
      return true;
    }

    /** One submission and one inbox row, or nothing. */
    method ReceiveOrder(submissionId: string, r: OrderReceipt) returns (answer: Result<Receipt, Error>)
      modifies this
      ensures (tables, answer) == Partner.ReceiveOrder(config, old(tables), submissionId, r)
      ensures answer != Success(Receipt(false)) ==> tables == old(tables)
      ensures answer == Success(Receipt(false)) ==>
        submissionId !in old(tables).submissions.rows && submissionId in tables.submissions.rows &&
        r.payload.restaurantId in old(tables).integrations &&
        var (i, d) := (old(tables).integrations[r.payload.restaurantId], tables.submissions.rows[submissionId].payload);
        i.active && d.url == i.url && d.externalStoreId == i.externalStoreId &&
        d.correlationId == r.correlationId && d.sourceEventId == r.eventId && d.payload == r.payload &&
        d.orderId == r.payload.orderId && d.restaurantId == r.payload.restaurantId
    {
      if submissionId == "" {
        return Failure(InvalidEvent);
      }
      var before := tables;
      var committed := false;
      answer, committed := ReceiveInTransaction(submissionId, r);
      if !committed {
        tables := before;
      }
    }

    method ReceiveInTransaction(submissionId: string, r: OrderReceipt) returns (answer: Result<Receipt, Error>, committed: bool)
      requires submissionId != ""
      modifies this
      ensures answer == Partner.ReceiveOrder(config, old(tables), submissionId, r).1
      ensures committed <==> answer.Success?
      ensures committed ==> tables == Partner.ReceiveOrder(config, old(tables), submissionId, r).0
    {
      var p := r.payload;
      if r.eventId in tables.inbox {
        var existing := tables.inbox[r.eventId];
        if existing.fingerprint != p || existing.orderId != p.orderId {
          return Failure(InboxConflict), false;
        }
        return Success(Receipt(true)), true;
      }
      if p.restaurantId !in tables.integrations || !tables.integrations[p.restaurantId].active {
        return Failure(IntegrationNotFound), false;
      }
      var integration := tables.integrations[p.restaurantId];
      var inserted := InsertSubmission(submissionId,
        Delivery(p.orderId, p.restaurantId, integration.externalStoreId, integration.url, p, r.correlationId, r.eventId));
      if !inserted {
        return Failure(ConstraintViolation), false;
      }
      tables := tables.(inbox := tables.inbox[r.eventId := InboxRow(p, p.orderId)]);
      return Success(Receipt(false)), true;
    }

    /** One callback, one partner event and the decided submission, or nothing. */
    method ReceiveStatusCallback(c: Callback, digest: string, eventId: string, requestId: string, now: int)
      returns (answer: Result<Receipt, Error>)
      modifies this
      ensures (tables, answer) == ReceiveCallback(config, old(tables), c, digest, eventId, requestId, now)
      ensures answer.Success? ==>
        c.restaurantId in old(tables).integrations && old(tables).integrations[c.restaurantId].active &&
        old(tables).integrations[c.restaurantId].externalStoreId == c.externalStoreId &&
        old(tables).integrations[c.restaurantId].secretDigest == digest
      ensures answer.Success? ==>
        c.callbackId in tables.callbacks && c.orderId in tables.index && tables.index[c.orderId] in tables.submissions.rows &&
        var (k, row) := (tables.callbacks[c.callbackId], tables.submissions.rows[tables.index[c.orderId]]);
        k.orderId == c.orderId && k.externalStoreId == c.externalStoreId &&
        k.fingerprint == StatusChanged(c.callbackId, c.orderId, c.restaurantId, c.externalStoreId, c.status, c.occurredAt) &&
        row.payload.restaurantId == c.restaurantId && row.payload.externalStoreId == c.externalStoreId &&
        (!answer.value.duplicate ==> row.status == L.Decided(c.status))
      ensures answer.Failure? || answer.value.duplicate ==> tables == old(tables)
    {
      CallbackSucceeds(config, tables, c, digest, eventId, requestId, now);
      CallbackRecords(config, tables, c, digest, eventId, requestId, now);
      var eventType := CallbackType(c);
      if eventType.None? || eventId == "" {
        return Failure(InvalidCallback);
      }
      var event := NewEnvelope(
        Envelope(eventId, eventType.value, 1, now, "partner-service", "order", c.orderId, c.orderId, requestId, c.callbackId,
                 CallbackPayload(c)), now);
      if event.None? {
        return Failure(InvalidCallback);
      }
      var before := tables;
      var committed := false;
      answer, committed := CallbackInTransaction(c, digest, event.value);
      if !committed {
        tables := before;
      }
    }

    method AuthorizeCallback(c: Callback, digest: string) returns (ok: bool)
      ensures ok <==>
        c.restaurantId in tables.integrations && tables.integrations[c.restaurantId].active &&
        tables.integrations[c.restaurantId].externalStoreId == c.externalStoreId &&
        tables.integrations[c.restaurantId].secretDigest == digest
    {
      if c.restaurantId !in tables.integrations {
        return false;
      }
      var integration := tables.integrations[c.restaurantId];
      return integration.externalStoreId == c.externalStoreId && integration.active && integration.secretDigest == digest;
    }

    method AuthorizeCallbackSubmission(c: Callback) returns (id: Option<string>)
      ensures id.Some? <==>
        c.orderId in tables.index && tables.index[c.orderId] in tables.submissions.rows &&
        var d := tables.submissions.rows[tables.index[c.orderId]].payload;
        d.orderId == c.orderId && d.restaurantId == c.restaurantId && d.externalStoreId == c.externalStoreId
      ensures id.Some? ==> id.value == tables.index[c.orderId]
    {
      if c.orderId !in tables.index || tables.index[c.orderId] !in tables.submissions.rows {
        return None;
      }
      var found := tables.index[c.orderId];
      var d := tables.submissions.rows[found].payload;
      if d.orderId != c.orderId || d.restaurantId != c.restaurantId || d.externalStoreId != c.externalStoreId {
        return None;
      }
      return Some(found);
    }

    method CallbackInTransaction(c: Callback, digest: string, event: Envelope<StatusChanged>)
      returns (answer: Result<Receipt, Error>, committed: bool)
      requires CallbackEvent(c, event.eventId, event.correlationId, event.occurredAt) == Some(event)
      modifies this
      ensures var (s', r) := ReceiveCallback(config, old(tables), c, digest, event.eventId, event.correlationId, event.occurredAt);
        answer == r && (committed <==> answer.Success?) && (committed ==> tables == s')
    {
      var authorized := AuthorizeCallback(c, digest);
      if !authorized {
        return Failure(Unauthorized), false;
      }
      var named := AuthorizeCallbackSubmission(c);
      if named.None? {
        return Failure(Unauthorized), false;
      }
      var id := named.value;
      var status := tables.submissions.rows[id].status;
      if status.Decided? && status.decision != c.status {
        return Failure(CallbackConflict), false;
      }
      if c.callbackId in tables.callbacks {
        var existing := tables.callbacks[c.callbackId];
        if existing.orderId != c.orderId || existing.externalStoreId != c.externalStoreId ||
           existing.fingerprint != CallbackPayload(c) {
          return Failure(CallbackConflict), false;
        }
        return Success(Receipt(true)), true;
      }
      tables := tables.(callbacks := tables.callbacks[c.callbackId := CallbackRow(c.orderId, c.externalStoreId, CallbackPayload(c))]);
      if event.eventId in tables.outbox.rows {
        return Failure(ConstraintViolation), false;
      }
      var t := tables.outbox;
      tables := tables.(outbox := t.(
        rows := t.rows[event.eventId := L.Row(event, L.Open, 0, None, None, None)],
        history := t.history[event.eventId := L.History([], [], 0, 0, 0)]));
      var row := tables.submissions.rows[id];
      var rows := tables.submissions.rows[id := row.(status := L.Decided(c.status))];
      tables := tables.(submissions := tables.submissions.(rows := rows));
      return Success(Receipt(false)), true;
    }
  }
}
