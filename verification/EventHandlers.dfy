/**
  The two consumers: order-service applying partner events and partner-service receiving orders. Both
  handlers are idempotent, whatever their topics carry, so each takes effect exactly once per record.
 */
module EventHandlers {
  import opened Wrappers
  import opened Events
  import T = Texts
  import O = OrderStore
  import P = Partner
  import PS = PartnerStore
  import K = Consumer

  type OrderGroup = K.Group<O.State, Record<StatusChanged>, O.CreateRecord>
  type PartnerGroup = K.Group<P.State, Record<OrderCreated>, P.Step>

  function HandleStatus(s: O.State, r: Record<StatusChanged>, nonce: string): (O.State, bool) {
    match ReadStatusChanged(r)
    case None => (s, false)
    case Some(e) => (O.Apply(s, e).0, O.Apply(s, e).1.Success?)
  }

  predicate StatusAbsorbed(s: O.State, r: Record<StatusChanged>) {
    ReadStatusChanged(r).Some? && O.Absorbed(s, ReadStatusChanged(r).value)
  }

  function CreateElsewhere(s: O.State, r: O.CreateRecord): O.State { O.Create(s, r).0 }

  // Between partner events, orders are created.
  function StatusHandler(): K.Handler<O.State, Record<StatusChanged>, O.CreateRecord> {
    K.Handler(HandleStatus, CreateElsewhere, StatusAbsorbed)
  }

  function HandleOrder(c: P.Config, s: P.State, r: Record<OrderCreated>, submissionId: string): (P.State, bool) {
    match ReadOrderCreated(r)
    case None => (s, false)
    case Some(receipt) =>
      var (s', answer) := P.ReceiveOrder(c, s, submissionId, receipt);
      (s', answer.Success?)
  }

  predicate OrderAbsorbed(s: P.State, r: Record<OrderCreated>) {
    ReadOrderCreated(r).Some? &&
    var receipt := ReadOrderCreated(r).value;
    receipt.eventId in s.inbox && s.inbox[receipt.eventId] == P.InboxRow(receipt.payload, receipt.payload.orderId)
  }

  // Between orders, callbacks arrive and workers run.
  function OrderHandler(c: P.Config): K.Handler<P.State, Record<OrderCreated>, P.Step> {
    K.Handler((s, r, n) => HandleOrder(c, s, r, n), (s, step) => P.Next(c, s, step), (s, r) => OrderAbsorbed(s, r))
  }

  // Handle of order-service's partner status consumer.
  method Handle(store: O.MemoryStore, message: Record<StatusChanged>) returns (ok: bool)
    requires store.Valid()
    modifies store
    ensures store.Valid() && (store.Contents(), ok) == HandleStatus(old(store.Contents()), message, "")
  {
    var event := ReadStatusChanged(message);
    if event.None? {
      return false;
    }
    var applied := store.ApplyPartnerEvent(event.value);
    return applied.Success?;
  }

  // Handle of partner-service's order consumer and HandleOrderCreated.
  method HandleOrderCreated(store: PS.Store, message: Record<OrderCreated>, newId: string) returns (ok: bool)
    modifies store
    ensures (store.tables, ok) == HandleOrder(store.config, old(store.tables), message, newId)
  {
    var eventType := HeaderOf(message, "event_type");
    if HeaderOf(message, "event_id") == "" || eventType == "" || HeaderOf(message, "event_version") == "" || message.key == "" {
      return false;
    }
    if T.Atoi(HeaderOf(message, "event_version")) != Some(1) || eventType != ORDER_CREATED {
      return false;
    }
    var valid := ValidatePayload(message.value, message.key);
    if !valid {
      return false;
    }
    var answer := store.ReceiveOrder(newId,
      OrderReceipt(HeaderOf(message, "event_id"), HeaderOf(message, "correlation_id"), message.value));
    return answer.Success?;
  }

  lemma StatusTakes(s: O.State, r: Record<StatusChanged>, n: string)
    ensures HandleStatus(s, r, n).1 ==> StatusAbsorbed(HandleStatus(s, r, n).0, r)
    ensures !HandleStatus(s, r, n).1 || StatusAbsorbed(s, r) ==> HandleStatus(s, r, n).0 == s
  {
  }

  lemma StatusStays(s: O.State, r: Record<StatusChanged>, q: Record<StatusChanged>, n: string)
    requires StatusAbsorbed(s, r)
    ensures StatusAbsorbed(HandleStatus(s, q, n).0, r)
  {
  }

  lemma StatusHandlerIdempotent()
    ensures K.Idempotent(StatusHandler())
  {
    var h := StatusHandler();
    forall s, r, n
      ensures h.run(s, r, n).1 ==> h.absorbed(h.run(s, r, n).0, r)
      ensures !h.run(s, r, n).1 || h.absorbed(s, r) ==> h.run(s, r, n).0 == s
    {
      StatusTakes(s, r, n);
    }
    forall s, r, q, n | h.absorbed(s, r) ensures h.absorbed(h.run(s, q, n).0, r) { StatusStays(s, r, q, n); }
    forall s, r, e | h.absorbed(s, r) ensures h.absorbed(h.other(s, e), r) {
      assert StatusAbsorbed(CreateElsewhere(s, e), r);
    }
  }

  lemma OrderTakes(c: P.Config, s: P.State, r: Record<OrderCreated>, n: string)
    ensures HandleOrder(c, s, r, n).1 ==> OrderAbsorbed(HandleOrder(c, s, r, n).0, r)
    ensures !HandleOrder(c, s, r, n).1 || OrderAbsorbed(s, r) ==> HandleOrder(c, s, r, n).0 == s
  {
    if ReadOrderCreated(r).Some? { P.ReceiveFiles(c, s, n, ReadOrderCreated(r).value); }
  }

  lemma OrderStays(c: P.Config, s: P.State, r: Record<OrderCreated>, q: Record<OrderCreated>, n: string)
    requires OrderAbsorbed(s, r)
    ensures OrderAbsorbed(HandleOrder(c, s, q, n).0, r)
  {
    if ReadOrderCreated(q).Some? { P.ReceiveGrows(c, s, n, ReadOrderCreated(q).value); }
  }

  lemma OrderHandlerIdempotent(c: P.Config)
    ensures K.Idempotent(OrderHandler(c))
  {
    var h := OrderHandler(c);
    forall s, r, n
      ensures h.run(s, r, n).1 ==> h.absorbed(h.run(s, r, n).0, r)
      ensures !h.run(s, r, n).1 || h.absorbed(s, r) ==> h.run(s, r, n).0 == s
    {
      OrderTakes(c, s, r, n);
    }
    forall s, r, q, n | h.absorbed(s, r) ensures h.absorbed(h.run(s, q, n).0, r) { OrderStays(c, s, r, q, n); }
    forall s, r, e | h.absorbed(s, r) ensures h.absorbed(h.other(s, e), r) { P.NextGrows(c, s, e); }
  }

  /**
    Order-service consumes its topic exactly once: whatever is on the topic and however consumers
    crash, overlap and redeliver, the order store is what applying a contiguous prefix of the topic
    leaves, each record once and in order, between the orders created meanwhile.
   */
  lemma {:induction false} StatusesApplyExactlyOnce(steps: seq<K.Step<Record<StatusChanged>, O.CreateRecord>>)
    ensures var h := StatusHandler();
      var g := K.Exec(h, K.Start(O.Empty()), steps);
      g.store == K.Replay(h, O.Empty(), g.log, g.history) && K.Indices(g.history) == K.Upto(g.done) &&
      K.AllSucceed(h, O.Empty(), g.log, g.history) && g.committed <= g.done <= |g.log| &&
      forall i :: 0 <= i < g.committed ==> StatusAbsorbed(g.store, g.log[i])
  {
    StatusHandlerIdempotent();
    K.ExecKeepsInv(StatusHandler(), O.Empty(), K.Start(O.Empty()), steps);
    var g := K.Exec(StatusHandler(), K.Start(O.Empty()), steps);
    forall i | 0 <= i < g.committed ensures StatusAbsorbed(g.store, g.log[i]) {
      assert StatusHandler().absorbed(g.store, g.log[i]);
    }
  }

  /** And partner-service its own, between callbacks, deliveries and integration changes. */
  lemma {:induction false} OrdersFileExactlyOnce(c: P.Config, steps: seq<K.Step<Record<OrderCreated>, P.Step>>)
    ensures var h := OrderHandler(c);
      var g := K.Exec(h, K.Start(P.Empty()), steps);
      g.store == K.Replay(h, P.Empty(), g.log, g.history) && K.Indices(g.history) == K.Upto(g.done) &&
      K.AllSucceed(h, P.Empty(), g.log, g.history) && g.committed <= g.done <= |g.log| &&
      forall i :: 0 <= i < g.committed ==> OrderAbsorbed(g.store, g.log[i])
  {
    OrderHandlerIdempotent(c);
    K.ExecKeepsInv(OrderHandler(c), P.Empty(), K.Start(P.Empty()), steps);
    var g := K.Exec(OrderHandler(c), K.Start(P.Empty()), steps);
    forall i | 0 <= i < g.committed ensures OrderAbsorbed(g.store, g.log[i]) {
      assert OrderHandler(c).absorbed(g.store, g.log[i]);
    }
  }
}
