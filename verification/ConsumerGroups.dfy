/**
  The composed system with its two consumer groups made explicit: members, offsets, crashes and late
  commits as in Consumer, on the topics and stores of Saga. Every run of it is a run of Saga, so what
  holds for all of those holds here; and each group is a consumer group in the sense of Consumer.
 */
module ConsumerGroups {
  import opened Wrappers
  import opened Events
  import C = Creation
  import D = OrderDomain
  import H = EventHandlers
  import K = Consumer
  import L = Lease
  import O = OrderStore
  import P = Partner
  import R = Restaurant
  import S = Saga

  datatype Cursor = Cursor(committed: nat, requested: set<nat>, members: map<string, K.Member>)

  datatype System = System(saga: S.System, orders: Cursor, statuses: Cursor)

  datatype Step =
    | Elsewhere(step: S.Step)
    | Orders(orderStep: K.Step<Record<OrderCreated>, P.Step>)
    | Statuses(statusStep: K.Step<Record<StatusChanged>, O.CreateRecord>)

  function Start(): System { System(S.Start(), Cursor(0, {}, map[]), Cursor(0, {}, map[])) }

  function OrderLog(c: S.Config, s: S.System): (log: seq<Record<OrderCreated>>)
    ensures |log| == |s.orderOutbox.log|
    ensures forall i :: 0 <= i < |log| ==> log[i] == S.OrderRecord(c, s, i)
  {
    seq(|s.orderOutbox.log|, i requires 0 <= i < |s.orderOutbox.log| => S.OrderRecord(c, s, i))
  }

  function StatusLog(c: S.Config, s: S.System): (log: seq<Record<StatusChanged>>)
    ensures |log| == |s.partner.outbox.log|
    ensures forall i :: 0 <= i < |log| ==> log[i] == S.StatusRecord(c, s, i)
  {
    seq(|s.partner.outbox.log|, i requires 0 <= i < |s.partner.outbox.log| => S.StatusRecord(c, s, i))
  }

  // The groups as they stand, without Consumer's bookkeeping.
  function OrderGroup(c: S.Config, x: System): H.PartnerGroup {
    K.Group(x.saga.partner, OrderLog(c, x.saga), x.orders.committed, x.orders.requested, x.orders.members, 0, [])
  }

  function StatusGroup(c: S.Config, x: System): H.OrderGroup {
    K.Group(x.saga.creation.store, StatusLog(c, x.saga), x.statuses.committed, x.statuses.requested, x.statuses.members, 0, [])
  }

  // What members do: publishing and other transactions are steps of the rest of the system.
  predicate MemberStep<R, E>(k: K.Step<R, E>) { !k.Publish? && !k.Touch? }

  predicate HandlingStep(step: S.Step) { step.HandleOrder? || step.HandleStatus? }

  function OrdersMoved(c: S.Config, x: System, k: K.Step<Record<OrderCreated>, P.Step>): System {
    var g := K.Next(H.OrderHandler(c.partner), OrderGroup(c, x), k);
    x.(saga := x.saga.(partner := g.store), orders := Cursor(g.committed, g.requested, g.members))
  }

  function StatusesMoved(c: S.Config, x: System, k: K.Step<Record<StatusChanged>, O.CreateRecord>): System {
    var g := K.Next(H.StatusHandler(), StatusGroup(c, x), k);
    x.(saga := x.saga.(creation := x.saga.creation.(store := g.store)), statuses := Cursor(g.committed, g.requested, g.members))
  }

  function Next(c: S.Config, x: System, step: Step): System {
    match step
    case Elsewhere(s) => if HandlingStep(s) then x else x.(saga := S.Next(c, x.saga, s))
    case Orders(k) => if MemberStep(k) then OrdersMoved(c, x, k) else x
    case Statuses(k) => if MemberStep(k) then StatusesMoved(c, x, k) else x
  }

  function Exec(c: S.Config, steps: seq<Step>): System {
    if steps == [] then Start() else Next(c, Exec(c, steps[..|steps| - 1]), steps[|steps| - 1])
  }

  // ----- every run is a run of Saga -----

  // The step of Saga that a step comes to.
  function SagaSteps(c: S.Config, x: System, step: Step): seq<S.Step> {
    match step
    case Elsewhere(s) => if HandlingStep(s) then [] else [s]
    case Orders(k) =>
      if k.Handle? && K.CanHandle(OrderGroup(c, x), k.member) then [S.HandleOrder(x.orders.members[k.member].pos, k.nonce)] else []
    case Statuses(k) =>
      if k.Handle? && K.CanHandle(StatusGroup(c, x), k.member) then [S.HandleStatus(x.statuses.members[k.member].pos)] else []
  }

  function SagaRun(c: S.Config, steps: seq<Step>): seq<S.Step> {
    if steps == [] then []
    else SagaRun(c, steps[..|steps| - 1]) + SagaSteps(c, Exec(c, steps[..|steps| - 1]), steps[|steps| - 1])
  }

  lemma StatusHandledAsSaga(c: S.Config, x: System, k: K.Step<Record<StatusChanged>, O.CreateRecord>)
    requires k.Handle? && K.CanHandle(StatusGroup(c, x), k.member)
    ensures StatusesMoved(c, x, k).saga == S.HandledStatus(c, x.saga, x.statuses.members[k.member].pos)
  {
    var pos := x.statuses.members[k.member].pos;
    var read := S.HandleIsTaken(c, x.saga, pos);
    TakenIsHandled(x.saga, StatusLog(c, x.saga)[pos], k.nonce, read);
  }

  lemma TakenIsHandled(s: S.System, r: Record<StatusChanged>, nonce: string, read: Option<PartnerEvent>)
    requires read == ReadStatusChanged(r)
    ensures S.Taken(s, read) == s.(creation := s.creation.(store := H.HandleStatus(s.creation.store, r, nonce).0))
  {
  }

  lemma StatusIdleAsSaga(c: S.Config, x: System, k: K.Step<Record<StatusChanged>, O.CreateRecord>)
    requires MemberStep(k) && !(k.Handle? && K.CanHandle(StatusGroup(c, x), k.member))
    ensures StatusesMoved(c, x, k).saga == x.saga
  {
  }

  lemma OrderHandledAsSaga(c: S.Config, x: System, k: K.Step<Record<OrderCreated>, P.Step>)
    requires k.Handle? && K.CanHandle(OrderGroup(c, x), k.member)
    ensures OrdersMoved(c, x, k).saga == S.Next(c, x.saga, S.HandleOrder(x.orders.members[k.member].pos, k.nonce))
  {
    var pos := x.orders.members[k.member].pos;
    ReceivedIsHandled(c, x.saga, pos, OrderLog(c, x.saga)[pos], k.nonce);
  }

  lemma ReceivedIsHandled(c: S.Config, s: S.System, index: nat, r: Record<OrderCreated>, nonce: string)
    requires index < |s.orderOutbox.log| && r == S.OrderRecord(c, s, index)
    ensures S.Next(c, s, S.HandleOrder(index, nonce)) == s.(partner := H.HandleOrder(c.partner, s.partner, r, nonce).0)
  {
  }

  lemma OrderIdleAsSaga(c: S.Config, x: System, k: K.Step<Record<OrderCreated>, P.Step>)
    requires MemberStep(k) && !(k.Handle? && K.CanHandle(OrderGroup(c, x), k.member))
    ensures OrdersMoved(c, x, k).saga == x.saga
  {
  }

  lemma {:induction false} SagaOne(c: S.Config, s: S.System, step: S.Step)
    ensures S.Exec(c, s, [step]) == S.Next(c, s, step) && S.Exec(c, s, []) == s
  {
    assert [step][..0] == [];
  }

  lemma {:induction false} SagaHandles(c: S.Config, s: S.System, index: nat)
    ensures S.Exec(c, s, [S.HandleStatus(index)]) == S.HandledStatus(c, s, index)
  {
    SagaOne(c, s, S.HandleStatus(index));
  }

  lemma {:induction false} OrderStepRefines(c: S.Config, x: System, k: K.Step<Record<OrderCreated>, P.Step>)
    requires MemberStep(k)
    ensures S.Exec(c, x.saga, SagaSteps(c, x, Orders(k))) == OrdersMoved(c, x, k).saga
  {
    if k.Handle? && K.CanHandle(OrderGroup(c, x), k.member) {
      SagaOne(c, x.saga, S.HandleOrder(x.orders.members[k.member].pos, k.nonce));
      OrderHandledAsSaga(c, x, k);
    } else {
      OrderIdleAsSaga(c, x, k);
    }
  }

  lemma {:induction false} StatusStepRefines(c: S.Config, x: System, k: K.Step<Record<StatusChanged>, O.CreateRecord>)
    requires MemberStep(k)
    ensures S.Exec(c, x.saga, SagaSteps(c, x, Statuses(k))) == StatusesMoved(c, x, k).saga
  {
    if k.Handle? && K.CanHandle(StatusGroup(c, x), k.member) {
      SagaHandles(c, x.saga, x.statuses.members[k.member].pos);
      StatusHandledAsSaga(c, x, k);
    } else {
      StatusIdleAsSaga(c, x, k);
    }
  }

  lemma {:induction false} StepRefines(c: S.Config, x: System, step: Step)
    ensures S.Exec(c, x.saga, SagaSteps(c, x, step)) == Next(c, x, step).saga
  {
    match step
    case Elsewhere(s) => SagaOne(c, x.saga, s);
    case Orders(k) => if MemberStep(k) { OrderStepRefines(c, x, k); }
    case Statuses(k) => if MemberStep(k) { StatusStepRefines(c, x, k); }
  }

  lemma {:induction false} SagaConcat(c: S.Config, s: S.System, x: seq<S.Step>, y: seq<S.Step>)
    ensures S.Exec(c, s, x + y) == S.Exec(c, S.Exec(c, s, x), y)
  {
    if y == [] {
      assert x + y == x;
    } else {
      var n := |y| - 1;
      SagaConcat(c, s, x, y[..n]);
      assert (x + y)[..|x + y| - 1] == x + y[..n];
    }
  }

  /** Refinement: whatever the members of both groups do, the system underneath has made a run of Saga. */
  lemma {:induction false} RunsRefine(c: S.Config, steps: seq<Step>)
    ensures S.Exec(c, S.Start(), SagaRun(c, steps)) == Exec(c, steps).saga
  {
    if steps != [] {
      var n := |steps| - 1;
      RunsRefine(c, steps[..n]);
      StepRefines(c, Exec(c, steps[..n]), steps[n]);
      SagaConcat(c, S.Start(), SagaRun(c, steps[..n]), SagaSteps(c, Exec(c, steps[..n]), steps[n]));
    }
  }

  /** The partner consumer is never blocked: every call of its handler, by any member at any time, succeeds. */
  lemma {:induction false} StatusConsumerNeverBlocks(c: S.Config, steps: seq<Step>, member: string, nonce: string)
    requires S.ValidConfig(c) && K.CanHandle(StatusGroup(c, Exec(c, steps)), member)
    ensures var g := StatusGroup(c, Exec(c, steps));
      H.HandleStatus(g.store, g.log[g.members[member].pos], nonce).1
  {
    var x := Exec(c, steps);
    RunsRefine(c, steps);
    S.NoPoison(c, SagaRun(c, steps), x.statuses.members[member].pos);
  }

  // ----- committed offsets -----

  // The first n records of the partner topic have been handled.
  ghost predicate HandledUpto(s: S.System, n: nat) {
    n <= |s.partner.outbox.log| && forall i :: 0 <= i < n ==> s.partner.outbox.log[i].id in s.creation.store.inbox
  }

  ghost predicate OffsetsOk(s: S.System, cursor: Cursor) {
    HandledUpto(s, cursor.committed) && (forall n :: n in cursor.requested ==> HandledUpto(s, n)) &&
    forall m :: m in cursor.members ==>
      HandledUpto(s, cursor.members[m].pos) && (cursor.members[m].handled ==> HandledUpto(s, cursor.members[m].pos + 1))
  }

  ghost predicate Later(s: S.System, s': S.System) {
    s.partner.outbox.log <= s'.partner.outbox.log && s.creation.store.inbox.Keys <= s'.creation.store.inbox.Keys
  }

  lemma LeaseLogGrows<Q>(c: L.Config, t: L.Table<Q>, step: L.Step<Q>)
    ensures t.log <= L.Next(c, t, step).log
  {
  }

  lemma PartnerLogGrows(c: P.Config, p: P.State, step: P.Step)
    ensures p.outbox.log <= P.Next(c, p, step).outbox.log
  {
    if step.Relay? { LeaseLogGrows(c.relay, p.outbox, step.relay); }
  }

  lemma ReceiveKeepsLog(c: P.Config, p: P.State, cb: Callback, digest: string, eventId: string, requestId: string, now: int)
    ensures P.ReceiveCallback(c, p, cb, digest, eventId, requestId, now).0.outbox.log == p.outbox.log
  {
  }

  lemma CreationInboxGrows(s: C.System, k: C.Step)
    ensures s.store.inbox.Keys <= C.Next(s, k).store.inbox.Keys
  {
  }

  lemma TakenInboxGrows(s: S.System, read: Option<PartnerEvent>)
    ensures s.creation.store.inbox.Keys <= S.Taken(s, read).creation.store.inbox.Keys
  {
    if read.Some? { CreationInboxGrows(s.creation, C.PartnerApplies(read.value)); }
  }

  lemma HandledIsLater(c: S.Config, s: S.System, index: nat)
    ensures Later(s, S.HandledStatus(c, s, index))
  {
    if index < |s.partner.outbox.log| {
      var read := S.HandleIsTaken(c, s, index);
      TakenInboxGrows(s, read);
    }
  }

  lemma ReceivedIsLater(c: S.Config, s: S.System, index: nat, submissionId: string)
    ensures Later(s, S.Next(c, s, S.HandleOrder(index, submissionId)))
  {
    if S.Next(c, s, S.HandleOrder(index, submissionId)) != s {
      var r := S.HandleIsReceive(c, s, index, submissionId);
      PartnerLogGrows(c.partner, s.partner, P.Receive(submissionId, r));
    }
  }

  lemma ElsewhereIsLater(c: S.Config, s: S.System, step: S.Step)
    requires !HandlingStep(step)
    ensures Later(s, S.Next(c, s, step))
  {
    match step
    case Create(k) => CreationInboxGrows(s.creation, k);
    case Dispatch(d) => PartnerLogGrows(c.partner, s.partner, P.Dispatch(d));
    case Call(callback, digest, eventId, requestId, now) =>
      PartnerLogGrows(c.partner, s.partner, P.Call(callback, digest, eventId, requestId, now));
    case Arrive(request, digest, eventId, requestId, now) =>
      if request in s.restaurant.sending {
        ReceiveKeepsLog(c.partner, s.partner, s.restaurant.sending[request].callback, digest, eventId, requestId, now);
      }
    case Integrate(restaurantId, integration) => PartnerLogGrows(c.partner, s.partner, P.Integrate(restaurantId, integration));
    case RelayStatuses(w) => PartnerLogGrows(c.partner, s.partner, P.Relay(w));
    case _ =>
  }

  lemma LaterKeepsOffsets(s: S.System, s': S.System, cursor: Cursor)
    requires OffsetsOk(s, cursor) && Later(s, s')
    ensures OffsetsOk(s', cursor)
  {
    forall n: nat | HandledUpto(s, n) ensures HandledUpto(s', n) {
      forall i | 0 <= i < n ensures s'.partner.outbox.log[i].id in s'.creation.store.inbox {
        assert s'.partner.outbox.log[i] == s.partner.outbox.log[i];
      }
    }
  }

  // The record read at an offset is filed under its row's id.
  lemma ReadHasRowId(c: S.Config, s: S.System, index: nat)
    requires P.Inv(c.partner, s.partner) && index < |s.partner.outbox.log|
    ensures var read := ReadStatusChanged(S.StatusRecord(c, s, index));
      read.Some? && read.value.eventId == s.partner.outbox.log[index].id
  {
    var id := s.partner.outbox.log[index].id;
    assert s.partner.outbox.log[index].payload == s.partner.outbox.rows[id].payload;
    var e := s.partner.outbox.rows[id].payload;
    assert P.EventOk(s.partner, id, e);
    CallbackEventReads(c.partnerTopic, P.CallbackOf(e.payload), id, e.correlationId, e.occurredAt);
  }

  lemma TakenIsFiled(s: S.System, read: Option<PartnerEvent>)
    requires S.Applicable(s, read)
    ensures read.value.eventId in S.Taken(s, read).creation.store.inbox && S.Taken(s, read).partner == s.partner
  {
  }

  lemma ReadOf(c: S.Config, s: S.System, index: nat) returns (read: Option<PartnerEvent>)
    requires S.SubmissionsOk(s) && S.OrdersOk(s) && P.Inv(c.partner, s.partner) && O.StoreOk(s.creation.store)
    requires index < |s.partner.outbox.log|
    ensures S.Applicable(s, read) && read.value.eventId == s.partner.outbox.log[index].id
    ensures S.HandledStatus(c, s, index) == S.Taken(s, read)
  {
    ReadHasRowId(c, s, index);
    S.LoggedIsApplicable(c, s, index);
    read := S.HandleIsTaken(c, s, index);
  }

  lemma HandledIsFiled(c: S.Config, s: S.System, index: nat)
    requires S.SubmissionsOk(s) && S.OrdersOk(s) && P.Inv(c.partner, s.partner) && O.StoreOk(s.creation.store)
    requires index < |s.partner.outbox.log|
    ensures s.partner.outbox.log[index].id in S.HandledStatus(c, s, index).creation.store.inbox
    ensures S.HandledStatus(c, s, index).partner == s.partner
  {
    var read := ReadOf(c, s, index);
    TakenIsFiled(s, read);
  }

  lemma CursorAdvances(c: S.Config, x: System, k: K.Step<Record<StatusChanged>, O.CreateRecord>, s': S.System)
    requires OffsetsOk(x.saga, x.statuses) && k.Handle? && K.CanHandle(StatusGroup(c, x), k.member)
    requires Later(x.saga, s') && s'.partner == x.saga.partner
    requires x.saga.partner.outbox.log[x.statuses.members[k.member].pos].id in s'.creation.store.inbox
    ensures OffsetsOk(s', StatusesMoved(c, x, k).statuses)
  {
    LaterKeepsOffsets(x.saga, s', x.statuses);
    assert HandledUpto(s', x.statuses.members[k.member].pos + 1);
    HandledCursor(c, x, k);
  }

  lemma HandleKeepsOffsets(c: S.Config, x: System, k: K.Step<Record<StatusChanged>, O.CreateRecord>)
    requires S.SubmissionsOk(x.saga) && S.OrdersOk(x.saga) && P.Inv(c.partner, x.saga.partner) && O.StoreOk(x.saga.creation.store)
    requires OffsetsOk(x.saga, x.statuses) && k.Handle? && K.CanHandle(StatusGroup(c, x), k.member)
    ensures OffsetsOk(StatusesMoved(c, x, k).saga, StatusesMoved(c, x, k).statuses)
  {
    var pos := x.statuses.members[k.member].pos;
    StatusHandledAsSaga(c, x, k);
    HandledIsLater(c, x.saga, pos);
    HandledIsFiled(c, x.saga, pos);
    CursorAdvances(c, x, k, S.HandledStatus(c, x.saga, pos));
  }

  lemma HandledCursor(c: S.Config, x: System, k: K.Step<Record<StatusChanged>, O.CreateRecord>)
    requires k.Handle? && K.CanHandle(StatusGroup(c, x), k.member)
    ensures var cursor := StatusesMoved(c, x, k).statuses;
      cursor == x.statuses ||
      cursor == x.statuses.(members := x.statuses.members[k.member := K.Member(x.statuses.members[k.member].pos, true)])
  {
  }

  lemma IdleKeepsOffsets(c: S.Config, x: System, k: K.Step<Record<StatusChanged>, O.CreateRecord>)
    requires OffsetsOk(x.saga, x.statuses) && MemberStep(k) && !k.Handle?
    ensures OffsetsOk(x.saga, StatusesMoved(c, x, k).statuses)
  {
  }

  lemma OrdersKeepOffsets(c: S.Config, x: System, k: K.Step<Record<OrderCreated>, P.Step>)
    requires OffsetsOk(x.saga, x.statuses) && MemberStep(k)
    ensures OffsetsOk(OrdersMoved(c, x, k).saga, x.statuses)
  {
    if k.Handle? && K.CanHandle(OrderGroup(c, x), k.member) {
      OrderHandledAsSaga(c, x, k);
      ReceivedIsLater(c, x.saga, x.orders.members[k.member].pos, k.nonce);
      LaterKeepsOffsets(x.saga, OrdersMoved(c, x, k).saga, x.statuses);
    } else {
      OrderIdleAsSaga(c, x, k);
    }
  }

  lemma StatusesKeepOffsets(c: S.Config, x: System, k: K.Step<Record<StatusChanged>, O.CreateRecord>)
    requires S.SubmissionsOk(x.saga) && S.OrdersOk(x.saga) && P.Inv(c.partner, x.saga.partner) && O.StoreOk(x.saga.creation.store)
    requires OffsetsOk(x.saga, x.statuses) && MemberStep(k)
    ensures OffsetsOk(StatusesMoved(c, x, k).saga, StatusesMoved(c, x, k).statuses)
  {
    if k.Handle? && K.CanHandle(StatusGroup(c, x), k.member) {
      HandleKeepsOffsets(c, x, k);
    } else {
      StatusIdleAsSaga(c, x, k);
      if k.Handle? { assert StatusesMoved(c, x, k).statuses == x.statuses; } else { IdleKeepsOffsets(c, x, k); }
    }
  }

  lemma NextKeepsOffsets(c: S.Config, x: System, step: Step)
    requires S.Inv(c, x.saga) && OffsetsOk(x.saga, x.statuses)
    ensures OffsetsOk(Next(c, x, step).saga, Next(c, x, step).statuses)
  {
    match step
    case Elsewhere(s) =>
      if !HandlingStep(s) {
        ElsewhereIsLater(c, x.saga, s);
        LaterKeepsOffsets(x.saga, S.Next(c, x.saga, s), x.statuses);
      }
    case Orders(k) => if MemberStep(k) { OrdersKeepOffsets(c, x, k); }
    case Statuses(k) => if MemberStep(k) { StatusesKeepOffsets(c, x, k); }
  }

  lemma {:induction false} OffsetsHold(c: S.Config, steps: seq<Step>)
    requires S.ValidConfig(c)
    ensures OffsetsOk(Exec(c, steps).saga, Exec(c, steps).statuses)
  {
    if steps != [] {
      var n := |steps| - 1;
      OffsetsHold(c, steps[..n]);
      RunsRefine(c, steps[..n]);
      S.RunHolds(c, SagaRun(c, steps[..n]));
      NextKeepsOffsets(c, Exec(c, steps[..n]), steps[n]);
    }
  }

  /**
    Agreement by offsets: once every partner event is published and the group has committed to the end
    of the topic, a submission is decided exactly as its order is.
   */
  lemma {:induction false} CommittedAgrees(c: S.Config, steps: seq<Step>, orderId: string, status: D.Status)
    requires S.ValidConfig(c) && R.IsDecision(status)
    requires var x := Exec(c, steps);
      x.statuses.committed == |x.saga.partner.outbox.log| &&
      forall e :: e in x.saga.partner.outbox.rows ==> x.saga.partner.outbox.rows[e].status == L.Done
    ensures var s := Exec(c, steps).saga;
      S.HasDecision(s.partner, orderId, status) <==>
      orderId in s.creation.store.orders && s.creation.store.orders[orderId].status == status
  {
    OffsetsHold(c, steps);
    RunsRefine(c, steps);
    S.DrainedAgrees(c, SagaRun(c, steps), orderId, status);
  }
}
