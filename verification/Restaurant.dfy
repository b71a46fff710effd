/**
  The sample restaurant: it keeps the first decision for an order and reports it with a status
  callback, releasing its mutex while the callback is on its way. Any number of requests interleave.
 */
module Restaurant {
  import opened Wrappers
  import opened OrderDomain
  import opened Events

  // The fingerprint is the order as it was first delivered.
  datatype Stored = Stored(
    order: OrderCreated, externalStoreId: string, submissionId: string, callbackId: string,
    acknowledged: bool, occurredAt: int, inFlight: bool, fingerprint: OrderCreated)

  // A status request that has released the mutex and waits for partner-service.
  datatype Sending = Sending(orderId: string, callback: Callback, existing: bool)

  // `sent` lists every callback handed to the sender since the process started.
  datatype State = State(orders: map<string, Stored>, sending: map<string, Sending>, sent: seq<Callback>)

  datatype Reply =
    | BadRequest | NotFound | DecisionConflict | NoIdentity | InProgress | Unavailable | SendFailed
    | PayloadConflict | Taken(again: bool) | Reported(callbackId: string, again: bool)

  function Empty(): State { State(map[], map[], []) }

  function Deliver(s: State, key: string, externalStoreId: string, submissionId: string, order: OrderCreated): (State, Reply) {
    if key == "" || externalStoreId == "" || submissionId == "" then (s, BadRequest)
    else if order.orderId == "" || order.orderId != key || order.restaurantId == "" || order.items == [] then (s, BadRequest)
    else if order.orderId in s.orders then
      (s, if s.orders[order.orderId].fingerprint != order then PayloadConflict else Taken(true))
    else
      (s.(orders := s.orders[order.orderId := Stored(order, externalStoreId, submissionId, "", false, 0, false, order)]),
       Taken(false))
  }

  function CallbackFor(o: Stored): Callback {
    Callback(o.callbackId, o.order.orderId, o.order.restaurantId, o.externalStoreId, o.order.status, o.occurredAt)
  }

  predicate IsDecision(status: Status) { status == Accepted || status == Rejected }

  // The order with its decision on it: the one it has, or this first one.
  function Decide(o: Stored, status: Status, newId: string, now: int): Stored {
    if o.order.status != Pending then o
    else o.(order := o.order.(status := status), callbackId := newId, occurredAt := now)
  }

  // Storing it.
  function Settled(s: State, orderId: string, d: Stored): State {
    s.(orders := s.orders[orderId := d])
  }

  // Handing its callback to the sender.
  function Departed(s: State, request: string, orderId: string, existing: bool): State
    requires orderId in s.orders
  {
    var d := s.orders[orderId];
    State(s.orders[orderId := d.(inFlight := true)], s.sending[request := Sending(orderId, CallbackFor(d), existing)],
          s.sent + [CallbackFor(d)])
  }

  // changeOrderStatus under its first lock; no reply means the callback goes out.
  function BeginChange(connected: bool, s: State, request: string, orderId: string, status: Status, newId: string, now: int)
    : (State, Option<Reply>)
  {
    if !IsDecision(status) then (s, Some(BadRequest))
    else if orderId !in s.orders then (s, Some(NotFound))
    else
      var o := s.orders[orderId];
      var existing := o.order.status != Pending;
      if existing && o.order.status != status then (s, Some(DecisionConflict))
      else if !existing && newId == "" then (s, Some(NoIdentity))
      else
        var d := Decide(o, status, newId, now);
        if d.acknowledged then (s, Some(Reported(d.callbackId, true)))
        else if d.inFlight then (s, Some(InProgress))
        else if !connected then (Settled(s, orderId, d), Some(Unavailable))
        else (Departed(Settled(s, orderId, d), request, orderId, existing), None)
  }

  // changeOrderStatus under its second lock, once the send has ended.
  function FinishChange(s: State, request: string, ok: bool): (State, Reply)
    requires request in s.sending
  {
    var k := s.sending[request];
    var t := s.(sending := s.sending - {request});
    (if k.orderId in s.orders && s.orders[k.orderId].callbackId == k.callback.callbackId
     then
       var o := s.orders[k.orderId];
       t.(orders := s.orders[k.orderId := o.(inFlight := false, acknowledged := o.acknowledged || ok)])
     else t,
     if ok then Reported(k.callback.callbackId, k.existing) else SendFailed)
  }

  /** A delivery's reply, and what it leaves: the order as delivered, if and only if it is the first one under its id. */
  lemma DeliverReplies(s: State, key: string, externalStoreId: string, submissionId: string, order: OrderCreated)
    ensures var (s', reply) := Deliver(s, key, externalStoreId, submissionId, order);
      if key == "" || externalStoreId == "" || submissionId == "" || order.orderId != key ||
         order.restaurantId == "" || order.items == []
      then s' == s && reply == BadRequest
      else if key in s.orders then
        s' == s && reply == if s.orders[key].fingerprint == order then Taken(true) else PayloadConflict
      else
        reply == Taken(false) && s'.sending == s.sending && s'.sent == s.sent && s'.orders.Keys == s.orders.Keys + {key} &&
        (forall id :: id in s.orders ==> s'.orders[id] == s.orders[id]) &&
        var o := s'.orders[key];
        o.order == order && o.fingerprint == order && o.externalStoreId == externalStoreId && o.submissionId == submissionId &&
        o.callbackId == "" && !o.acknowledged && !o.inFlight && o.occurredAt == 0
  {
  }

  /**
    A status request up to its send: the reply that ends it early, or, if there is none, the one callback
    that is on its way, carrying the order's first decision with its id and time.
   */
  lemma BeginReplies(connected: bool, s: State, request: string, orderId: string, status: Status, newId: string, now: int)
    ensures var (s', early) := BeginChange(connected, s, request, orderId, status, newId, now);
      if status != Accepted && status != Rejected then s' == s && early == Some(BadRequest)
      else if orderId !in s.orders then s' == s && early == Some(NotFound)
      else
        var o := s.orders[orderId];
        if o.order.status != Pending && o.order.status != status then s' == s && early == Some(DecisionConflict)
        else if o.order.status == Pending && newId == "" then s' == s && early == Some(NoIdentity)
        else if o.acknowledged then
          s' == s && early == Some(Reported(if o.order.status == Pending then newId else o.callbackId, true))
        else if o.inFlight then s' == s && early == Some(InProgress)
        else if !connected then
          early == Some(Unavailable) && s'.sending == s.sending && s'.sent == s.sent && orderId in s'.orders &&
          s'.orders[orderId].order.status == status && !s'.orders[orderId].inFlight &&
          s'.orders[orderId].callbackId == (if o.order.status == Pending then newId else o.callbackId) &&
          s'.orders[orderId].occurredAt == (if o.order.status == Pending then now else o.occurredAt)
        else
          early == None && request in s'.sending && s'.sending.Keys == s.sending.Keys + {request} &&
          (forall r :: r in s.sending && r != request ==> s'.sending[r] == s.sending[r]) &&
          s'.sending[request].orderId == orderId && s'.sending[request].existing == (o.order.status != Pending) &&
          s'.sent == s.sent + [s'.sending[request].callback] &&
          var cb := s'.sending[request].callback;
          cb.orderId == o.order.orderId && cb.restaurantId == o.order.restaurantId &&
          cb.externalStoreId == o.externalStoreId && cb.status == status &&
          cb.callbackId == (if o.order.status == Pending then newId else o.callbackId) &&
          cb.occurredAt == (if o.order.status == Pending then now else o.occurredAt)
  {
  }

  // And the order it leaves: decided once and for all, and in flight exactly when the callback went out.
  lemma BeginDecides(connected: bool, s: State, request: string, orderId: string, status: Status, newId: string, now: int)
    requires BeginChange(connected, s, request, orderId, status, newId, now).0 != s
    ensures var (s', early) := BeginChange(connected, s, request, orderId, status, newId, now);
      orderId in s.orders && s'.orders.Keys == s.orders.Keys &&
      (forall id :: id in s.orders && id != orderId ==> s'.orders[id] == s.orders[id]) &&
      var (o, d) := (s.orders[orderId], s'.orders[orderId]);
      d.order == o.order.(status := status) && d.fingerprint == o.fingerprint &&
      d.externalStoreId == o.externalStoreId && d.submissionId == o.submissionId && !d.acknowledged &&
      d.callbackId == (if o.order.status == Pending then newId else o.callbackId) &&
      d.occurredAt == (if o.order.status == Pending then now else o.occurredAt) &&
      d.inFlight == early.None?
  {
  }

  /** After the send: the reply says what the sender said, and the order is acknowledged if and only if it succeeded. */
  lemma FinishReplies(s: State, request: string, ok: bool)
    requires request in s.sending
    ensures var (s', reply) := FinishChange(s, request, ok);
      var k := s.sending[request];
      reply == (if ok then Reported(k.callback.callbackId, k.existing) else SendFailed) &&
      s'.sending == s.sending - {request} && s'.sent == s.sent && s'.orders.Keys == s.orders.Keys &&
      (forall id :: id in s.orders && id != k.orderId ==> s'.orders[id] == s.orders[id]) &&
      (k.orderId in s.orders ==>
         var (o, o') := (s.orders[k.orderId], s'.orders[k.orderId]);
         if o.callbackId == k.callback.callbackId
         then o' == o.(inFlight := false, acknowledged := o'.acknowledged) && (o'.acknowledged <==> ok || o.acknowledged)
         else o' == o)
  {
  }

  datatype Step =
    | Order(key: string, externalStoreId: string, submissionId: string, order: OrderCreated)
    | Begin(request: string, orderId: string, status: Status, newId: string, now: int)
    | Finish(request: string, ok: bool)
    | Restart

  function Next(connected: bool, s: State, step: Step): State {
    match step
    case Order(key, externalStoreId, submissionId, order) => Deliver(s, key, externalStoreId, submissionId, order).0
    case Begin(request, orderId, status, newId, now) =>
      if request in s.sending then s else BeginChange(connected, s, request, orderId, status, newId, now).0
    case Finish(request, ok) => if request in s.sending then FinishChange(s, request, ok).0 else s
    case Restart => Empty()
  }

  function Exec(connected: bool, s: State, steps: seq<Step>): State {
    if steps == [] then s else Next(connected, Exec(connected, s, steps[..|steps| - 1]), steps[|steps| - 1])
  }

  // ----- what every run keeps -----

  // Only the status of a delivered order ever changes; an order delivered undecided gets its callback
  // identity with its decision, and one delivered decided never gets any.
  predicate StoredOk(id: string, o: Stored) {
    o.order.orderId == id && o.order == o.fingerprint.(status := o.order.status) &&
    id != "" && o.order.restaurantId != "" && o.externalStoreId != "" && o.submissionId != "" &&
    (o.fingerprint.status == Pending ==> (o.order.status == Pending <==> o.callbackId == "")) &&
    (o.fingerprint.status != Pending ==> o.order == o.fingerprint && o.callbackId == "" && o.occurredAt == 0) &&
    (o.inFlight || o.acknowledged ==> IsDecision(o.order.status)) &&
    !(o.inFlight && o.acknowledged)
  }

  ghost predicate HasSending(s: State, id: string) {
    exists r :: r in s.sending && s.sending[r].orderId == id
  }

  ghost predicate SendingOk(s: State, k: Sending) {
    k.orderId in s.orders && s.orders[k.orderId].inFlight && k.callback == CallbackFor(s.orders[k.orderId])
  }

  ghost predicate SentOk(s: State, c: Callback) {
    c.orderId in s.orders && c == CallbackFor(s.orders[c.orderId]) && IsDecision(c.status)
  }

  ghost predicate Inv(s: State) {
    (forall id :: id in s.orders ==> StoredOk(id, s.orders[id])) &&
    (forall id :: id in s.orders && s.orders[id].inFlight ==> HasSending(s, id)) &&
    (forall id :: id in s.orders && s.orders[id].acknowledged ==> CallbackFor(s.orders[id]) in s.sent) &&
    (forall r :: r in s.sending ==> SendingOk(s, s.sending[r]) && s.sending[r].callback in s.sent) &&
    (forall q, r :: q in s.sending && r in s.sending && s.sending[q].orderId == s.sending[r].orderId ==> q == r) &&
    (forall i :: 0 <= i < |s.sent| ==> SentOk(s, s.sent[i]))
  }

  lemma DeliverKeepsInv(s: State, key: string, externalStoreId: string, submissionId: string, order: OrderCreated)
    requires Inv(s)
    ensures Inv(Deliver(s, key, externalStoreId, submissionId, order).0)
  {
    var s' := Deliver(s, key, externalStoreId, submissionId, order).0;
    forall r | r in s'.sending ensures SendingOk(s', s'.sending[r]) { assert SendingOk(s, s.sending[r]); }
    forall i | 0 <= i < |s'.sent| ensures SentOk(s', s'.sent[i]) { assert SentOk(s, s.sent[i]); }
    forall id | id in s'.orders && s'.orders[id].inFlight ensures HasSending(s', id) { assert HasSending(s, id); }
  }

  // What a status request may write before it sends: the order's first decision, or nothing.
  predicate Settles(s: State, orderId: string, d: Stored) {
    orderId in s.orders && StoredOk(orderId, d) && (s.orders[orderId].order.status == Pending || d == s.orders[orderId]) &&
    d.inFlight == s.orders[orderId].inFlight && d.acknowledged == s.orders[orderId].acknowledged
  }

  lemma SettledKeepsInv(s: State, orderId: string, d: Stored)
    requires Inv(s) && Settles(s, orderId, d)
    ensures Inv(Settled(s, orderId, d))
  {
    var s' := Settled(s, orderId, d);
    assert StoredOk(orderId, s.orders[orderId]);
    forall r | r in s'.sending ensures SendingOk(s', s'.sending[r]) { assert SendingOk(s, s.sending[r]); }
    forall i | 0 <= i < |s'.sent| ensures SentOk(s', s'.sent[i]) { assert SentOk(s, s.sent[i]); }
    forall id | id in s'.orders && s'.orders[id].inFlight ensures HasSending(s', id) { assert HasSending(s, id); }
  }

  lemma DecideSettles(s: State, orderId: string, status: Status, newId: string, now: int)
    requires Inv(s) && orderId in s.orders && IsDecision(status) && (s.orders[orderId].order.status == Pending ==> newId != "")
    ensures Settles(s, orderId, Decide(s.orders[orderId], status, newId, now))
  {
    assert StoredOk(orderId, s.orders[orderId]);
  }

  lemma DepartedSends(s: State, request: string, orderId: string, existing: bool)
    requires Inv(s) && request !in s.sending && orderId in s.orders
    requires var d := s.orders[orderId]; IsDecision(d.order.status) && !d.inFlight && !d.acknowledged
    ensures var s' := Departed(s, request, orderId, existing);
      (forall r :: r in s'.sending ==> SendingOk(s', s'.sending[r]) && s'.sending[r].callback in s'.sent) &&
      (forall q, r :: q in s'.sending && r in s'.sending && s'.sending[q].orderId == s'.sending[r].orderId ==> q == r) &&
      (forall i :: 0 <= i < |s'.sent| ==> SentOk(s', s'.sent[i]))
  {
    var s' := Departed(s, request, orderId, existing);
    assert StoredOk(orderId, s.orders[orderId]);
    assert s'.sent[|s.sent|] == CallbackFor(s.orders[orderId]);
    forall r | r in s.sending ensures s.sending[r].orderId != orderId && SendingOk(s', s.sending[r]) && s.sending[r].callback in s'.sent {
      assert SendingOk(s, s.sending[r]);
    }
    forall i | 0 <= i < |s'.sent| ensures SentOk(s', s'.sent[i]) {
      if i < |s.sent| { assert SentOk(s, s.sent[i]); }
    }
  }

  lemma DepartedKeepsInv(s: State, request: string, orderId: string, existing: bool)
    requires Inv(s) && request !in s.sending && orderId in s.orders
    requires var d := s.orders[orderId]; IsDecision(d.order.status) && !d.inFlight && !d.acknowledged
    ensures Inv(Departed(s, request, orderId, existing))
  {
    var s' := Departed(s, request, orderId, existing);
    DepartedSends(s, request, orderId, existing);
    forall id | id in s'.orders && s'.orders[id].inFlight ensures HasSending(s', id) {
      if id == orderId { assert s'.sending[request].orderId == id; } else { KeepsSending(s, s', id); }
    }
  }

  lemma KeepsSending(s: State, s': State, id: string)
    requires HasSending(s, id) && forall r :: r in s.sending && s.sending[r].orderId == id ==> r in s'.sending && s'.sending[r] == s.sending[r]
    ensures HasSending(s', id)
  {
    var r :| r in s.sending && s.sending[r].orderId == id;
    assert s'.sending[r].orderId == id;
  }

  lemma BeginShape(connected: bool, s: State, request: string, orderId: string, status: Status, newId: string, now: int)
    ensures var s' := BeginChange(connected, s, request, orderId, status, newId, now).0;
      s' == s ||
      (orderId in s.orders && IsDecision(status) && (s.orders[orderId].order.status == Pending ==> newId != "") &&
       var d := Decide(s.orders[orderId], status, newId, now);
       d.order.status == status && !d.inFlight && !d.acknowledged &&
       var t := Settled(s, orderId, d);
       s' == t || s' == Departed(t, request, orderId, s.orders[orderId].order.status != Pending))
  {
  }

  lemma BeginKeepsInv(connected: bool, s: State, request: string, orderId: string, status: Status, newId: string, now: int)
    requires Inv(s) && request !in s.sending
    ensures Inv(BeginChange(connected, s, request, orderId, status, newId, now).0)
  {
    var s' := BeginChange(connected, s, request, orderId, status, newId, now).0;
    BeginShape(connected, s, request, orderId, status, newId, now);
    if s' != s {
      var d := Decide(s.orders[orderId], status, newId, now);
      DecideSettles(s, orderId, status, newId, now);
      SettledKeepsInv(s, orderId, d);
      DepartedKeepsInv(Settled(s, orderId, d), request, orderId, s.orders[orderId].order.status != Pending);
    }
  }

  lemma FinishKeepsInv(s: State, request: string, ok: bool)
    requires Inv(s) && request in s.sending
    ensures Inv(FinishChange(s, request, ok).0)
  {
    var s' := FinishChange(s, request, ok).0;
    var id := s.sending[request].orderId;
    assert SendingOk(s, s.sending[request]);
    forall r | r in s'.sending ensures SendingOk(s', s'.sending[r]) { assert SendingOk(s, s.sending[r]); }
    forall i | 0 <= i < |s'.sent| ensures SentOk(s', s'.sent[i]) { assert SentOk(s, s.sent[i]); }
    forall o | o in s'.orders && s'.orders[o].inFlight ensures HasSending(s', o) {
      assert o != id;
      KeepsSending(s, s', o);
    }
  }

  lemma NextKeepsInv(connected: bool, s: State, step: Step)
    requires Inv(s)
    ensures Inv(Next(connected, s, step))
  {
    match step
    case Order(key, externalStoreId, submissionId, order) => DeliverKeepsInv(s, key, externalStoreId, submissionId, order);
    case Begin(request, orderId, status, newId, now) =>
      if request !in s.sending { BeginKeepsInv(connected, s, request, orderId, status, newId, now); }
    case Finish(request, ok) => if request in s.sending { FinishKeepsInv(s, request, ok); }
    case Restart =>
  }

  lemma {:induction false} ExecKeepsInv(connected: bool, s: State, steps: seq<Step>)
    requires Inv(s)
    ensures Inv(Exec(connected, s, steps))
  {
    if steps != [] {
      ExecKeepsInv(connected, s, steps[..|steps| - 1]);
      NextKeepsInv(connected, Exec(connected, s, steps[..|steps| - 1]), steps[|steps| - 1]);
    }
  }

  // ----- what that means, for every run -----

  lemma {:induction false} RunHolds(connected: bool, steps: seq<Step>)
    ensures Inv(Exec(connected, Empty(), steps))
  {
    ExecKeepsInv(connected, Empty(), steps);
  }

  /** At most one callback per order is on its way, and the order's in-flight flag says exactly whether one is. */
  lemma {:induction false} OneInFlight(connected: bool, steps: seq<Step>, orderId: string)
    ensures var s := Exec(connected, Empty(), steps);
      (forall q, r :: q in s.sending && r in s.sending && s.sending[q].orderId == orderId == s.sending[r].orderId ==> q == r) &&
      (HasSending(s, orderId) <==> orderId in s.orders && s.orders[orderId].inFlight)
  {
    var s := Exec(connected, Empty(), steps);
    RunHolds(connected, steps);
    forall r | r in s.sending ensures s.sending[r].orderId in s.orders && s.orders[s.sending[r].orderId].inFlight {
      assert SendingOk(s, s.sending[r]);
    }
  }

  /**
    All callbacks ever sent for an order are one callback: the same id, status and time, which are the
    order's. It has an identity if and only if the order was delivered undecided.
   */
  lemma {:induction false} OneCallbackPerOrder(connected: bool, steps: seq<Step>, i: nat, j: nat)
    requires var s := Exec(connected, Empty(), steps);
      i < |s.sent| && j < |s.sent| && s.sent[i].orderId == s.sent[j].orderId
    ensures var s := Exec(connected, Empty(), steps);
      s.sent[i] == s.sent[j] && IsDecision(s.sent[i].status) && s.sent[i].orderId in s.orders &&
      s.sent[i] == CallbackFor(s.orders[s.sent[i].orderId]) &&
      (s.sent[i].callbackId != "" <==> s.orders[s.sent[i].orderId].fingerprint.status == Pending)
  {
    var s := Exec(connected, Empty(), steps);
    RunHolds(connected, steps);
    assert SentOk(s, s.sent[i]) && SentOk(s, s.sent[j]);
    assert StoredOk(s.sent[i].orderId, s.orders[s.sent[i].orderId]);
  }

  // What a step leaves of an order: the delivery, and a decision once there is one.
  predicate Lasts(o: Stored, o': Stored) {
    o'.fingerprint == o.fingerprint && o'.externalStoreId == o.externalStoreId && o'.submissionId == o.submissionId &&
    (o.order.status != Pending ==> CallbackFor(o') == CallbackFor(o) && o'.order == o.order) &&
    (o.acknowledged ==> o'.acknowledged)
  }

  ghost predicate SendsNone(s: State, s': State, orderId: string) {
    |s.sent| <= |s'.sent| && forall i :: |s.sent| <= i < |s'.sent| ==> s'.sent[i].orderId != orderId
  }

  lemma BeginLasts(
    connected: bool, s: State, request: string, orderId: string, status: Status, newId: string, now: int, id: string)
    requires Inv(s) && id in s.orders
    ensures var s' := BeginChange(connected, s, request, orderId, status, newId, now).0;
      id in s'.orders && Lasts(s.orders[id], s'.orders[id]) && s.sent <= s'.sent &&
      (s.orders[id].acknowledged ==> SendsNone(s, s', id))
  {
    BeginShape(connected, s, request, orderId, status, newId, now);
    if orderId in s.orders { assert StoredOk(orderId, s.orders[orderId]); }
  }

  lemma FinishLasts(s: State, request: string, ok: bool, id: string)
    requires Inv(s) && request in s.sending && id in s.orders
    ensures var s' := FinishChange(s, request, ok).0;
      id in s'.orders && Lasts(s.orders[id], s'.orders[id]) && s'.sent == s.sent
  {
    assert SendingOk(s, s.sending[request]);
  }

  lemma NextLasts(connected: bool, s: State, step: Step, id: string)
    requires Inv(s) && id in s.orders && step != Restart
    ensures var s' := Next(connected, s, step);
      id in s'.orders && Lasts(s.orders[id], s'.orders[id]) && s.sent <= s'.sent &&
      (s.orders[id].acknowledged ==> SendsNone(s, s', id))
  {
    match step
    case Begin(request, orderId, status, newId, now) => BeginLasts(connected, s, request, orderId, status, newId, now, id);
    case Finish(request, ok) => if request in s.sending { FinishLasts(s, request, ok, id); }
    case Order(key, externalStoreId, submissionId, order) =>
    case Restart =>
  }

  predicate NoRestart(steps: seq<Step>) { Restart !in steps }

  /**
    Until the process restarts, no request, redelivery or failed send resets a decision, and after an
    acknowledgement nothing more is sent for the order.
   */
  lemma {:induction false} DecisionLasts(connected: bool, steps: seq<Step>, later: seq<Step>, id: string)
    requires id in Exec(connected, Empty(), steps).orders && NoRestart(later)
    ensures var s := Exec(connected, Empty(), steps);
      var s' := Exec(connected, s, later);
      id in s'.orders && Lasts(s.orders[id], s'.orders[id]) && s.sent <= s'.sent &&
      (s.orders[id].acknowledged ==> SendsNone(s, s', id))
  {
    if later != [] {
      var s := Exec(connected, Empty(), steps);
      var n := |later| - 1;
      DecisionLasts(connected, steps, later[..n], id);
      var t := Exec(connected, s, later[..n]);
      RunHolds(connected, steps);
      ExecKeepsInv(connected, s, later[..n]);
      NextLasts(connected, t, later[n], id);
      LastsTransitive(s, t, Next(connected, t, later[n]), id);
    }
  }

  lemma LastsTransitive(a: State, b: State, c: State, id: string)
    requires id in a.orders && id in b.orders && id in c.orders
    requires Lasts(a.orders[id], b.orders[id]) && Lasts(b.orders[id], c.orders[id])
    requires a.sent <= b.sent <= c.sent
    requires a.orders[id].acknowledged ==> SendsNone(a, b, id) && SendsNone(b, c, id)
    ensures Lasts(a.orders[id], c.orders[id])
    ensures a.orders[id].acknowledged ==> SendsNone(a, c, id)
  {
    if a.orders[id].acknowledged {
      forall i | |a.sent| <= i < |c.sent| ensures c.sent[i].orderId != id {
        if i < |b.sent| { assert c.sent[i] == b.sent[i]; }
      }
    }
  }

  // ----- the handler itself -----

  lemma {:induction false} ExecSnoc(connected: bool, s: State, steps: seq<Step>, step: Step)
    ensures Exec(connected, s, steps + [step]) == Next(connected, Exec(connected, s, steps), step)
  {
    assert (steps + [step])[..|steps|] == steps;
  }

  // Steps other requests take while one is outside the mutex.
  predicate Foreign(step: Step, request: string) {
    step != Restart && !(step.Begin? && step.request == request) && !(step.Finish? && step.request == request)
  }

  lemma {:induction false} ForeignKeepsSending(connected: bool, s: State, steps: seq<Step>, request: string)
    requires request in s.sending && forall i :: 0 <= i < |steps| ==> Foreign(steps[i], request)
    ensures var s' := Exec(connected, s, steps); request in s'.sending && s'.sending[request] == s.sending[request]
  {
    if steps != [] { ForeignKeepsSending(connected, s, steps[..|steps| - 1], request); }
  }

  class Handler {
    const connected: bool                  // whether a callback sender is configured
    var orders: map<string, Stored>
    var sending: map<string, Sending>      // bookkeeping: the requests outside the mutex
    var sent: seq<Callback>                // bookkeeping: what the sender was given

    constructor (connected: bool)
      ensures Contents() == Empty() && this.connected == connected
    {
      this.connected := connected;
      orders, sending, sent := map[], map[], [];
    }

    function Contents(): State
      reads this
    {
      State(orders, sending, sent)
    }

    method ReceiveOrder(key: string, externalStoreId: string, submissionId: string, order: OrderCreated) returns (reply: Reply)
      modifies this
      ensures (Contents(), reply) == Deliver(old(Contents()), key, externalStoreId, submissionId, order)
    {
      if key == "" || externalStoreId == "" || submissionId == "" {
        return BadRequest;
      }
      if order.orderId == "" || order.orderId != key || order.restaurantId == "" || |order.items| == 0 {
        return BadRequest;
      }
      if order.orderId in orders {
        var existing := orders[order.orderId];
        if existing.fingerprint != order {
          return PayloadConflict;
        }
        return Taken(true);
      }
      orders := orders[order.orderId := Stored(order, externalStoreId, submissionId, "", false, 0, false, order)];
      return Taken(false);
    }

    // Up to the send: the decision is stored and the order marked in flight, or the request ends here.
    method Prepare(request: string, orderId: string, status: Status, newId: string, now: int) returns (reply: Option<Reply>)
      requires request !in sending
      modifies this
      ensures (Contents(), reply) == BeginChange(connected, old(Contents()), request, orderId, status, newId, now)
      ensures reply.None? ==> request in sending
    {
      if status != Accepted && status != Rejected {
        return Some(BadRequest);
      }
      if orderId !in orders {
        return Some(NotFound);
      }
      var order := orders[orderId];
      var existingDecision := order.order.status != Pending;
      if existingDecision && order.order.status != status {
        return Some(DecisionConflict);
      }
      if !existingDecision {
        if newId == "" {
          return Some(NoIdentity);
        }
        order := order.(order := order.order.(status := status));
        order := order.(callbackId := newId);
        order := order.(occurredAt := now);
      }
      if order.acknowledged {
        return Some(Reported(order.callbackId, true));
      }
      if order.inFlight {
        return Some(InProgress);
      }
      if !connected {
        orders := orders[orderId := order];
        return Some(Unavailable);
      }
      ghost var before := orders;
      var callback := CallbackFor(order);
      order := order.(inFlight := true);
      orders := orders[orderId := order];
      assert orders == before[orderId := order.(inFlight := false)][orderId := order];
      sending := sending[request := Sending(orderId, callback, existingDecision)];
      sent := sent + [callback];
      return None;
    }

    // After the send.
    method Conclude(request: string, ok: bool) returns (reply: Reply)
      requires request in sending
      modifies this
      ensures (Contents(), reply) == FinishChange(old(Contents()), request, ok)
    {
      var k := sending[request];
      sending := sending - {request};
      if k.orderId in orders {
        var current := orders[k.orderId];
        if current.callbackId == k.callback.callbackId {
          current := current.(inFlight := false);
          if ok {
            current := current.(acknowledged := true);
          }
          orders := orders[k.orderId := current];
        }
      }
      if !ok {
        return SendFailed;
      }
      return Reported(k.callback.callbackId, k.existing);
    }

    // Everything other requests do in the meantime.
    method Interfere(steps: seq<Step>)
      modifies this
      ensures Contents() == Exec(connected, old(Contents()), steps)
    {
      for i := 0 to |steps|
        invariant Contents() == Exec(connected, old(Contents()), steps[..i])
      {
        var s := Next(connected, Contents(), steps[i]);
        orders, sending, sent := s.orders, s.sending, s.sent;
        assert steps[..i + 1] == steps[..i] + [steps[i]];
        ExecSnoc(connected, old(Contents()), steps[..i], steps[i]);
      }
      assert steps[..|steps|] == steps;
    }

    /** A whole status request, with any other requests served while its callback is on its way, is a run of the steps. */
    method ChangeOrderStatus(
      request: string, orderId: string, status: Status, newId: string, now: int, meanwhile: seq<Step>, ok: bool)
      returns (reply: Reply, trace: seq<Step>)
      requires request !in sending && forall i :: 0 <= i < |meanwhile| ==> Foreign(meanwhile[i], request)
      modifies this
      ensures Contents() == Exec(connected, old(Contents()), trace)
      ensures var begin := Begin(request, orderId, status, newId, now);
        var (begun, early) := BeginChange(connected, old(Contents()), request, orderId, status, newId, now);
        if early.Some? then trace == [begin] && reply == early.value
        else
          trace == [begin] + meanwhile + [Finish(request, ok)] && request in begun.sending &&
          reply == if ok then Reported(begun.sending[request].callback.callbackId, begun.sending[request].existing) else SendFailed
    {
      ghost var s := Contents();
      var begin := Begin(request, orderId, status, newId, now);
      var early := Prepare(request, orderId, status, newId, now);
      trace := [begin];
      ExecSnoc(connected, s, [], begin);
      assert [] + [begin] == trace;
      if early.Some? {
        return early.value, trace;
      }
      ForeignKeepsSending(connected, Contents(), meanwhile, request);
      ExecAfter(connected, s, trace, meanwhile);
      Interfere(meanwhile);
      ExecSnoc(connected, s, trace + meanwhile, Finish(request, ok));
      reply := Conclude(request, ok);
      trace := trace + meanwhile + [Finish(request, ok)];
    }
  }

  lemma {:induction false} ExecAfter(connected: bool, s: State, x: seq<Step>, y: seq<Step>)
    ensures Exec(connected, s, x + y) == Exec(connected, Exec(connected, s, x), y)
  {
    if y == [] {
      assert x + y == x;
    } else {
      var n := |y| - 1;
      ExecAfter(connected, s, x, y[..n]);
      assert (x + y)[..|x + y| - 1] == x + y[..n];
    }
  }
}
