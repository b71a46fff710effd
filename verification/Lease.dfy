/**
  Rows that many workers deliver under time leases: both outbox tables and the table of restaurant
  submissions. A worker claims rows, sends each one outside any transaction, and then marks it,
  fenced by `locked_by`. It may crash, lose its lease, or lose the answer to a mark at any point.

  A table is one value, a step is what one SQL statement or one send does, and a schedule is any
  sequence of steps by any workers. Steps that cannot happen leave the table alone.
 */
module Lease {
  import opened Wrappers
  import D = OrderDomain

  // `maxAttempts` is set for submissions only: a relay never gives up.
  datatype Config = Config(ttl: nat, retryDelay: nat, maxAttempts: Option<nat>)

  datatype RowStatus =
    | Open                          // published_at IS NULL, or status 'pending'
    | Done                          // published, or 'submitted'
    | Failed                        // 'failed'
    | Decided(decision: D.Status)   // 'accepted' or 'rejected', written by a callback

  datatype Row<P> = Row(
    payload: P, status: RowStatus, attempts: nat,
    lockedBy: Option<string>, lockedUntil: Option<nat>, nextAttemptAt: Option<nat>)

  // What happened to a row so far: bookkeeping for the properties, never read by a step.
  datatype History = History(claimers: seq<string>, calls: seq<nat>, retries: nat, closes: nat, lapses: nat)

  // One claimed row in a worker's batch: a copy of the payload and the attempt number it was given.
  datatype Ticket<P> = Ticket(id: string, payload: P, attempt: nat, until: nat)

  datatype SendResult = Delivered | Refused(permanent: bool)

  // A worker inside RunOnce: what is left of its batch, and whether the first one has been sent.
  datatype Worker<P> = Worker(queue: seq<Ticket<P>>, sent: Option<SendResult>)

  datatype Entry<P> = Entry(id: string, payload: P)

  // `log` holds every send that took effect: the topic, or what the restaurants received.
  datatype Table<P> = Table(
    now: nat, rows: map<string, Row<P>>, history: map<string, History>,
    workers: map<string, Worker<P>>, log: seq<Entry<P>>)

  // A mark may be applied although its answer never arrives, and fail without being applied.
  datatype Reply = Answered | Lost(applied: bool)

  datatype Step<P> =
    | Tick(time: nat)
    | Insert(id: string, payload: P)
    | Claim(worker: string, ids: seq<string>)
    | Send(worker: string, effect: bool, result: SendResult)
    | Mark(worker: string, reply: Reply)
    | Decide(id: string, decision: D.Status)
    | Crash(worker: string)

  function Empty<P>(): Table<P> { Table(0, map[], map[], map[], []) }

  function NewRow<P>(payload: P): Row<P> { Row(payload, Open, 0, None, None, None) }

  // The WHERE clause of the claim statements.
  predicate Claimable<P>(row: Row<P>, now: nat) {
    row.status == Open &&
    (row.lockedUntil.None? || row.lockedUntil.value < now) &&
    (row.nextAttemptAt.None? || row.nextAttemptAt.value <= now)
  }

  predicate NoRepeat<T(==)>(s: seq<T>) {
    forall i, j :: 0 <= i < j < |s| ==> s[i] != s[j]
  }

  // SKIP LOCKED and LIMIT let a claim take any claimable rows, in any order.
  predicate CanClaim<P>(t: Table<P>, worker: string, ids: seq<string>) {
    worker !in t.workers && ids != [] && NoRepeat(ids) &&
    forall i :: 0 <= i < |ids| ==> ids[i] in t.rows && Claimable(t.rows[ids[i]], t.now)
  }

  function ClaimedRow<P>(c: Config, now: nat, worker: string, row: Row<P>): Row<P> {
    row.(attempts := row.attempts + 1, lockedBy := Some(worker), lockedUntil := Some(now + c.ttl))
  }

  function ClaimedHistory<P>(worker: string, row: Row<P>, h: History): History {
    h.(claimers := h.claimers + [worker], lapses := h.lapses + if row.lockedBy.Some? then 1 else 0)
  }

  function TicketFor<P>(c: Config, t: Table<P>, id: string): Ticket<P>
    requires id in t.rows
  {
    Ticket(id, t.rows[id].payload, t.rows[id].attempts + 1, t.now + c.ttl)
  }

  function Claimed<P>(c: Config, t: Table<P>, worker: string, ids: seq<string>): Table<P>
    requires CanClaim(t, worker, ids)
  {
    t.(rows := map id | id in t.rows :: if id in ids then ClaimedRow(c, t.now, worker, t.rows[id]) else t.rows[id],
       history := map id | id in t.history ::
         if id in ids && id in t.rows then ClaimedHistory(worker, t.rows[id], t.history[id]) else t.history[id],
       workers := t.workers[worker :=
         Worker(seq(|ids|, i requires 0 <= i < |ids| => TicketFor(c, t, ids[i])), None)])
  }

  predicate CanSend<P>(t: Table<P>, worker: string, effect: bool, result: SendResult) {
    worker in t.workers && t.workers[worker].queue != [] && t.workers[worker].sent == None &&
    t.workers[worker].queue[0].id in t.history && (result == Delivered ==> effect)
  }

  function Sent<P>(t: Table<P>, worker: string, effect: bool, result: SendResult): Table<P>
    requires CanSend(t, worker, effect, result)
  {
    var ticket := t.workers[worker].queue[0];
    var h := t.history[ticket.id];
    t.(history := t.history[ticket.id := h.(calls := h.calls + [ticket.attempt])],
       workers := t.workers[worker := t.workers[worker].(sent := Some(result))],
       log := if effect then t.log + [Entry(ticket.id, ticket.payload)] else t.log)
  }

  // The WHERE clause of the mark statements.
  predicate Owned<P>(t: Table<P>, worker: string, id: string) {
    id in t.rows && id in t.history && t.rows[id].lockedBy == Some(worker) && t.rows[id].status == Open
  }

  // RunOnce's choice between giving up and trying again.
  predicate IsTerminal(c: Config, attempt: nat, result: SendResult) {
    c.maxAttempts.Some? && result.Refused? && (result.permanent || attempt >= c.maxAttempts.value)
  }

  function MarkedRow<P>(c: Config, now: nat, row: Row<P>, attempt: nat, result: SendResult): Row<P> {
    var free := row.(lockedBy := None, lockedUntil := None);
    if result == Delivered then free.(status := Done, nextAttemptAt := None)
    else if IsTerminal(c, attempt, result) then free.(status := Failed, nextAttemptAt := None)
    else free.(nextAttemptAt := Some(now + c.retryDelay))
  }

  function MarkedHistory(c: Config, h: History, attempt: nat, result: SendResult): History {
    if result == Delivered || IsTerminal(c, attempt, result) then h.(closes := h.closes + 1)
    else h.(retries := h.retries + 1)
  }

  predicate CanMark<P>(t: Table<P>, worker: string) {
    worker in t.workers && t.workers[worker].queue != [] && t.workers[worker].sent.Some?
  }

  // Marking the first ticket: an unowned row or a lost answer makes RunOnce drop its whole batch.
  function Marked<P>(c: Config, t: Table<P>, worker: string, reply: Reply): Table<P>
    requires CanMark(t, worker)
  {
    var Worker(queue, sent) := t.workers[worker];
    var ticket := queue[0];
    var owned := Owned(t, worker, ticket.id);
    var applied := owned && reply != Lost(false);
    var t1 := if !applied then t else
      t.(rows := t.rows[ticket.id := MarkedRow(c, t.now, t.rows[ticket.id], ticket.attempt, sent.value)],
         history := t.history[ticket.id := MarkedHistory(c, t.history[ticket.id], ticket.attempt, sent.value)]);
    if owned && reply == Answered && |queue| > 1
    then t1.(workers := t1.workers[worker := Worker(queue[1..], None)])
    else t1.(workers := t1.workers - {worker})
  }

  function Next<P>(c: Config, t: Table<P>, step: Step<P>): Table<P> {
    match step
    case Tick(time) => t.(now := t.now + time)
    case Insert(id, payload) =>
      if id in t.rows then t
      else t.(rows := t.rows[id := NewRow(payload)], history := t.history[id := History([], [], 0, 0, 0)])
    case Claim(worker, ids) => if CanClaim(t, worker, ids) then Claimed(c, t, worker, ids) else t
    case Send(worker, effect, result) => if CanSend(t, worker, effect, result) then Sent(t, worker, effect, result) else t
    case Mark(worker, reply) => if CanMark(t, worker) then Marked(c, t, worker, reply) else t
    case Decide(id, decision) =>
      if id in t.rows then t.(rows := t.rows[id := t.rows[id].(status := Decided(decision))]) else t
    case Crash(worker) => t.(workers := t.workers - {worker})
  }

  function Exec<P>(c: Config, t: Table<P>, steps: seq<Step<P>>): Table<P> {
    if steps == [] then t else Next(c, Exec(c, t, steps[..|steps| - 1]), steps[|steps| - 1])
  }

  // ----- what every schedule keeps -----

  ghost predicate InLog<P>(log: seq<Entry<P>>, id: string) {
    exists i :: 0 <= i < |log| && log[i].id == id
  }

  predicate RowOk<P>(c: Config, now: nat, row: Row<P>, h: History) {
    |h.claimers| == row.attempts &&
    (row.lockedBy.Some? <==> row.lockedUntil.Some?) &&
    (row.lockedBy.Some? ==> row.attempts > 0 && h.claimers[row.attempts - 1] == row.lockedBy.value) &&
    (row.lockedUntil.Some? ==> row.lockedUntil.value <= now + c.ttl) &&
    (row.nextAttemptAt.Some? ==> row.nextAttemptAt.value <= now + c.retryDelay) &&
    NoRepeat(h.calls) && (forall i :: 0 <= i < |h.calls| ==> 1 <= h.calls[i] <= row.attempts) &&
    row.attempts == h.retries + h.closes + h.lapses + (if row.lockedBy.Some? then 1 else 0) &&
    h.closes + (if row.lockedBy.Some? then 1 else 0) <= 1 &&
    (row.status == Open ==> h.closes == 0) &&
    (c.maxAttempts.Some? ==> h.retries < c.maxAttempts.value)
  }

  // A live ticket is either the row's current lease, or an expired one that somebody claimed over.
  predicate TicketOk<P(==)>(now: nat, worker: string, row: Row<P>, h: History, k: Ticket<P>) {
    k.payload == row.payload && 1 <= k.attempt <= row.attempts == |h.claimers| && h.claimers[k.attempt - 1] == worker &&
    (k.attempt == row.attempts ==> row.lockedBy == Some(worker) && row.lockedUntil == Some(k.until)) &&
    (k.attempt < row.attempts ==> row.lockedBy != Some(worker) && k.until < now)
  }

  ghost predicate TicketAt<P>(t: Table<P>, worker: string, k: Ticket<P>, unsent: bool) {
    k.id in t.rows && k.id in t.history && TicketOk(t.now, worker, t.rows[k.id], t.history[k.id], k) &&
    (unsent ==> k.attempt !in t.history[k.id].calls)
  }

  ghost predicate WorkerOk<P>(t: Table<P>, worker: string, state: Worker<P>) {
    state.queue != [] &&
    (forall i {:trigger state.queue[i]} :: 0 <= i < |state.queue| ==>
       TicketAt(t, worker, state.queue[i], i > 0 || state.sent.None?)) &&
    (forall i, j :: 0 <= i < j < |state.queue| ==> state.queue[i].id != state.queue[j].id) &&
    (state.sent == Some(Delivered) ==> InLog(t.log, state.queue[0].id))
  }

  ghost predicate RowsOk<P>(c: Config, t: Table<P>) {
    t.rows.Keys == t.history.Keys &&
    (forall id :: id in t.rows ==> RowOk(c, t.now, t.rows[id], t.history[id])) &&
    (forall id :: id in t.rows && t.rows[id].status == Done ==> InLog(t.log, id))
  }

  ghost predicate LogOk<P>(t: Table<P>) {
    forall i :: 0 <= i < |t.log| ==> t.log[i].id in t.rows && t.log[i].payload == t.rows[t.log[i].id].payload
  }

  ghost predicate Inv<P>(c: Config, t: Table<P>) {
    RowsOk(c, t) && LogOk(t) && forall w :: w in t.workers ==> WorkerOk(t, w, t.workers[w])
  }

  predicate ValidConfig(c: Config) {
    c.maxAttempts.Some? ==> c.maxAttempts.value > 0
  }

  // One row at a time: what claiming, sending and marking do to a row and to the tickets on it.

  lemma ClaimedRowOk<P>(c: Config, now: nat, worker: string, row: Row<P>, h: History)
    requires RowOk(c, now, row, h) && Claimable(row, now)
    ensures RowOk(c, now, ClaimedRow(c, now, worker, row), ClaimedHistory(worker, row, h))
  {
  }

  lemma ClaimExpiresTicket<P>(c: Config, now: nat, worker: string, other: string, row: Row<P>, h: History, k: Ticket<P>)
    requires RowOk(c, now, row, h) && Claimable(row, now) && TicketOk(now, other, row, h, k) && other != worker
    ensures TicketOk(now, other, ClaimedRow(c, now, worker, row), ClaimedHistory(worker, row, h), k)
  {
  }

  lemma SentRowOk<P>(c: Config, now: nat, row: Row<P>, h: History, k: Ticket<P>, worker: string)
    requires RowOk(c, now, row, h) && TicketOk(now, worker, row, h, k) && k.attempt !in h.calls
    ensures RowOk(c, now, row, h.(calls := h.calls + [k.attempt]))
  {
  }

  lemma MarkedRowOk<P>(c: Config, now: nat, worker: string, row: Row<P>, h: History, k: Ticket<P>, result: SendResult)
    requires ValidConfig(c) && RowOk(c, now, row, h) && TicketOk(now, worker, row, h, k)
    requires row.lockedBy == Some(worker) && row.status == Open
    ensures RowOk(c, now, MarkedRow(c, now, row, k.attempt, result), MarkedHistory(c, h, k.attempt, result))
  {
  }

  lemma MarkKeepsOtherTicket<P>(
    c: Config, now: nat, worker: string, other: string, row: Row<P>, h: History, attempt: nat, result: SendResult, k: Ticket<P>)
    requires RowOk(c, now, row, h) && TicketOk(now, other, row, h, k)
    requires row.lockedBy == Some(worker) && other != worker
    ensures TicketOk(now, other, MarkedRow(c, now, row, attempt, result), MarkedHistory(c, h, attempt, result), k)
  {
  }

  lemma TickKeepsInv<P>(c: Config, t: Table<P>, time: nat)
    requires Inv(c, t)
    ensures Inv(c, Next(c, t, Tick(time)))
  {
    var t' := Next(c, t, Tick(time));
    forall w | w in t'.workers ensures WorkerOk(t', w, t'.workers[w]) { assert WorkerOk(t, w, t.workers[w]); }
  }

  lemma InsertKeepsInv<P>(c: Config, t: Table<P>, id: string, payload: P)
    requires ValidConfig(c) && Inv(c, t) && id !in t.rows
    ensures Inv(c, Next(c, t, Insert(id, payload)))
  {
    var t' := Next(c, t, Insert(id, payload));
    assert RowOk(c, t.now, t'.rows[id], t'.history[id]);
    forall w | w in t'.workers ensures WorkerOk(t', w, t'.workers[w]) {
      assert WorkerOk(t, w, t.workers[w]);
      var queue := t.workers[w].queue;
      forall i | 0 <= i < |queue| ensures TicketAt(t', w, queue[i], i > 0 || t.workers[w].sent.None?) {
        assert TicketAt(t, w, queue[i], i > 0 || t.workers[w].sent.None?);
      }
    }
  }

  lemma DecideKeepsInv<P>(c: Config, t: Table<P>, id: string, decision: D.Status)
    requires Inv(c, t)
    ensures Inv(c, Next(c, t, Decide(id, decision)))
  {
    var t' := Next(c, t, Decide(id, decision));
    if id in t.rows {
      DecidedRowOk(c, t.now, t.rows[id], t.history[id], decision);
      assert t'.rows.Keys == t.rows.Keys;
      forall w | w in t'.workers ensures WorkerOk(t', w, t'.workers[w]) { DecideKeepsWorker(c, t, id, decision, w); }
    }
  }

  lemma DecidedRowOk<P>(c: Config, now: nat, row: Row<P>, h: History, decision: D.Status)
    requires RowOk(c, now, row, h)
    ensures RowOk(c, now, row.(status := Decided(decision)), h)
  {
  }

  lemma DecideKeepsWorker<P>(c: Config, t: Table<P>, id: string, decision: D.Status, w: string)
    requires Inv(c, t) && id in t.rows && w in t.workers
    ensures var t' := Next(c, t, Decide(id, decision)); WorkerOk(t', w, t'.workers[w])
  {
    var t' := Next(c, t, Decide(id, decision));
    var Worker(queue, sent) := t.workers[w];
    assert WorkerOk(t, w, t.workers[w]);
    forall i | 0 <= i < |queue| ensures TicketAt(t', w, queue[i], i > 0 || sent.None?) {
      assert TicketAt(t, w, queue[i], i > 0 || sent.None?);
    }
  }

  lemma ClaimKeepsInv<P>(c: Config, t: Table<P>, worker: string, ids: seq<string>)
    requires Inv(c, t) && CanClaim(t, worker, ids)
    ensures Inv(c, Claimed(c, t, worker, ids))
  {
    var t' := Claimed(c, t, worker, ids);
    forall id | id in t'.rows ensures RowOk(c, t'.now, t'.rows[id], t'.history[id]) {
      if id in ids { ClaimedRowOk(c, t.now, worker, t.rows[id], t.history[id]); }
    }
    forall w | w in t'.workers ensures WorkerOk(t', w, t'.workers[w]) {
      if w == worker {
        ClaimerOk(c, t, worker, ids);
      } else {
        ClaimKeepsOther(c, t, worker, ids, w);
      }
    }
  }

  lemma ClaimerOk<P>(c: Config, t: Table<P>, worker: string, ids: seq<string>)
    requires Inv(c, t) && CanClaim(t, worker, ids)
    ensures var t' := Claimed(c, t, worker, ids); WorkerOk(t', worker, t'.workers[worker])
  {
    var t' := Claimed(c, t, worker, ids);
    var queue := t'.workers[worker].queue;
    forall i | 0 <= i < |queue| ensures TicketAt(t', worker, queue[i], true) {
      assert queue[i] == TicketFor(c, t, ids[i]);
      var h := t.history[ids[i]];
      assert RowOk(c, t.now, t.rows[ids[i]], h);
      assert forall j :: 0 <= j < |h.calls| ==> h.calls[j] < queue[i].attempt;
    }
  }

  lemma ClaimKeepsOther<P>(c: Config, t: Table<P>, worker: string, ids: seq<string>, w: string)
    requires Inv(c, t) && CanClaim(t, worker, ids) && w in t.workers
    ensures var t' := Claimed(c, t, worker, ids); WorkerOk(t', w, t'.workers[w])
  {
    var t' := Claimed(c, t, worker, ids);
    var Worker(queue, sent) := t.workers[w];
    assert WorkerOk(t, w, t.workers[w]);
    forall i | 0 <= i < |queue| ensures TicketAt(t', w, queue[i], i > 0 || sent.None?) {
      var id := queue[i].id;
      assert TicketAt(t, w, queue[i], i > 0 || sent.None?);
      if id in ids {
        ClaimExpiresTicket(c, t.now, worker, w, t.rows[id], t.history[id], queue[i]);
      }
    }
  }

  lemma SendKeepsInv<P>(c: Config, t: Table<P>, worker: string, effect: bool, result: SendResult)
    requires Inv(c, t) && CanSend(t, worker, effect, result)
    ensures Inv(c, Sent(t, worker, effect, result))
  {
    var t' := Sent(t, worker, effect, result);
    var ticket := t.workers[worker].queue[0];
    assert WorkerOk(t, worker, t.workers[worker]);
    assert TicketAt(t, worker, ticket, true);
    SentRowOk(c, t.now, t.rows[ticket.id], t.history[ticket.id], ticket, worker);
    LogGrows(t, t');
    if effect { assert t'.log[|t.log|].id == ticket.id; }
    forall w | w in t'.workers ensures WorkerOk(t', w, t'.workers[w]) {
      SendKeepsWorker(c, t, worker, effect, result, w);
    }
  }

  lemma LogGrows<P>(t: Table<P>, t': Table<P>)
    requires t.log <= t'.log
    ensures forall id :: InLog(t.log, id) ==> InLog(t'.log, id)
  {
    forall id | InLog(t.log, id) ensures InLog(t'.log, id) {
      var i :| 0 <= i < |t.log| && t.log[i].id == id;
      assert t'.log[i].id == id;
    }
  }

  lemma SendKeepsTicket<P>(
    c: Config, t: Table<P>, worker: string, effect: bool, result: SendResult, w: string, k: Ticket<P>, unsent: bool)
    requires CanSend(t, worker, effect, result) && TicketAt(t, w, k, unsent)
    requires var first := t.workers[worker].queue[0];
      TicketAt(t, worker, first, true) && (k.id == first.id && unsent ==> w != worker)
    ensures TicketAt(Sent(t, worker, effect, result), w, k, unsent)
  {
    var first := t.workers[worker].queue[0];
    if k.id == first.id && unsent {
      assert t.history[first.id].claimers[k.attempt - 1] == w;
      assert t.history[first.id].claimers[first.attempt - 1] == worker;
    }
  }

  lemma SendKeepsWorker<P>(c: Config, t: Table<P>, worker: string, effect: bool, result: SendResult, w: string)
    requires Inv(c, t) && CanSend(t, worker, effect, result) && w in t.workers
    ensures var t' := Sent(t, worker, effect, result); WorkerOk(t', w, t'.workers[w])
  {
    var t' := Sent(t, worker, effect, result);
    var first := t.workers[worker].queue[0];
    var Worker(queue, sent) := t.workers[w];
    assert WorkerOk(t, worker, t.workers[worker]) && WorkerOk(t, w, t.workers[w]);
    assert TicketAt(t, worker, first, true);
    LogGrows(t, t');
    if effect { assert t'.log[|t.log|].id == first.id; }
    var sent' := t'.workers[w].sent;
    forall i | 0 <= i < |queue| ensures TicketAt(t', w, queue[i], i > 0 || sent'.None?) {
      assert TicketAt(t, w, queue[i], i > 0 || sent.None?);
      SendKeepsTicket(c, t, worker, effect, result, w, queue[i], i > 0 || sent'.None?);
    }
  }

  lemma MarkKeepsRows<P>(c: Config, t: Table<P>, worker: string, reply: Reply)
    requires ValidConfig(c) && Inv(c, t) && CanMark(t, worker)
    ensures RowsOk(c, Marked(c, t, worker, reply))
  {
    var t' := Marked(c, t, worker, reply);
    var Worker(queue, sent) := t.workers[worker];
    var ticket := queue[0];
    assert WorkerOk(t, worker, t.workers[worker]);
    assert TicketAt(t, worker, ticket, sent.None?);
    var row, h := t.rows[ticket.id], t.history[ticket.id];
    if Owned(t, worker, ticket.id) && reply != Lost(false) {
      MarkedRowOk(c, t.now, worker, row, h, ticket, sent.value);
      var row', h' := MarkedRow(c, t.now, row, ticket.attempt, sent.value), MarkedHistory(c, h, ticket.attempt, sent.value);
      assert t'.rows == t.rows[ticket.id := row'] && t'.history == t.history[ticket.id := h'];
      UpdateKeepsRows(c, t, t', ticket.id, row', h');
    }
  }

  lemma UpdateKeepsRows<P>(c: Config, t: Table<P>, t': Table<P>, id: string, row: Row<P>, h: History)
    requires RowsOk(c, t) && id in t.rows && RowOk(c, t.now, row, h) && (row.status == Done ==> InLog(t.log, id))
    requires t'.rows == t.rows[id := row] && t'.history == t.history[id := h] && t'.now == t.now && t'.log == t.log
    ensures RowsOk(c, t')
  {
  }

  lemma MarkShape<P>(c: Config, t: Table<P>, worker: string, reply: Reply)
    requires CanMark(t, worker)
    ensures var t' := Marked(c, t, worker, reply);
      t'.log == t.log && t'.now == t.now && t'.rows.Keys == t.rows.Keys &&
      forall id :: id in t.rows ==> t'.rows[id].payload == t.rows[id].payload
  {
  }

  lemma MarkKeepsLog<P>(c: Config, t: Table<P>, worker: string, reply: Reply)
    requires LogOk(t) && CanMark(t, worker)
    ensures LogOk(Marked(c, t, worker, reply))
  {
    MarkShape(c, t, worker, reply);
  }

  lemma MarkKeepsInv<P>(c: Config, t: Table<P>, worker: string, reply: Reply)
    requires ValidConfig(c) && Inv(c, t) && CanMark(t, worker)
    ensures Inv(c, Marked(c, t, worker, reply))
  {
    var t' := Marked(c, t, worker, reply);
    MarkKeepsRows(c, t, worker, reply);
    MarkKeepsLog(c, t, worker, reply);
    forall w | w in t'.workers ensures WorkerOk(t', w, t'.workers[w]) {
      MarkKeepsWorker(c, t, worker, reply, w);
    }
  }

  lemma MarkKeepsTicket<P>(c: Config, t: Table<P>, worker: string, reply: Reply, w: string, k: Ticket<P>, unsent: bool)
    requires RowsOk(c, t) && CanMark(t, worker) && TicketAt(t, w, k, unsent)
    requires k.id == t.workers[worker].queue[0].id ==> w != worker
    ensures TicketAt(Marked(c, t, worker, reply), w, k, unsent)
  {
    var first := t.workers[worker].queue[0];
    if k.id == first.id && Owned(t, worker, first.id) && reply != Lost(false) {
      MarkKeepsOtherTicket(c, t.now, worker, w, t.rows[first.id], t.history[first.id], first.attempt, t.workers[worker].sent.value, k);
    }
  }

  lemma MarkKeepsWorker<P>(c: Config, t: Table<P>, worker: string, reply: Reply, w: string)
    requires ValidConfig(c) && Inv(c, t) && CanMark(t, worker) && w in Marked(c, t, worker, reply).workers
    ensures var t' := Marked(c, t, worker, reply); WorkerOk(t', w, t'.workers[w])
  {
    var t' := Marked(c, t, worker, reply);
    var Worker(queue, sent) := t.workers[w];
    assert WorkerOk(t, w, t.workers[w]);
    forall i | 0 <= i < |queue| && (w != worker || i > 0) ensures TicketAt(t', w, queue[i], i > 0 || sent.None?) {
      assert TicketAt(t, w, queue[i], i > 0 || sent.None?);
      MarkKeepsTicket(c, t, worker, reply, w, queue[i], i > 0 || sent.None?);
    }
    if w == worker {
      forall i | 0 <= i < |queue| - 1 ensures TicketAt(t', w, queue[1..][i], true) {
        assert queue[1..][i] == queue[i + 1];
      }
    }
  }

  lemma NextKeepsInv<P>(c: Config, t: Table<P>, step: Step<P>)
    requires ValidConfig(c) && Inv(c, t)
    ensures Inv(c, Next(c, t, step))
  {
    match step
    case Tick(time) => TickKeepsInv(c, t, time);
    case Insert(id, payload) => if id !in t.rows { InsertKeepsInv(c, t, id, payload); }
    case Claim(worker, ids) => if CanClaim(t, worker, ids) { ClaimKeepsInv(c, t, worker, ids); }
    case Send(worker, effect, result) => if CanSend(t, worker, effect, result) { SendKeepsInv(c, t, worker, effect, result); }
    case Mark(worker, reply) => if CanMark(t, worker) { MarkKeepsInv(c, t, worker, reply); }
    case Decide(id, decision) => DecideKeepsInv(c, t, id, decision);
    case Crash(worker) => CrashKeepsInv(c, t, worker);
  }

  lemma CrashKeepsInv<P>(c: Config, t: Table<P>, worker: string)
    requires Inv(c, t)
    ensures Inv(c, Next(c, t, Crash(worker)))
  {
    var t' := Next(c, t, Crash(worker));
    forall w | w in t'.workers ensures WorkerOk(t', w, t'.workers[w]) { assert WorkerOk(t, w, t.workers[w]); }
  }

  /** Every schedule keeps the invariant. */
  lemma {:induction false} ExecKeepsInv<P>(c: Config, t: Table<P>, steps: seq<Step<P>>)
    requires ValidConfig(c) && Inv(c, t)
    ensures Inv(c, Exec(c, t, steps))
  {
    if steps != [] {
      ExecKeepsInv(c, t, steps[..|steps| - 1]);
      NextKeepsInv(c, Exec(c, t, steps[..|steps| - 1]), steps[|steps| - 1]);
    }
  }

  // ----- what that means, for every schedule from an empty table -----

  predicate Holds<P>(t: Table<P>, worker: string, i: nat) {
    worker in t.workers && i < |t.workers[worker].queue|
  }

  function Held<P>(t: Table<P>, worker: string, i: nat): Ticket<P>
    requires Holds(t, worker, i)
  {
    t.workers[worker].queue[i]
  }

  lemma {:induction false} RunHolds<P>(c: Config, steps: seq<Step<P>>)
    requires ValidConfig(c)
    ensures Inv(c, Exec(c, Empty(), steps))
  {
    ExecKeepsInv(c, Empty<P>(), steps);
  }

  lemma HeldTicketOk<P>(c: Config, t: Table<P>, w: string, i: nat)
    requires Inv(c, t) && Holds(t, w, i)
    ensures TicketAt(t, w, Held(t, w, i), i > 0 || t.workers[w].sent.None?)
  {
    assert WorkerOk(t, w, t.workers[w]);
  }

  /** Two workers never hold unexpired leases on the same row. */
  lemma {:induction false} MutualExclusion<P>(c: Config, steps: seq<Step<P>>, v: string, i: nat, w: string, j: nat)
    requires ValidConfig(c)
    requires var t := Exec(c, Empty(), steps);
      Holds(t, v, i) && Holds(t, w, j) && v != w && Held(t, v, i).id == Held(t, w, j).id
    ensures var t := Exec(c, Empty(), steps);
      Held(t, v, i).until < t.now || Held(t, w, j).until < t.now
  {
    var t := Exec(c, Empty(), steps);
    RunHolds(c, steps);
    HeldTicketOk(c, t, v, i);
    HeldTicketOk(c, t, w, j);
  }

  /**
    Fencing, exactly: a mark finds its row owned if and only if the ticket carries the row's current
    attempt number and the row is still open, and then the marker made the row's latest claim. An
    expired lease that nobody claimed over still marks.
   */
  lemma {:induction false} MarkIsFenced<P>(c: Config, steps: seq<Step<P>>, w: string)
    requires ValidConfig(c) && CanMark(Exec(c, Empty(), steps), w)
    ensures var t := Exec(c, Empty(), steps);
      var k := t.workers[w].queue[0];
      k.id in t.rows && k.id in t.history && k.attempt > 0 &&
      (Owned(t, w, k.id) <==> k.attempt == t.rows[k.id].attempts && t.rows[k.id].status == Open) &&
      (Owned(t, w, k.id) ==> |t.history[k.id].claimers| == k.attempt && t.history[k.id].claimers[k.attempt - 1] == w)
  {
    var t := Exec(c, Empty(), steps);
    RunHolds(c, steps);
    HeldTicketOk(c, t, w, 0);
    assert Held(t, w, 0) == t.workers[w].queue[0];
  }

  lemma {:induction false} CallsFitAttempts(calls: seq<nat>, n: nat)
    requires NoRepeat(calls) && forall i :: 0 <= i < |calls| ==> 1 <= calls[i] <= n
    ensures |calls| <= n
  {
    if calls != [] {
      assert 1 <= calls[0] <= n;
      if n in calls {
        var k :| 0 <= k < |calls| && calls[k] == n;
        CallsFitAttempts(calls[..k] + calls[k + 1..], n - 1);
      } else {
        CallsFitAttempts(calls, n - 1);
      }
    }
  }

  /**
    Attempt accounting. Every attempt is sent at most once; attempts exceed the limit only by leases
    that were claimed over without a mark; failures that are retried stay below the limit; and without
    a lapsed lease, a row that was marked as often as the limit allows is no longer open.
   */
  lemma {:induction false} AttemptAccounting<P>(c: Config, steps: seq<Step<P>>, id: string)
    requires ValidConfig(c) && id in Exec(c, Empty(), steps).rows
    ensures var t := Exec(c, Empty(), steps);
      id in t.history &&
      var (row, h) := (t.rows[id], t.history[id]);
      |h.calls| <= row.attempts == |h.claimers| &&
      (c.maxAttempts.Some? ==>
         row.attempts <= c.maxAttempts.value + h.lapses && h.retries <= c.maxAttempts.value - 1 &&
         (h.lapses == 0 && row.lockedBy.None? && row.attempts >= c.maxAttempts.value ==> row.status != Open))
  {
    var t := Exec(c, Empty(), steps);
    RunHolds(c, steps);
    assert RowOk(c, t.now, t.rows[id], t.history[id]);
    CallsFitAttempts(t.history[id].calls, t.rows[id].attempts);
  }

  lemma {:induction false} ExecFour<P>(c: Config, t: Table<P>, w: Step<P>, x: Step<P>, y: Step<P>, z: Step<P>)
    ensures Exec(c, t, [w, x, y, z]) == Next(c, Next(c, Next(c, Next(c, t, w), x), y), z)
  {
    assert [] + [w] == [w] && [w] + [x] == [w, x] && [w, x] + [y] == [w, x, y] && [w, x, y] + [z] == [w, x, y, z];
    ExecSnoc(c, t, [], w);
    ExecSnoc(c, t, [w], x);
    ExecSnoc(c, t, [w, x], y);
    ExecSnoc(c, t, [w, x, y], z);
  }

  /** The limit itself can be passed: one lapsed lease is enough. */
  lemma AttemptsCanPassTheLimit<P>(id: string, v: string, w: string, payload: P)
    requires v != w
    ensures var c := Config(1, 1, Some(1));
      var t := Exec(c, Empty(), [Insert(id, payload), Claim(v, [id]), Tick(2), Claim(w, [id])]);
      id in t.rows && t.rows[id].attempts == 2
  {
    var c := Config(1, 1, Some(1));
    var t1 := Next(c, Empty<P>(), Insert(id, payload));
    assert CanClaim(t1, v, [id]);
    var t2 := Claimed(c, t1, v, [id]);
    assert CanClaim(t2.(now := 2), w, [id]);
    ExecFour(c, Empty(), Insert(id, payload), Claim(v, [id]), Tick(2), Claim(w, [id]));
  }

  lemma {:induction false} ExecSnoc<P>(c: Config, t: Table<P>, steps: seq<Step<P>>, step: Step<P>)
    ensures Exec(c, t, steps + [step]) == Next(c, Exec(c, t, steps), step)
  {
    assert (steps + [step])[..|steps|] == steps;
  }

  /** A finished row was delivered, and every delivery under one id carries the row's own payload. */
  lemma {:induction false} NothingLostOrForged<P>(c: Config, steps: seq<Step<P>>, id: string)
    requires ValidConfig(c) && id in Exec(c, Empty(), steps).rows
    ensures var t := Exec(c, Empty(), steps);
      (t.rows[id].status == Done ==> exists i :: 0 <= i < |t.log| && t.log[i].id == id) &&
      (forall i :: 0 <= i < |t.log| && t.log[i].id == id ==> t.log[i].payload == t.rows[id].payload)
  {
    RunHolds(c, steps);
  }

  /** Rows are never removed or rewritten: payloads last, and a closed row only changes by a decision. */
  lemma {:induction false} RowsLast<P>(c: Config, t: Table<P>, steps: seq<Step<P>>, id: string)
    requires id in t.rows
    ensures var t' := Exec(c, t, steps);
      id in t'.rows && t'.rows[id].payload == t.rows[id].payload && t.rows[id].attempts <= t'.rows[id].attempts &&
      (t.rows[id].status != Open ==> t'.rows[id].status == t.rows[id].status || t'.rows[id].status.Decided?) &&
      ((forall i :: 0 <= i < |steps| ==> !(steps[i].Decide? && steps[i].id == id)) && t.rows[id].status != Open ==>
         t'.rows[id].status == t.rows[id].status)
  {
    if steps != [] {
      RowsLast(c, t, steps[..|steps| - 1], id);
      RowLasts(c, Exec(c, t, steps[..|steps| - 1]), steps[|steps| - 1], id);
    }
  }

  lemma RowLasts<P>(c: Config, t: Table<P>, step: Step<P>, id: string)
    requires id in t.rows
    ensures var t' := Next(c, t, step);
      id in t'.rows && t'.rows[id].payload == t.rows[id].payload && t.rows[id].attempts <= t'.rows[id].attempts &&
      (t.rows[id].status != Open ==> t'.rows[id].status == t.rows[id].status || (step.Decide? && step.id == id)) &&
      (step.Decide? && step.id == id ==> t'.rows[id].status.Decided?)
  {
    match step
    case Claim(worker, ids) =>
      if CanClaim(t, worker, ids) && id in ids {
        var i :| 0 <= i < |ids| && ids[i] == id;
        assert Claimable(t.rows[ids[i]], t.now);
      }
    case _ =>
  }

  /** A claim that takes effect, column by column: who may be claimed when, and what the claim writes. */
  lemma ClaimEffect<P>(c: Config, t: Table<P>, worker: string, ids: seq<string>, id: string)
    requires Next(c, t, Claim(worker, ids)) != t && id in t.rows
    ensures var (row, row') := (t.rows[id], Next(c, t, Claim(worker, ids)).rows[id]);
      if id in ids then
        row.status == Open && (row.lockedUntil.Some? ==> row.lockedUntil.value < t.now) &&
        (row.nextAttemptAt.Some? ==> row.nextAttemptAt.value <= t.now) &&
        row' == Row(row.payload, Open, row.attempts + 1, Some(worker), Some(t.now + c.ttl), row.nextAttemptAt)
      else row' == row
  {
    if id in ids {
      var i :| 0 <= i < |ids| && ids[i] == id;
      assert Claimable(t.rows[ids[i]], t.now);
    }
  }

  /** Nothing due stands in a claim's way: a worker that is not busy can claim any row past its lease and its delay. */
  lemma DueIsClaimed<P>(c: Config, t: Table<P>, worker: string, id: string)
    requires worker !in t.workers && id in t.rows && t.rows[id].status == Open
    requires t.rows[id].lockedUntil.Some? ==> t.rows[id].lockedUntil.value < t.now
    requires t.rows[id].nextAttemptAt.Some? ==> t.rows[id].nextAttemptAt.value <= t.now
    ensures Next(c, t, Claim(worker, [id])).rows[id].lockedBy == Some(worker)
    ensures Next(c, t, Claim(worker, [id])).workers[worker].queue ==
            [Ticket(id, t.rows[id].payload, t.rows[id].attempts + 1, t.now + c.ttl)]
  {
    assert CanClaim(t, worker, [id]);
    assert Claimed(c, t, worker, [id]).workers[worker].queue == [TicketFor(c, t, id)];
  }

  /**
    A mark that takes effect, column by column. A refused send gives the row up if and only if there is
    a limit and the refusal is permanent or the attempt has reached the limit; otherwise the row is open
    and free again, and due after the retry delay. No other row changes.
   */
  lemma MarkEffect<P>(c: Config, t: Table<P>, worker: string, reply: Reply, id: string)
    requires CanMark(t, worker) && id in t.rows
    ensures var (k, result) := (t.workers[worker].queue[0], t.workers[worker].sent.value);
      var (row, row') := (t.rows[id], Next(c, t, Mark(worker, reply)).rows[id]);
      var gaveUp := c.maxAttempts.Some? && (result == Refused(true) || k.attempt >= c.maxAttempts.value);
      if id != k.id || id !in t.history || row.lockedBy != Some(worker) || row.status != Open || reply == Lost(false) then
        row' == row
      else if result == Delivered then row' == Row(row.payload, Done, row.attempts, None, None, None)
      else if gaveUp then row' == Row(row.payload, Failed, row.attempts, None, None, None)
      else row' == Row(row.payload, Open, row.attempts, None, None, Some(t.now + c.retryDelay))
  {
  }

  // The mark at step n gave the row up: a refused send, for good or at the limit.
  ghost predicate GaveUpAt<P>(c: Config, steps: seq<Step<P>>, n: nat, id: string) {
    n < |steps| && steps[n].Mark? && steps[n].reply != Lost(false) &&
    var t := Exec(c, Empty(), steps[..n]);
    var worker := steps[n].worker;
    worker in t.workers && t.workers[worker].queue != [] && t.workers[worker].queue[0].id == id && id in t.rows &&
    t.rows[id].lockedBy == Some(worker) && c.maxAttempts.Some? &&
    (t.workers[worker].sent == Some(Refused(true)) ||
     (t.workers[worker].sent == Some(Refused(false)) && c.maxAttempts.value <= t.workers[worker].queue[0].attempt <= t.rows[id].attempts))
  }

  // Only such a mark makes a row failed.
  lemma BecomesFailed<P>(c: Config, t: Table<P>, step: Step<P>, id: string)
    requires id in Next(c, t, step).rows && Next(c, t, step).rows[id].status == Failed
    ensures (id in t.rows && t.rows[id].status == Failed) ||
      (step.Mark? && step.reply != Lost(false) && CanMark(t, step.worker) && t.workers[step.worker].queue[0].id == id &&
       id in t.rows && t.rows[id].lockedBy == Some(step.worker) && c.maxAttempts.Some? &&
       t.workers[step.worker].sent.value.Refused? &&
       (t.workers[step.worker].sent.value.permanent || t.workers[step.worker].queue[0].attempt >= c.maxAttempts.value))
  {
    if step.Claim? && id in t.rows && CanClaim(t, step.worker, step.ids) { ClaimKeepsFailed(c, t, step.worker, step.ids, id); }
  }

  lemma ClaimKeepsFailed<P>(c: Config, t: Table<P>, worker: string, ids: seq<string>, id: string)
    requires CanClaim(t, worker, ids) && id in t.rows
    ensures Claimed(c, t, worker, ids).rows[id].status == t.rows[id].status
  {
  }

  lemma GaveUpEarlier<P>(c: Config, steps: seq<Step<P>>, m: nat, n: nat, id: string)
    requires m <= |steps| && GaveUpAt(c, steps[..m], n, id)
    ensures GaveUpAt(c, steps, n, id)
  {
    assert steps[..m][..n] == steps[..n];
  }

  /** In every run, a failed row was given up by a mark of a send that was refused for good, or at the limit. */
  lemma {:induction false} FailedWasGivenUp<P>(c: Config, steps: seq<Step<P>>, id: string) returns (n: nat)
    requires ValidConfig(c) && id in Exec(c, Empty(), steps).rows && Exec(c, Empty(), steps).rows[id].status == Failed
    ensures GaveUpAt(c, steps, n, id)
  {
    var m := |steps| - 1;
    var t := Exec(c, Empty(), steps[..m]);
    if id in t.rows && t.rows[id].status == Failed {
      n := FailedWasGivenUp(c, steps[..m], id);
      GaveUpEarlier(c, steps, m, n, id);
    } else {
      n := m;
      BecomesFailed(c, t, steps[m], id);
      RunHolds(c, steps[..m]);
      HeldTicketOk(c, t, steps[m].worker, 0);
    }
  }

  // Step n sends row id, and this is how it ends.
  ghost predicate Sends<P>(c: Config, steps: seq<Step<P>>, n: nat, id: string, result: SendResult) {
    n < |steps| && steps[n].Send? && steps[n].result == result &&
    var t := Exec(c, Empty(), steps[..n]);
    CanSend(t, steps[n].worker, steps[n].effect, result) && t.workers[steps[n].worker].queue[0].id == id
  }

  /** And so its attempts have reached the limit, or some send of it was refused for good. */
  lemma {:induction false} FailedHasReason<P>(c: Config, steps: seq<Step<P>>, id: string)
    requires ValidConfig(c) && id in Exec(c, Empty(), steps).rows && Exec(c, Empty(), steps).rows[id].status == Failed
    ensures c.maxAttempts.Some?
    ensures Exec(c, Empty(), steps).rows[id].attempts >= c.maxAttempts.value || exists n :: Sends(c, steps, n, id, Refused(true))
  {
    var n := FailedWasGivenUp(c, steps, id);
    var t := Exec(c, Empty(), steps[..n]);
    var worker := steps[n].worker;
    if t.workers[worker].sent == Some(Refused(true)) {
      var k := SentBySend(c, steps[..n], worker);
      SendsEarlier(c, steps, n, k, id, Refused(true));
    } else {
      ExecConcat(c, Empty(), steps[..n], steps[n..]);
      assert steps[..n] + steps[n..] == steps;
      RowsLast(c, t, steps[n..], id);
    }
  }

  lemma SendsEarlier<P>(c: Config, steps: seq<Step<P>>, m: nat, n: nat, id: string, result: SendResult)
    requires m <= |steps| && Sends(c, steps[..m], n, id, result)
    ensures Sends(c, steps, n, id, result)
  {
    assert steps[..m][..n] == steps[..n];
  }

  // What a worker remembers of its send, a send of that very row has told it.
  lemma {:induction false} SentBySend<P>(c: Config, steps: seq<Step<P>>, worker: string) returns (k: nat)
    requires var t := Exec(c, Empty(), steps);
      worker in t.workers && t.workers[worker].sent.Some? && t.workers[worker].queue != []
    ensures var w := Exec(c, Empty(), steps).workers[worker]; Sends(c, steps, k, w.queue[0].id, w.sent.value)
  {
    var m := |steps| - 1;
    var t := Exec(c, Empty(), steps[..m]);
    if steps[m].Send? && steps[m].worker == worker && CanSend(t, worker, steps[m].effect, steps[m].result) {
      k := m;
    } else {
      SentStays(c, t, steps[m], worker);
      k := SentBySend(c, steps[..m], worker);
      SendsEarlier(c, steps, m, k, t.workers[worker].queue[0].id, t.workers[worker].sent.value);
    }
  }

  lemma SentStays<P>(c: Config, t: Table<P>, step: Step<P>, worker: string)
    requires worker in Next(c, t, step).workers && Next(c, t, step).workers[worker].sent.Some?
    requires !(step.Send? && step.worker == worker && CanSend(t, worker, step.effect, step.result))
    ensures worker in t.workers && t.workers[worker] == Next(c, t, step).workers[worker]
  {
  }

  /** A decision changes a row's status and nothing else of it. */
  lemma DecideEffect<P>(c: Config, t: Table<P>, id: string, decision: D.Status, other: string)
    requires id in t.rows && other in t.rows
    ensures var (row, row') := (t.rows[other], Next(c, t, Decide(id, decision)).rows[other]);
      row' == if other == id then Row(row.payload, Decided(decision), row.attempts, row.lockedBy, row.lockedUntil, row.nextAttemptAt) else row
  {
  }

  // Workers tick, claim, send, mark and crash; transactions elsewhere insert rows and decide them.
  predicate WorkerStep<P>(step: Step<P>) {
    !step.Insert? && !step.Decide?
  }

  // A worker's step neither adds a row, nor changes what it carries, nor touches a closed one.
  lemma WorkerStepRows<P>(c: Config, t: Table<P>, step: Step<P>)
    requires WorkerStep(step)
    ensures Next(c, t, step).rows.Keys == t.rows.Keys
    ensures forall id :: id in t.rows ==> Next(c, t, step).rows[id].payload == t.rows[id].payload
    ensures forall id :: id in t.rows ==>
      t.rows[id].status != Open || Next(c, t, step).rows[id].status.Decided? ==> Next(c, t, step).rows[id].status == t.rows[id].status
  {
    var t' := Next(c, t, step);
    assert t'.rows.Keys == t.rows.Keys;
    forall id | id in t.rows
      ensures t'.rows[id].payload == t.rows[id].payload
      ensures t.rows[id].status != Open || t'.rows[id].status.Decided? ==> t'.rows[id].status == t.rows[id].status
    {
      RowLasts(c, t, step, id);
    }
  }

  /** Bounded wait: an open row left alone past the lease and the retry delay can be claimed again. */
  lemma {:induction false} ClaimableAgain<P>(c: Config, steps: seq<Step<P>>, later: seq<Step<P>>, id: string)
    requires ValidConfig(c)
    requires var t, t' := Exec(c, Empty(), steps), Exec(c, Exec(c, Empty(), steps), later);
      id in t.rows && id in t'.rows && t'.rows[id] == t.rows[id] && t.rows[id].status == Open &&
      t'.now > t.now + c.ttl && t'.now >= t.now + c.retryDelay
    ensures Claimable(Exec(c, Exec(c, Empty(), steps), later).rows[id], Exec(c, Exec(c, Empty(), steps), later).now)
  {
    var t := Exec(c, Empty(), steps);
    RunHolds(c, steps);
    assert RowOk(c, t.now, t.rows[id], t.history[id]);
  }

  lemma {:induction false} ExecConcat<P>(c: Config, t: Table<P>, x: seq<Step<P>>, y: seq<Step<P>>)
    ensures Exec(c, t, x + y) == Exec(c, Exec(c, t, x), y)
  {
    if y == [] {
      assert x + y == x;
    } else {
      var n := |y| - 1;
      ExecConcat(c, t, x, y[..n]);
      assert (x + y)[..|x + y| - 1] == x + y[..n];
    }
  }

  // Steps that other processes take while a worker is inside RunOnce.
  predicate Foreign<P>(step: Step<P>, worker: string) {
    !((step.Claim? || step.Send? || step.Mark? || step.Crash?) && step.worker == worker)
  }

  lemma {:induction false} ForeignKeepsWorker<P>(c: Config, t: Table<P>, steps: seq<Step<P>>, worker: string)
    requires forall i :: 0 <= i < |steps| ==> Foreign(steps[i], worker)
    ensures var t' := Exec(c, t, steps);
      (worker in t'.workers <==> worker in t.workers) &&
      (worker in t.workers ==> t'.workers[worker] == t.workers[worker]) &&
      (forall id :: id in t.rows && id in t.history ==> id in t'.rows && id in t'.history)
  {
    if steps != [] {
      ForeignKeepsWorker(c, t, steps[..|steps| - 1], worker);
    }
  }
}
