/**
  The SQL side of a leased table, updated in place, and the RunOnce loops of the outbox relay and of
  the submission dispatcher. Whatever other processes do in between, one RunOnce is a schedule of the
  lease protocol, so everything proved about schedules holds for the running loops.
 */
module LeaseStore {
  import opened Wrappers
  import opened Lease

  // What the world does around one message: other processes' steps before the send and before the
  // mark, how the send ends, what becomes of the mark's answer, and where the process may stop.
  datatype Stop = Never | BeforeSend | BeforeMark

  datatype Turn<P> = Turn(before: seq<Step<P>>, effect: bool, result: SendResult, between: seq<Step<P>>, reply: Reply, stop: Stop)

  predicate TurnFor<P>(turn: Turn<P>, worker: string) {
    (turn.result == Delivered ==> turn.effect) &&
    (forall i :: 0 <= i < |turn.before| ==> Foreign(turn.before[i], worker)) &&
    (forall i :: 0 <= i < |turn.between| ==> Foreign(turn.between[i], worker))
  }

  // The steps of one pass over one message: what others do, the send, what others do, the mark.
  function TurnSteps<P>(worker: string, turn: Turn<P>): seq<Step<P>> {
    match turn.stop
    case BeforeSend => turn.before + [Crash(worker)]
    case BeforeMark => turn.before + [Step.Send(worker, turn.effect, turn.result)] + turn.between + [Crash(worker)]
    case Never =>
      turn.before + [Step.Send(worker, turn.effect, turn.result)] + turn.between + [Step.Mark(worker, turn.reply)]
  }

  function AllTurnSteps<P>(worker: string, turns: seq<Turn<P>>): seq<Step<P>> {
    if turns == [] then []
    else AllTurnSteps(worker, turns[..|turns| - 1]) + TurnSteps(worker, turns[|turns| - 1])
  }

  // The loop goes on after a message exactly when its mark found the row owned and was answered;
  // `t` is the table the last step of the turn met.
  predicate GoesOn<P>(t: Table<P>, worker: string, turn: Turn<P>, id: string) {
    turn.stop == Never && turn.reply == Answered && Owned(t, worker, id)
  }

  // What was done before, and the first n turns.
  function Passed<P>(claimed: seq<Step<P>>, worker: string, turns: seq<Turn<P>>, n: nat): seq<Step<P>>
    requires n <= |turns|
  {
    claimed + AllTurnSteps(worker, turns[..n])
  }

  // A pass over a batch claimed by `claimed`: its first n messages, in order. It covers the batch, or
  // ends with a message after which the loop does not go on, or the process stops for want of a turn.
  ghost predicate IsPass<P>(
    c: Config, start: Table<P>, claimed: seq<Step<P>>, worker: string, ids: seq<string>, turns: seq<Turn<P>>, n: nat,
    trace: seq<Step<P>>)
  {
    n <= |ids| && n <= |turns| &&
    var taken := Passed(claimed, worker, turns, n);
    (n == |ids| && trace == taken) ||
    (0 < n && trace == taken && trace != [] && !GoesOn(Exec(c, start, trace[..|trace| - 1]), worker, turns[n - 1], ids[n - 1])) ||
    (n == |turns| < |ids| && trace == taken + [Crash(worker)])
  }

  function Ids<P>(batch: seq<Ticket<P>>): (ids: seq<string>)
    ensures |ids| == |batch|
    ensures forall i :: 0 <= i < |batch| ==> ids[i] == batch[i].id
  {
    seq(|batch|, i requires 0 <= i < |batch| => batch[i].id)
  }

  // LIMIT and SKIP LOCKED: claimable rows nobody holds, at most `limit`, and all of them when that is fewer.
  ghost predicate Selects<P>(t: Table<P>, locked: set<string>, limit: int, ids: seq<string>) {
    NoRepeat(ids) && (forall id :: id in ids ==> id in t.rows && id !in locked && Claimable(t.rows[id], t.now)) &&
    (limit > 0 ==> |ids| <= limit) &&
    (|ids| < limit ==> forall id :: id in t.rows && id !in locked && Claimable(t.rows[id], t.now) ==> id in ids)
  }

  // The table after some of the picked rows have been rewritten.
  ghost predicate Updated<P>(
    c: Config, t: Table<P>, worker: string, done: seq<string>, rows: map<string, Row<P>>, history: map<string, History>) {
    rows.Keys == history.Keys == t.rows.Keys == t.history.Keys &&
    (forall id :: id in rows ==>
       rows[id] == if id in done then ClaimedRow(c, t.now, worker, t.rows[id]) else t.rows[id]) &&
    (forall id :: id in rows ==>
       history[id] == if id in done then ClaimedHistory(worker, t.rows[id], t.history[id]) else t.history[id])
  }

  lemma UpdatedNext<P>(
    c: Config, t: Table<P>, worker: string, picked: seq<string>, i: nat, rows: map<string, Row<P>>, history: map<string, History>)
    requires i < |picked| && NoRepeat(picked) && picked[i] in t.rows && Updated(c, t, worker, picked[..i], rows, history)
    ensures var id := picked[i];
      rows[id] == t.rows[id] && history[id] == t.history[id] &&
      Updated(c, t, worker, picked[..i + 1],
              rows[id := ClaimedRow(c, t.now, worker, rows[id])], history[id := ClaimedHistory(worker, rows[id], history[id])])
  {
    assert picked[..i + 1] == picked[..i] + [picked[i]];
  }

  ghost predicate TicketsFor<P>(c: Config, t: Table<P>, done: seq<string>, batch: seq<Ticket<P>>) {
    |batch| == |done| && forall j :: 0 <= j < |batch| ==> done[j] in t.rows && batch[j] == TicketFor(c, t, done[j])
  }

  lemma TicketsForNext<P>(c: Config, t: Table<P>, picked: seq<string>, i: nat, batch: seq<Ticket<P>>)
    requires i < |picked| && picked[i] in t.rows && TicketsFor(c, t, picked[..i], batch)
    ensures TicketsFor(c, t, picked[..i + 1], batch + [TicketFor(c, t, picked[i])])
  {
    assert picked[..i + 1] == picked[..i] + [picked[i]];
  }

  lemma UpdatedAll<P>(
    c: Config, t: Table<P>, worker: string, picked: seq<string>, rows: map<string, Row<P>>, history: map<string, History>,
    batch: seq<Ticket<P>>)
    requires worker !in t.workers && NoRepeat(picked)
    requires forall id :: id in picked ==> id in t.rows && Claimable(t.rows[id], t.now)
    requires Updated(c, t, worker, picked, rows, history)
    requires TicketsFor(c, t, picked, batch)
    ensures Next(c, t, Step.Claim(worker, picked)) ==
      t.(rows := rows, history := history,
         workers := if picked == [] then t.workers else t.workers[worker := Worker(batch, None)])
    ensures Ids(batch) == picked
  {
    if picked == [] {
      assert rows == t.rows && history == t.history;
    } else {
      var t' := Claimed(c, t, worker, picked);
      assert t'.rows == rows && t'.history == history && t'.workers[worker].queue == batch;
    }
  }

  lemma PassIsCut<P>(
    c: Config, start: Table<P>, claimed: seq<Step<P>>, worker: string, ids: seq<string>, turns: seq<Turn<P>>, trace: seq<Step<P>>)
    requires |turns| < |ids| && trace == Passed(claimed, worker, turns, |turns|) + [Crash(worker)]
    ensures IsPass(c, start, claimed, worker, ids, turns, |turns|, trace)
  {
  }

  lemma PassIsDone<P>(
    c: Config, start: Table<P>, claimed: seq<Step<P>>, worker: string, ids: seq<string>, turns: seq<Turn<P>>, trace: seq<Step<P>>)
    requires |ids| <= |turns| && trace == Passed(claimed, worker, turns, |ids|)
    ensures IsPass(c, start, claimed, worker, ids, turns, |ids|, trace)
  {
  }

  lemma {:induction false} PassEnds<P>(
    c: Config, start: Table<P>, claimed: seq<Step<P>>, worker: string, ids: seq<string>, turns: seq<Turn<P>>, n: nat, trace: seq<Step<P>>)
    requires 0 < n <= |ids| && n <= |turns| && trace == Passed(claimed, worker, turns, n) && trace != []
    requires !GoesOn(Exec(c, start, trace[..|trace| - 1]), worker, turns[n - 1], ids[n - 1])
    ensures IsPass(c, start, claimed, worker, ids, turns, n, trace)
  {
  }

  lemma PassedNothing<P>(claimed: seq<Step<P>>, worker: string, turns: seq<Turn<P>>)
    ensures Passed(claimed, worker, turns, 0) == claimed
  {
    assert turns[..0] == [];
  }

  lemma PassedNext<P>(claimed: seq<Step<P>>, worker: string, turns: seq<Turn<P>>, n: nat)
    requires n < |turns|
    ensures Passed(claimed, worker, turns, n + 1) == Passed(claimed, worker, turns, n) + TurnSteps(worker, turns[n])
    ensures Passed(claimed, worker, turns, n + 1) != []
  {
    AllTurnStepsNext(worker, turns, n);
    TurnStepsRegroup([], worker, turns[n]);
  }

  lemma TurnStepsRegroup<P>(trace: seq<Step<P>>, worker: string, turn: Turn<P>)
    ensures TurnSteps(worker, turn) != []
    ensures var first := trace + turn.before +
        [if turn.stop == BeforeSend then Crash(worker) else Step.Send(worker, turn.effect, turn.result)];
      trace + TurnSteps(worker, turn) ==
        if turn.stop == BeforeSend then first
        else first + turn.between + [if turn.stop == BeforeMark then Crash(worker) else Step.Mark(worker, turn.reply)]
  {
  }

  lemma {:induction false} AllTurnStepsNext<P>(worker: string, turns: seq<Turn<P>>, i: nat)
    requires i < |turns|
    ensures AllTurnSteps(worker, turns[..i + 1]) == AllTurnSteps(worker, turns[..i]) + TurnSteps(worker, turns[i])
  {
    assert turns[..i + 1][..i] == turns[..i];
  }

  class LeaseTable<P(==)> {
    const config: Config
    var now: nat
    var rows: map<string, Row<P>>
    var log: seq<Entry<P>>
    var history: map<string, History>          // bookkeeping: see Lease
    var workers: map<string, Worker<P>>        // bookkeeping: where each process is in its RunOnce

    constructor (config: Config)
      ensures State() == Empty() && this.config == config
    {
      this.config := config;
      now, rows, log, history, workers := 0, map[], [], map[], map[];
    }

    function State(): Table<P>
      reads this
    {
      Table(now, rows, history, workers, log)
    }

    // Everything that happens elsewhere in the meantime.
    method Interfere(steps: seq<Step<P>>)
      modifies this
      ensures State() == Exec(config, old(State()), steps)
    {
      for i := 0 to |steps|
        invariant State() == Exec(config, old(State()), steps[..i])
      {
        var t := Next(config, State(), steps[i]);
        now, rows, history, workers, log := t.now, t.rows, t.history, t.workers, t.log;
        assert steps[..i + 1] == steps[..i] + [steps[i]];
        ExecSnoc(config, old(State()), steps[..i], steps[i]);
      }
      assert steps[..|steps|] == steps;
    }

    /**
      The claim statement. `candidates` lists the table in (occurred_at, id) order and `locked` the
      rows another claim is holding at this moment. The batch is as large as the limit allows.
     */
    method Claim(worker: string, candidates: seq<string>, locked: set<string>, limit: int) returns (r: Option<seq<Ticket<P>>>)
      requires worker !in workers && NoRepeat(candidates) && forall id :: id in candidates <==> id in rows
      requires rows.Keys == history.Keys
      modifies this
      ensures limit <= 0 ==> r == None && State() == old(State())
      ensures limit > 0 ==> r.Some?
      ensures limit > 0 ==> State() == Next(config, old(State()), Step.Claim(worker, Ids(r.value)))
      ensures limit > 0 && r.value != [] ==> worker in workers && workers[worker] == Worker(r.value, None)
      ensures limit > 0 && r.value == [] ==> workers == old(workers)
      ensures limit > 0 ==> forall j :: 0 <= j < |r.value| ==> r.value[j].id in rows && r.value[j].id in history
      ensures Selects(old(State()), locked, limit, if r.Some? then Ids(r.value) else [])
    {
      if limit <= 0 {
        return None;
      }
      var picked: seq<string> := [];
      for i := 0 to |candidates|
        invariant |picked| <= limit && NoRepeat(picked)
        invariant forall id :: id in picked ==> id in candidates[..i] && id !in locked && Claimable(rows[id], now)
        invariant |picked| < limit ==>
          forall j :: 0 <= j < i && candidates[j] !in locked && Claimable(rows[candidates[j]], now) ==> candidates[j] in picked
      {
        var id := candidates[i];
        if |picked| < limit && id !in locked && Claimable(rows[id], now) {
          picked := picked + [id];
        }
      }
      var batch := Take(worker, picked);
      r := Some(batch);
    }

    method Take(worker: string, picked: seq<string>) returns (batch: seq<Ticket<P>>)
      requires worker !in workers && rows.Keys == history.Keys
      requires NoRepeat(picked) && forall id :: id in picked ==> id in rows && Claimable(rows[id], now)
      modifies this
      ensures Ids(batch) == picked
      ensures State() == Next(config, old(State()), Step.Claim(worker, picked))
      ensures if batch == [] then workers == old(workers) else worker in workers && workers[worker] == Worker(batch, None)
      ensures forall j :: 0 <= j < |batch| ==> batch[j].id in rows && batch[j].id in history
    {
      ghost var t := State();
      batch := TakeRows(worker, picked);
      UpdatedAll(config, t, worker, picked, rows, history, batch);
      forall j | 0 <= j < |batch| ensures batch[j].id in rows && batch[j].id in history { assert batch[j].id == picked[j]; }
      if picked != [] {
        workers := workers[worker := Worker(batch, None)];
      }
    }

    // SET and RETURNING for the picked rows, one after the other.
    method TakeRows(worker: string, picked: seq<string>) returns (batch: seq<Ticket<P>>)
      requires rows.Keys == history.Keys && NoRepeat(picked) && forall id :: id in picked ==> id in rows
      modifies this`rows, this`history
      ensures Updated(config, old(State()), worker, picked, rows, history)
      ensures TicketsFor(config, old(State()), picked, batch)
    {
      batch := [];
      ghost var t := State();
      for i := 0 to |picked|
        invariant Updated(config, t, worker, picked[..i], rows, history)
        invariant TicketsFor(config, t, picked[..i], batch)
      {
        var id := picked[i];
        assert id in picked;
        UpdatedNext(config, t, worker, picked, i, rows, history);
        TicketsForNext(config, t, picked, i, batch);
        var row, h := rows[id], history[id];
        var claimed := row.(attempts := row.attempts + 1, lockedBy := Some(worker), lockedUntil := Some(now + config.ttl));
        var ticket := Ticket(id, row.payload, claimed.attempts, now + config.ttl);
        assert claimed == ClaimedRow(config, t.now, worker, row) && ticket == TicketFor(config, t, id);
        rows, history := rows[id := claimed], history[id := ClaimedHistory(worker, row, h)];
        batch := batch + [ticket];
      }
      assert picked[..|picked|] == picked;
    }

    // The mark statements. The answer says whether the caller may go on with its batch.
    method Mark(worker: string, ticket: Ticket<P>, result: SendResult, reply: Reply) returns (ok: bool)
      requires worker in workers && workers[worker].queue != [] && workers[worker].queue[0] == ticket
      requires workers[worker].sent == Some(result)
      modifies this
      ensures State() == Next(config, old(State()), Step.Mark(worker, reply))
      ensures ok <==> Owned(old(State()), worker, ticket.id) && reply == Answered
      ensures !Owned(old(State()), worker, ticket.id) || reply == Lost(false) ==> rows == old(rows)
      ensures Owned(old(State()), worker, ticket.id) && reply != Lost(false) ==>
        var row := old(rows)[ticket.id];
        rows == old(rows)[ticket.id :=
          if result == Delivered then Row(row.payload, Done, row.attempts, None, None, None)
          else if config.maxAttempts.Some? && (result.permanent || ticket.attempt >= config.maxAttempts.value)
          then Row(row.payload, Failed, row.attempts, None, None, None)
          else Row(row.payload, Open, row.attempts, None, None, Some(now + config.retryDelay))]
    {
      var id := ticket.id;
      var owned := id in rows && id in history && rows[id].lockedBy == Some(worker) && rows[id].status == Open;
      if owned && reply != Lost(false) {
        var row, h := rows[id], history[id];
        if result == Delivered {
          rows := rows[id := row.(status := Done, lockedBy := None, lockedUntil := None, nextAttemptAt := None)];
          history := history[id := h.(closes := h.closes + 1)];
        } else {
          var terminal := config.maxAttempts.Some? && (result.permanent || ticket.attempt >= config.maxAttempts.value);
          rows := rows[id := row.(status := if terminal then Failed else Open, lockedBy := None, lockedUntil := None,
                                  nextAttemptAt := if terminal then None else Some(now + config.retryDelay))];
          history := history[id := if terminal then h.(closes := h.closes + 1) else h.(retries := h.retries + 1)];
        }
      }
      ok := owned && reply == Answered;
      var rest := workers[worker].queue[1..];
      workers := if ok && rest != [] then workers[worker := Worker(rest, None)] else workers - {worker};
    }

    method Send(worker: string, effect: bool, result: SendResult)
      requires CanSend(State(), worker, effect, result)
      modifies this
      ensures State() == Next(config, old(State()), Step.Send(worker, effect, result))
    {
      var ticket := workers[worker].queue[0];
      if effect {
        log := log + [Entry(ticket.id, ticket.payload)];
      }
      history := history[ticket.id := history[ticket.id].(calls := history[ticket.id].calls + [ticket.attempt])];
      workers := workers[worker := workers[worker].(sent := Some(result))];
    }

    method Stopped(worker: string)
      modifies this
      ensures State() == Next(config, old(State()), Crash(worker))
    {
      workers := workers - {worker};
    }

    /**
      RunOnce: claim a batch, then send and mark message by message until a mark fails or the process
      stops. The trace is exactly that: the claim, then turn by turn the batch's messages in order.
     */
    method RunOnce(worker: string, candidates: seq<string>, locked: set<string>, limit: int, turns: seq<Turn<P>>)
      returns (trace: seq<Step<P>>, ids: seq<string>, taken: nat)
      requires worker !in workers && NoRepeat(candidates) && forall id :: id in candidates <==> id in rows
      requires rows.Keys == history.Keys
      requires forall i :: 0 <= i < |turns| ==> TurnFor(turns[i], worker)
      modifies this
      ensures State() == Exec(config, old(State()), trace) && worker !in workers
      ensures limit <= 0 ==> trace == [] && ids == []
      ensures limit > 0 ==> IsPass(config, old(State()), [Step.Claim(worker, ids)], worker, ids, turns, taken, trace)
      ensures Selects(old(State()), locked, limit, ids)
    {
      ghost var t := State();
      trace, ids, taken := [], [], 0;
      var claimed := Claim(worker, candidates, locked, limit);
      if claimed.None? {
        return;
      }
      ids := Ids(claimed.value);
      var claim: Step<P> := Step.Claim(worker, ids);
      ExecSnoc(config, t, [], claim);
      assert [] + [claim] == [claim];
      trace, taken := DeliverAll(t, [claim], worker, claimed.value, turns);
    }

    method DeliverAll(ghost start: Table<P>, claimed: seq<Step<P>>, worker: string, batch: seq<Ticket<P>>, turns: seq<Turn<P>>)
      returns (trace: seq<Step<P>>, taken: nat)
      requires State() == Exec(config, start, claimed) && claimed != []
      requires forall i :: 0 <= i < |turns| ==> TurnFor(turns[i], worker)
      requires if batch == [] then worker !in workers else worker in workers && workers[worker] == Worker(batch, None)
      requires forall j :: 0 <= j < |batch| ==> batch[j].id in rows && batch[j].id in history
      modifies this
      ensures State() == Exec(config, start, trace) && worker !in workers
      ensures IsPass(config, start, claimed, worker, Ids(batch), turns, taken, trace)
    {
      trace, taken := claimed, 0;
      PassedNothing(claimed, worker, turns);
      assert batch[0..] == batch;
      while taken < |batch|
        invariant taken <= |turns| && Stands(worker, batch, taken)
        invariant State() == Exec(config, start, trace)
        invariant trace == Passed(claimed, worker, turns, taken)
      {
        if taken == |turns| {
          Stopped(worker);
          trace := Recorded(start, trace, Crash(worker));
          PassIsCut(config, start, claimed, worker, Ids(batch), turns, trace);
          return;
        }
        var ok: bool;
        PassedNext(claimed, worker, turns, taken);
        trace, ok := DeliverNext(start, trace, worker, batch, taken, turns[taken]);
        taken := taken + 1;
        if !ok {
          PassEnds(config, start, claimed, worker, Ids(batch), turns, taken, trace);
          return;
        }
      }
      PassIsDone(config, start, claimed, worker, Ids(batch), turns, trace);
    }

    // Where the worker is in its batch.
    ghost predicate Stands(worker: string, batch: seq<Ticket<P>>, i: nat)
      reads this
    {
      i <= |batch| && (forall j :: 0 <= j < |batch| ==> batch[j].id in rows && batch[j].id in history) &&
      if i < |batch| then worker in workers && workers[worker] == Worker(batch[i..], None) else worker !in workers
    }

    method DeliverNext(ghost start: Table<P>, trace: seq<Step<P>>, worker: string, batch: seq<Ticket<P>>, i: nat, turn: Turn<P>)
      returns (longer: seq<Step<P>>, ok: bool)
      requires State() == Exec(config, start, trace) && TurnFor(turn, worker)
      requires i < |batch| && Stands(worker, batch, i)
      modifies this
      ensures State() == Exec(config, start, longer) && longer == trace + TurnSteps(worker, turn)
      ensures ok <==> GoesOn(Exec(config, start, longer[..|longer| - 1]), worker, turn, batch[i].id)
      ensures if ok then Stands(worker, batch, i + 1) else worker !in workers
    {
      assert batch[i..][0] == batch[i] && batch[i..][1..] == batch[i + 1..];
      longer, ok := DeliverOne(start, trace, worker, batch[i], turn);
    }

    // One pass of the loop: send the first message of the batch, then mark it.
    method DeliverOne(ghost start: Table<P>, trace: seq<Step<P>>, worker: string, ticket: Ticket<P>, turn: Turn<P>)
      returns (longer: seq<Step<P>>, ok: bool)
      requires State() == Exec(config, start, trace) && TurnFor(turn, worker)
      requires worker in workers && workers[worker].queue != [] && workers[worker].queue[0] == ticket
      requires workers[worker].sent == None && ticket.id in rows && ticket.id in history
      modifies this
      ensures State() == Exec(config, start, longer) && longer == trace + TurnSteps(worker, turn)
      ensures ok <==> GoesOn(Exec(config, start, longer[..|longer| - 1]), worker, turn, ticket.id)
      ensures forall id :: id in old(rows) && id in old(history) ==> id in rows && id in history
      ensures !ok ==> worker !in workers
      ensures ok && |old(workers)[worker].queue| == 1 ==> worker !in workers
      ensures ok && |old(workers)[worker].queue| > 1 ==>
        worker in workers && workers[worker] == Worker(old(workers)[worker].queue[1..], None)
    {
      ok := false;
      TurnStepsRegroup(trace, worker, turn);
      longer := SendFirst(start, trace, worker, ticket, turn);
      if turn.stop == BeforeSend {
        return;
      }
      longer, ok := MarkFirst(start, longer, worker, ticket, turn);
    }

    method SendFirst(ghost start: Table<P>, trace: seq<Step<P>>, worker: string, ticket: Ticket<P>, turn: Turn<P>)
      returns (longer: seq<Step<P>>)
      requires State() == Exec(config, start, trace) && TurnFor(turn, worker)
      requires worker in workers && workers[worker].queue != [] && workers[worker].queue[0] == ticket
      requires workers[worker].sent == None && ticket.id in rows && ticket.id in history
      modifies this
      ensures State() == Exec(config, start, longer)
      ensures longer == trace + turn.before +
        [if turn.stop == BeforeSend then Crash(worker) else Step.Send(worker, turn.effect, turn.result)]
      ensures forall id :: id in old(rows) && id in old(history) ==> id in rows && id in history
      ensures worker in workers <==> turn.stop != BeforeSend
      ensures worker in workers ==> workers[worker] == Worker(old(workers)[worker].queue, Some(turn.result))
    {
      longer := Others(start, trace, turn.before, worker);
      if turn.stop == BeforeSend {
        Stopped(worker);
        longer := Recorded(start, longer, Crash(worker));
        return;
      }
      Send(worker, turn.effect, turn.result);
      longer := Recorded(start, longer, Step.Send(worker, turn.effect, turn.result));
    }

    method MarkFirst(ghost start: Table<P>, trace: seq<Step<P>>, worker: string, ticket: Ticket<P>, turn: Turn<P>)
      returns (longer: seq<Step<P>>, ok: bool)
      requires State() == Exec(config, start, trace) && TurnFor(turn, worker) && turn.stop != BeforeSend
      requires worker in workers && workers[worker].queue != [] && workers[worker].queue[0] == ticket
      requires workers[worker].sent == Some(turn.result)
      modifies this
      ensures State() == Exec(config, start, longer)
      ensures longer == trace + turn.between + [if turn.stop == BeforeMark then Crash(worker) else Step.Mark(worker, turn.reply)]
      ensures ok <==> GoesOn(Exec(config, start, longer[..|longer| - 1]), worker, turn, ticket.id)
      ensures forall id :: id in old(rows) && id in old(history) ==> id in rows && id in history
      ensures !ok ==> worker !in workers
      ensures ok && |old(workers)[worker].queue| == 1 ==> worker !in workers
      ensures ok && |old(workers)[worker].queue| > 1 ==>
        worker in workers && workers[worker] == Worker(old(workers)[worker].queue[1..], None)
    {
      ok := false;
      longer := Others(start, trace, turn.between, worker);
      if turn.stop == BeforeMark {
        Stopped(worker);
        longer := Recorded(start, longer, Crash(worker));
        return;
      }
      ok := Mark(worker, ticket, turn.result, turn.reply);
      longer := Recorded(start, longer, Step.Mark(worker, turn.reply));
    }

    // Appends to the trace the step that has just been taken.
    method Recorded(ghost start: Table<P>, trace: seq<Step<P>>, step: Step<P>) returns (longer: seq<Step<P>>)
      requires State() == Next(config, Exec(config, start, trace), step)
      ensures State() == Exec(config, start, longer) && longer == trace + [step] && longer[..|longer| - 1] == trace
    {
      ExecSnoc(config, start, trace, step);
      longer := trace + [step];
    }

    // Lets the other processes run, and appends what they did to the trace.
    method Others(ghost start: Table<P>, trace: seq<Step<P>>, steps: seq<Step<P>>, worker: string) returns (longer: seq<Step<P>>)
      requires State() == Exec(config, start, trace)
      requires forall i :: 0 <= i < |steps| ==> Foreign(steps[i], worker)
      modifies this
      ensures State() == Exec(config, start, longer) && longer == trace + steps
      ensures worker in workers <==> worker in old(workers)
      ensures worker in workers ==> workers[worker] == old(workers)[worker]
      ensures forall id :: id in old(rows) && id in old(history) ==> id in rows && id in history
    {
      ForeignKeepsWorker(config, State(), steps, worker);
      ExecConcat(config, start, trace, steps);
      Interfere(steps);
      longer := trace + steps;
    }
  }
}
