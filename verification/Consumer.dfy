/**
  The Kafka consumer: fetch a record, handle it until that succeeds, commit its offset until that
  succeeds. Members of a group may crash, overlap, lose answers, and commit late; whatever they do,
  an idempotent handler's effects are those of one pass over a prefix of the log.
 */
module Consumer {

  // A handler works on a store that other transactions change too. `nonce` is an id it may draw, and
  // `absorbed` says that the store has taken a record in.
  datatype Handler<!S, !R, !E> = Handler(
    run: (S, R, string) -> (S, bool), other: (S, E) -> S, absorbed: (S, R) -> bool)

  // Success takes the record in for good, and what is taken in has no further effect.
  ghost predicate Idempotent<S(!new), R(!new), E(!new)>(h: Handler<S, R, E>) {
    (forall s, r, n :: h.run(s, r, n).1 ==> h.absorbed(h.run(s, r, n).0, r)) &&
    (forall s, r, n :: !h.run(s, r, n).1 || h.absorbed(s, r) ==> h.run(s, r, n).0 == s) &&
    (forall s, r, q, n {:trigger h.absorbed(h.run(s, q, n).0, r)} :: h.absorbed(s, r) ==> h.absorbed(h.run(s, q, n).0, r)) &&
    (forall s, r, e {:trigger h.absorbed(h.other(s, e), r)} :: h.absorbed(s, r) ==> h.absorbed(h.other(s, e), r))
  }

  // Where a member is in the log, and whether its current record has been handled.
  datatype Member = Member(pos: nat, handled: bool)

  datatype Effect<E> = Handled(index: nat, nonce: string) | Elsewhere(e: E)

  // `requested` holds every offset a member ever asked to commit. `done` and `history` are
  // bookkeeping: how much of the log has been handled, and everything that changed the store.
  datatype Group<S, R, E> = Group(
    store: S, log: seq<R>, committed: nat, requested: set<nat>, members: map<string, Member>,
    done: nat, history: seq<Effect<E>>)

  datatype Step<R, E> =
    | Publish(record: R)
    | Touch(e: E)
    | Join(member: string)
    | Handle(member: string, nonce: string, reported: bool)   // not reported: it worked, but the caller saw an error
    | Commit(member: string, answered: bool)
    | Arrive(offset: nat)                                      // a commit request, this one or a stale one, takes effect
    | Crash(member: string)

  function Start<S, R, E>(store: S): Group<S, R, E> { Group(store, [], 0, {}, map[], 0, []) }

  predicate CanHandle<S, R, E>(g: Group<S, R, E>, member: string) {
    member in g.members && g.members[member].pos < |g.log| && !g.members[member].handled
  }

  function HandledBy<S, R, E>(h: Handler<S, R, E>, g: Group<S, R, E>, member: string, nonce: string, reported: bool): Group<S, R, E>
    requires CanHandle(g, member)
  {
    var pos := g.members[member].pos;
    var (store, ok) := h.run(g.store, g.log[pos], nonce);
    var first := ok && pos >= g.done;
    g.(store := store,
       members := if ok && reported then g.members[member := Member(pos, true)] else g.members,
       done := if first then g.done + 1 else g.done,
       history := if first then g.history + [Handled(pos, nonce)] else g.history)
  }

  function Next<S, R, E>(h: Handler<S, R, E>, g: Group<S, R, E>, step: Step<R, E>): Group<S, R, E> {
    match step
    case Publish(record) => g.(log := g.log + [record])
    case Touch(e) => g.(store := h.other(g.store, e), history := g.history + [Elsewhere(e)])
    case Join(member) => if member in g.members then g else g.(members := g.members[member := Member(g.committed, false)])
    case Handle(member, nonce, reported) => if CanHandle(g, member) then HandledBy(h, g, member, nonce, reported) else g
    case Commit(member, answered) =>
      if member !in g.members || !g.members[member].handled then g
      else
        var next := g.members[member].pos + 1;
        g.(requested := g.requested + {next},
           members := if answered then g.members[member := Member(next, false)] else g.members)
    case Arrive(offset) => if offset in g.requested then g.(committed := offset) else g
    case Crash(member) => g.(members := g.members - {member})
  }

  function Exec<S, R, E>(h: Handler<S, R, E>, g: Group<S, R, E>, steps: seq<Step<R, E>>): Group<S, R, E> {
    if steps == [] then g else Next(h, Exec(h, g, steps[..|steps| - 1]), steps[|steps| - 1])
  }

  function Effected<S, R, E>(h: Handler<S, R, E>, s: S, log: seq<R>, x: Effect<E>): S {
    match x
    case Handled(index, nonce) => if index < |log| then h.run(s, log[index], nonce).0 else s
    case Elsewhere(e) => h.other(s, e)
  }

  // The store after each listed effect, once and in that order.
  function Replay<S, R, E>(h: Handler<S, R, E>, s: S, log: seq<R>, history: seq<Effect<E>>): S {
    if history == [] then s
    else Effected(h, Replay(h, s, log, history[..|history| - 1]), log, history[|history| - 1])
  }

  // Every listed record was handled successfully where it stands.
  predicate AllSucceed<S, R, E>(h: Handler<S, R, E>, s: S, log: seq<R>, history: seq<Effect<E>>) {
    history != [] ==>
      var (before, last) := (history[..|history| - 1], history[|history| - 1]);
      AllSucceed(h, s, log, before) &&
      (last.Handled? ==> last.index < |log| && h.run(Replay(h, s, log, before), log[last.index], last.nonce).1)
  }

  // The records a history handles.
  function Indices<E>(history: seq<Effect<E>>): seq<nat> {
    if history == [] then []
    else
      var last := history[|history| - 1];
      Indices(history[..|history| - 1]) + if last.Handled? then [last.index] else []
  }

  function Upto(n: nat): (s: seq<nat>)
    ensures |s| == n && forall i :: 0 <= i < n ==> s[i] == i
  {
    seq(n, i requires 0 <= i < n => i)
  }

  ghost predicate Inv<S, R, E>(h: Handler<S, R, E>, s: S, g: Group<S, R, E>) {
    g.store == Replay(h, s, g.log, g.history) && Indices(g.history) == Upto(g.done) && AllSucceed(h, s, g.log, g.history) &&
    g.committed <= g.done <= |g.log| &&
    (forall i :: 0 <= i < g.done ==> h.absorbed(g.store, g.log[i])) &&
    (forall n :: n in g.requested ==> n <= g.done) &&
    (forall m :: m in g.members ==> g.members[m].pos <= g.done && (g.members[m].handled ==> g.members[m].pos < g.done))
  }

  lemma {:induction false} ReplaySnoc<S, R, E>(h: Handler<S, R, E>, s: S, log: seq<R>, history: seq<Effect<E>>, x: Effect<E>)
    ensures Indices(history + [x]) == Indices(history) + if x.Handled? then [x.index] else []
    ensures Replay(h, s, log, history + [x]) == Effected(h, Replay(h, s, log, history), log, x)
    ensures AllSucceed(h, s, log, history + [x]) <==>
      AllSucceed(h, s, log, history) &&
      (x.Handled? ==> x.index < |log| && h.run(Replay(h, s, log, history), log[x.index], x.nonce).1)
  {
    assert (history + [x])[..|history|] == history;
  }

  // A longer log replays the same.
  lemma {:induction false} ReplayLonger<S, R, E>(h: Handler<S, R, E>, s: S, log: seq<R>, more: seq<R>, history: seq<Effect<E>>)
    requires AllSucceed(h, s, log, history)
    ensures Replay(h, s, log + more, history) == Replay(h, s, log, history) && AllSucceed(h, s, log + more, history)
  {
    if history != [] { ReplayLonger(h, s, log, more, history[..|history| - 1]); }
  }

  lemma PublishKeepsInv<S, R, E>(h: Handler<S, R, E>, s: S, g: Group<S, R, E>, record: R)
    requires Inv(h, s, g)
    ensures Inv(h, s, Next(h, g, Publish(record)))
  {
    ReplayLonger(h, s, g.log, [record], g.history);
  }

  lemma TouchKeepsInv<S(!new), R(!new), E(!new)>(h: Handler<S, R, E>, s: S, g: Group<S, R, E>, e: E)
    requires Idempotent(h) && Inv(h, s, g)
    ensures Inv(h, s, Next(h, g, Touch(e)))
  {
    var g' := Next(h, g, Touch(e));
    ReplaySnoc(h, s, g.log, g.history, Elsewhere(e));
    forall i | 0 <= i < g.done ensures h.absorbed(g'.store, g'.log[i]) {
      assert h.absorbed(g.store, g.log[i]);
      assert h.absorbed(h.other(g.store, e), g.log[i]);
    }
  }

  // Handling a record again changes nothing; handling the next one adds it to the history.
  lemma HandleKeepsInv<S(!new), R(!new), E(!new)>(h: Handler<S, R, E>, s: S, g: Group<S, R, E>, member: string, nonce: string, reported: bool)
    requires Idempotent(h) && Inv(h, s, g) && CanHandle(g, member)
    ensures Inv(h, s, HandledBy(h, g, member, nonce, reported))
  {
    var g' := HandledBy(h, g, member, nonce, reported);
    var pos := g.members[member].pos;
    var record := g.log[pos];
    var (store, ok) := h.run(g.store, record, nonce);
    ReplaySnoc(h, s, g.log, g.history, Handled(pos, nonce));
    if pos < g.done || !ok {
      assert store == g.store;
    } else {
      assert h.absorbed(h.run(g.store, record, nonce).0, record);
      assert Upto(g.done) + [g.done] == Upto(g.done + 1);
    }
    forall i | 0 <= i < g'.done ensures h.absorbed(g'.store, g'.log[i]) {
      if i < g.done {
        assert h.absorbed(g.store, g.log[i]);
        assert h.absorbed(h.run(g.store, record, nonce).0, g.log[i]);
      }
    }
  }

  lemma NextKeepsInv<S(!new), R(!new), E(!new)>(h: Handler<S, R, E>, s: S, g: Group<S, R, E>, step: Step<R, E>)
    requires Idempotent(h) && Inv(h, s, g)
    ensures Inv(h, s, Next(h, g, step))
  {
    match step
    case Publish(record) => PublishKeepsInv(h, s, g, record);
    case Touch(e) => TouchKeepsInv(h, s, g, e);
    case Handle(member, nonce, reported) => if CanHandle(g, member) { HandleKeepsInv(h, s, g, member, nonce, reported); }
    case _ =>
  }

  lemma {:induction false} ExecKeepsInv<S(!new), R(!new), E(!new)>(
    h: Handler<S, R, E>, s: S, g: Group<S, R, E>, steps: seq<Step<R, E>>)
    requires Idempotent(h) && Inv(h, s, g)
    ensures Inv(h, s, Exec(h, g, steps))
  {
    if steps != [] {
      ExecKeepsInv(h, s, g, steps[..|steps| - 1]);
      NextKeepsInv(h, s, Exec(h, g, steps[..|steps| - 1]), steps[|steps| - 1]);
    }
  }

  /**
    Exactly-once effect. Under any schedule of crashes, redeliveries, overlapping members and late
    commits, the store is what one pass over a contiguous prefix of the log leaves, in log order and
    interleaved only with other transactions; and the committed offset never passes that prefix.
   */
  lemma {:induction false} ExactlyOnce<S(!new), R(!new), E(!new)>(h: Handler<S, R, E>, s: S, steps: seq<Step<R, E>>)
    requires Idempotent(h)
    ensures var g := Exec(h, Start(s), steps);
      g.store == Replay(h, s, g.log, g.history) && Indices(g.history) == Upto(g.done) &&
      AllSucceed(h, s, g.log, g.history) && g.committed <= g.done <= |g.log|
  {
    ExecKeepsInv(h, s, Start(s), steps);
  }

  /** Every record below the committed offset has been taken in, and handling it again changes nothing. */
  lemma {:induction false} CommittedIsAbsorbed<S(!new), R(!new), E(!new)>(h: Handler<S, R, E>, s: S, steps: seq<Step<R, E>>, i: nat, nonce: string)
    requires Idempotent(h) && i < Exec(h, Start(s), steps).committed
    ensures var g := Exec(h, Start(s), steps);
      i < |g.log| && h.absorbed(g.store, g.log[i]) && h.run(g.store, g.log[i], nonce).0 == g.store
  {
    ExecKeepsInv(h, s, Start(s), steps);
  }

  // What a history handled, it took in.
  lemma {:induction false} HandledIsAbsorbed<S(!new), R(!new), E(!new)>(
    h: Handler<S, R, E>, s: S, log: seq<R>, history: seq<Effect<E>>, j: nat)
    requires Idempotent(h) && AllSucceed(h, s, log, history) && j in Indices(history)
    ensures j < |log| && h.absorbed(Replay(h, s, log, history), log[j])
  {
    var n := |history| - 1;
    var t := Replay(h, s, log, history[..n]);
    if j in Indices(history[..n]) {
      HandledIsAbsorbed(h, s, log, history[..n], j);
      match history[n]
      case Handled(index, nonce) => assert h.absorbed(h.run(t, log[index], nonce).0, log[j]);
      case Elsewhere(e) => assert h.absorbed(h.other(t, e), log[j]);
    } else {
      assert h.run(t, log[j], history[n].nonce).1;
    }
  }

  lemma {:induction false} EarlierIndices<E>(history: seq<Effect<E>>, done: nat, k: nat)
    requires Indices(history) == Upto(done) && k < |history| && history[k].Handled?
    ensures Indices(history[..k]) == Upto(history[k].index)
  {
    var n := |history| - 1;
    var m := |Indices(history[..n])|;
    assert Indices(history)[..m] == Indices(history[..n]);
    assert Upto(done)[..m] == Upto(m);
    if k == n {
      assert Indices(history)[m] == history[k].index;
    } else {
      EarlierIndices(history[..n], m, k);
      assert history[..n][..k] == history[..k];
    }
  }

  lemma {:induction false} PrefixSucceeds<S, R, E>(h: Handler<S, R, E>, s: S, log: seq<R>, history: seq<Effect<E>>, k: nat)
    requires AllSucceed(h, s, log, history) && k <= |history|
    ensures AllSucceed(h, s, log, history[..k])
  {
    if k < |history| {
      PrefixSucceeds(h, s, log, history[..|history| - 1], k);
      assert history[..|history| - 1][..k] == history[..k];
    } else {
      assert history[..k] == history;
    }
  }

  /** A record that repeats an earlier one changes nothing: each distinct record has its effect once. */
  lemma {:induction false} RepeatsAreSilent<S(!new), R(!new), E(!new)>(h: Handler<S, R, E>, s: S, steps: seq<Step<R, E>>, k: nat, j: nat)
    requires Idempotent(h)
    requires var g := Exec(h, Start(s), steps);
      k < |g.history| && g.history[k].Handled? && j < g.history[k].index < |g.log| && g.log[j] == g.log[g.history[k].index]
    ensures var g := Exec(h, Start(s), steps);
      Replay(h, s, g.log, g.history[..k + 1]) == Replay(h, s, g.log, g.history[..k])
  {
    var g := Exec(h, Start(s), steps);
    ExecKeepsInv(h, s, Start(s), steps);
    EarlierIndices(g.history, g.done, k);
    assert Upto(g.history[k].index)[j] == j;
    PrefixSucceeds(h, s, g.log, g.history, k);
    HandledIsAbsorbed(h, s, g.log, g.history[..k], j);
    assert g.history[..k + 1][..k] == g.history[..k];
  }

  // ----- the loops -----

  // Where each step leaves its member, and when an offset is committed.
  lemma StepFields<S, R, E>(h: Handler<S, R, E>, g: Group<S, R, E>, member: string, nonce: string, reported: bool, answered: bool, offset: nat)
    ensures member !in g.members ==>
      var g' := Next(h, g, Step.Join(member)); member in g'.members && g'.members[member] == Member(g.committed, false)
    ensures member in g.members && g.members[member].pos < |g.log| && !g.members[member].handled ==>
      var (g', pos) := (Next(h, g, Step.Handle(member, nonce, reported)), g.members[member].pos);
      var (store, ok) := h.run(g.store, g.log[pos], nonce);
      g'.store == store && g'.committed == g.committed && member in g'.members &&
      g'.members[member] == Member(pos, ok && reported)
    ensures member in g.members && g.members[member].handled ==>
      var (g', pos) := (Next(h, g, Step.Commit(member, answered)), g.members[member].pos);
      pos + 1 in g'.requested && member in g'.members &&
      g'.members[member] == (if answered then Member(pos + 1, false) else Member(pos, true))
    ensures Next(h, g, Step.Arrive(offset)).committed == if offset in g.requested then offset else g.committed
    ensures member !in Next(h, g, Step.Crash(member)).members
  {
  }

  /**
    Consumers make progress: a member that joins, handles the next uncommitted record and gets its commit
    through moves the committed offset past exactly that record, which the store has then taken in.
   */
  lemma {:induction false} RoundAdvances<S(!new), R(!new), E(!new)>(
    h: Handler<S, R, E>, g: Group<S, R, E>, member: string, nonce: string)
    requires Idempotent(h) && member !in g.members && g.committed < |g.log|
    requires h.run(g.store, g.log[g.committed], nonce).1
    ensures var g' := Exec(h, g, Round(member, nonce, g.committed));
      g'.committed == g.committed + 1 && g'.log == g.log && member !in g'.members &&
      g'.store == h.run(g.store, g.log[g.committed], nonce).0 && h.absorbed(g'.store, g.log[g.committed])
  {
    var steps := Round<R, E>(member, nonce, g.committed);
    ExecSteps(h, g, steps, 5);
    assert steps[..5] == steps;
    ExecSteps(h, g, steps, 4);
    ExecSteps(h, g, steps, 3);
    ExecSteps(h, g, steps, 2);
    ExecSteps(h, g, steps, 1);
    assert steps[..0] == [];
    StepFields(h, g, member, nonce, true, true, 0);
    StepFields(h, Exec(h, g, steps[..1]), member, nonce, true, true, 0);
    StepFields(h, Exec(h, g, steps[..2]), member, nonce, true, true, 0);
  }

  // Join, handle, commit, the commit's arrival, and leaving.
  function Round<R, E>(member: string, nonce: string, pos: nat): seq<Step<R, E>> {
    [Step.Join(member), Step.Handle(member, nonce, true), Step.Commit(member, true), Step.Arrive(pos + 1), Step.Crash(member)]
  }

  lemma {:induction false} ExecSteps<S, R, E>(h: Handler<S, R, E>, g: Group<S, R, E>, steps: seq<Step<R, E>>, n: nat)
    requires 0 < n <= |steps|
    ensures Exec(h, g, steps[..n]) == Next(h, Exec(h, g, steps[..n - 1]), steps[n - 1])
  {
    assert steps[..n][..n - 1] == steps[..n - 1];
  }

  lemma {:induction false} ExecSnoc<S, R, E>(h: Handler<S, R, E>, g: Group<S, R, E>, steps: seq<Step<R, E>>, step: Step<R, E>)
    ensures Exec(h, g, steps + [step]) == Next(h, Exec(h, g, steps), step)
  {
    assert (steps + [step])[..|steps|] == steps;
  }

  lemma {:induction false} ExecConcat<S, R, E>(h: Handler<S, R, E>, g: Group<S, R, E>, x: seq<Step<R, E>>, y: seq<Step<R, E>>)
    ensures Exec(h, g, x + y) == Exec(h, Exec(h, g, x), y)
  {
    if y == [] {
      assert x + y == x;
    } else {
      var n := |y| - 1;
      ExecConcat(h, g, x, y[..n]);
      assert (x + y)[..|x + y| - 1] == x + y[..n];
    }
  }

  // Steps that are not this member's own.
  predicate Foreign<R, E>(step: Step<R, E>, member: string) {
    !((step.Join? || step.Handle? || step.Commit? || step.Crash?) && step.member == member)
  }

  predicate AllForeign<R, E>(steps: seq<Step<R, E>>, member: string) {
    forall i :: 0 <= i < |steps| ==> Foreign(steps[i], member)
  }

  lemma {:induction false} ForeignKeepsMember<S, R, E>(
    h: Handler<S, R, E>, g: Group<S, R, E>, steps: seq<Step<R, E>>, member: string)
    requires AllForeign(steps, member)
    ensures var g' := Exec(h, g, steps);
      (member in g'.members <==> member in g.members) &&
      (member in g.members ==> g'.members[member] == g.members[member]) && g.log <= g'.log
  {
    if steps != [] { ForeignKeepsMember(h, g, steps[..|steps| - 1], member); }
  }

  // What happens around one call of the handler, one commit, and one fetch. When a script runs out,
  // the context is cancelled and the process stops.
  datatype Attempt<R, E> = Attempt(before: seq<Step<R, E>>, nonce: string, reported: bool)

  datatype CommitAttempt<R, E> = CommitAttempt(before: seq<Step<R, E>>, answered: bool)

  datatype Turn<R, E> = Turn(
    before: seq<Step<R, E>>, fetched: bool, handling: seq<Attempt<R, E>>, committing: seq<CommitAttempt<R, E>>)

  predicate TurnFor<R, E>(turn: Turn<R, E>, member: string) {
    AllForeign(turn.before, member) &&
    (forall i :: 0 <= i < |turn.handling| ==> AllForeign(turn.handling[i].before, member)) &&
    (forall i :: 0 <= i < |turn.committing| ==> AllForeign(turn.committing[i].before, member))
  }

  class Topic<S, R, E> {
    const h: Handler<S, R, E>
    var store: S
    var log: seq<R>
    var committed: nat
    var requested: set<nat>                // bookkeeping, as in Group
    var members: map<string, Member>
    var done: nat
    var history: seq<Effect<E>>

    constructor (h: Handler<S, R, E>, store: S)
      ensures this.h == h && State() == Start(store)
    {
      this.h := h;
      this.store := store;
      log, committed, requested, members, done, history := [], 0, {}, map[], 0, [];
    }

    function State(): Group<S, R, E>
      reads this
    {
      Group(store, log, committed, requested, members, done, history)
    }

    // One call of the handler; an error may be reported although it worked.
    method CallHandler(member: string, nonce: string, reported: bool) returns (ok: bool)
      requires CanHandle(State(), member)
      modifies this
      ensures State() == Next(h, old(State()), Step.Handle(member, nonce, reported))
      ensures member in members && members[member] == Member(old(members)[member].pos, ok)
    {
      var pos := members[member].pos;
      var (after, worked) := h.run(store, log[pos], nonce);
      store := after;
      if worked && pos >= done {
        done, history := done + 1, history + [Handled(pos, nonce)];
      }
      ok := worked && reported;
      if ok {
        members := members[member := Member(pos, true)];
      }
    }

    // One commit request; its effect, if any, is a step of its own.
    method SendCommit(member: string, answered: bool)
      requires member in members && members[member].handled
      modifies this
      ensures State() == Next(h, old(State()), Step.Commit(member, answered))
      ensures member in members
      ensures members[member] == if answered then Member(old(members)[member].pos + 1, false) else old(members)[member]
    {
      var next := members[member].pos + 1;
      requested := requested + {next};
      if answered {
        members := members[member := Member(next, false)];
      }
    }

    // Appends to the trace the step that has just been taken.
    method Recorded(ghost start: Group<S, R, E>, trace: seq<Step<R, E>>, step: Step<R, E>) returns (longer: seq<Step<R, E>>)
      requires State() == Next(h, Exec(h, start, trace), step)
      ensures longer == trace + [step] && State() == Exec(h, start, longer)
    {
      ExecSnoc(h, start, trace, step);
      longer := trace + [step];
    }

    method Elsewhere(step: Step<R, E>)
      modifies this
      ensures State() == Next(h, old(State()), step)
    {
      var g := Next(h, State(), step);
      store, log, committed, requested, members, done, history :=
        g.store, g.log, g.committed, g.requested, g.members, g.done, g.history;
    }

    // Everything that happens elsewhere in the meantime.
    method Interfere(ghost start: Group<S, R, E>, trace: seq<Step<R, E>>, steps: seq<Step<R, E>>, member: string)
      returns (longer: seq<Step<R, E>>)
      requires State() == Exec(h, start, trace) && AllForeign(steps, member)
      modifies this
      ensures State() == Exec(h, start, longer)
      ensures member in members <==> member in old(members)
      ensures member in members ==> members[member] == old(members)[member]
      ensures old(log) <= log
    {
      longer := trace;
      for i := 0 to |steps|
        invariant longer == trace + steps[..i] && State() == Exec(h, start, longer)
      {
        Elsewhere(steps[i]);
        longer := Recorded(start, longer, steps[i]);
        assert steps[..i + 1] == steps[..i] + [steps[i]];
      }
      assert steps[..|steps|] == steps;
      ExecConcat(h, start, trace, steps);
      ForeignKeepsMember(h, old(State()), steps, member);
    }

    // handleUntilSuccess: false when the context ends first.
    method HandleUntilSuccess(ghost start: Group<S, R, E>, trace: seq<Step<R, E>>, member: string, attempts: seq<Attempt<R, E>>)
      returns (longer: seq<Step<R, E>>, ok: bool)
      requires State() == Exec(h, start, trace) && CanHandle(State(), member)
      requires forall i :: 0 <= i < |attempts| ==> AllForeign(attempts[i].before, member)
      modifies this
      ensures State() == Exec(h, start, longer)
      ensures member in members && members[member] == Member(old(members)[member].pos, ok)
    {
      longer, ok := trace, false;
      for i := 0 to |attempts|
        invariant State() == Exec(h, start, longer) && CanHandle(State(), member) && !ok
        invariant members[member] == old(members)[member]
      {
        longer := Interfere(start, longer, attempts[i].before, member);
        ok := CallHandler(member, attempts[i].nonce, attempts[i].reported);
        longer := Recorded(start, longer, Step.Handle(member, attempts[i].nonce, attempts[i].reported));
        if ok {
          return;
        }
      }
    }

    // commitUntilSuccess: the request may take effect, now or later, whether or not its answer arrives.
    method CommitUntilSuccess(ghost start: Group<S, R, E>, trace: seq<Step<R, E>>, member: string, attempts: seq<CommitAttempt<R, E>>)
      returns (longer: seq<Step<R, E>>, ok: bool)
      requires State() == Exec(h, start, trace) && member in members && members[member].handled
      requires forall i :: 0 <= i < |attempts| ==> AllForeign(attempts[i].before, member)
      modifies this
      ensures State() == Exec(h, start, longer)
      ensures member in members
      ensures members[member] == if ok then Member(old(members)[member].pos + 1, false) else old(members)[member]
    {
      longer, ok := trace, false;
      for i := 0 to |attempts|
        invariant State() == Exec(h, start, longer) && member in members && members[member] == old(members)[member]
      {
        longer := Interfere(start, longer, attempts[i].before, member);
        SendCommit(member, attempts[i].answered);
        longer := Recorded(start, longer, Step.Commit(member, attempts[i].answered));
        if attempts[i].answered {
          return longer, true;
        }
      }
    }

    /**
      Run, from joining the group to the end of its context: a run of the steps, in which the member
      handles and commits consecutive records from the committed offset on.
     */
    method Run(member: string, turns: seq<Turn<R, E>>) returns (trace: seq<Step<R, E>>, completed: nat)
      requires member !in members && forall i :: 0 <= i < |turns| ==> TurnFor(turns[i], member)
      modifies this
      ensures State() == Exec(h, old(State()), trace) && member !in members
      ensures trace != [] && trace[|trace| - 1] == Step.Crash(member)
      ensures var last := Exec(h, old(State()), trace[..|trace| - 1]);
        member in last.members && last.members[member].pos == old(committed) + completed
    {
      ghost var start := State();
      members := members[member := Member(committed, false)];
      trace := Recorded(start, [], Step.Join(member));
      completed := 0;
      for i := 0 to |turns|
        invariant State() == Exec(h, start, trace) && member in members
        invariant members[member] == Member(start.committed + completed, false)
      {
        trace := Interfere(start, trace, turns[i].before, member);
        if !turns[i].fetched || members[member].pos >= |log| {
          continue;
        }
        var ok: bool;
        trace, ok := HandleUntilSuccess(start, trace, member, turns[i].handling);
        if !ok {
          break;
        }
        trace, ok := CommitUntilSuccess(start, trace, member, turns[i].committing);
        if !ok {
          break;
        }
        completed := completed + 1;
      }
      ghost var before := trace;
      members := members - {member};
      trace := Recorded(start, trace, Step.Crash(member));
      assert trace[..|trace| - 1] == before;
    }
  }

  /** A run of the loop that completes n records has had at least the n records after the committed offset handled. */
  lemma {:induction false} CompletedIsDone<S(!new), R(!new), E(!new)>(
    h: Handler<S, R, E>, s: S, steps: seq<Step<R, E>>, trace: seq<Step<R, E>>, member: string, completed: nat)
    requires Idempotent(h)
    requires var g := Exec(h, Start(s), steps);
      var last := Exec(h, g, trace);
      member in last.members && last.members[member].pos == g.committed + completed
    ensures var g := Exec(h, Start(s), steps);
      var last := Exec(h, g, trace);
      g.committed + completed <= last.done &&
      forall i :: g.committed <= i < g.committed + completed ==> i < |last.log| && h.absorbed(last.store, last.log[i])
  {
    ExecKeepsInv(h, s, Start(s), steps);
    ExecKeepsInv(h, s, Exec(h, Start(s), steps), trace);
  }
}
