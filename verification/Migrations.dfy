/**
  The migration runner. Any number of processes run their lists at once: each migration is one
  transaction under the service's lock, and the lock is free between migrations. A process may crash
  anywhere, and a commit may take effect although its answer is lost.

  A checksum is the SQL text itself: SHA-256 is taken to be injective.
 */
module Migrations {
  import opened Wrappers
  import T = Texts

  datatype Migration = Migration(version: string, filename: string, text: string)

  datatype Row = Row(filename: string, checksum: string)

  // A run that is under way, or that has ended with an error.
  datatype Phase = Running | Failed(mismatch: bool)

  datatype Runner = Runner(service: string, list: seq<Migration>, next: nat, phase: Phase)

  // `executed` is what each service's SQL amounts to so far.
  datatype State = State(table: map<(string, string), Row>, executed: map<string, seq<Migration>>, runners: map<string, Runner>)

  // How a transaction goes, if nothing in it stops it: an error may hide that it took effect.
  datatype Outcome = Commits | Errors(applied: bool)

  datatype Verdict = Ok | Mismatch | Error

  function Empty(): State { State(map[], map[], map[]) }

  function Executed(s: State, service: string): seq<Migration> {
    if service in s.executed then s.executed[service] else []
  }

  // The transaction of applyMigration.
  function ApplyMigration(s: State, service: string, item: Migration, outcome: Outcome): (State, Verdict) {
    if (service, item.version) in s.table then
      if s.table[(service, item.version)].checksum != item.text then (s, Mismatch)
      else (s, if outcome == Commits then Ok else Error)
    else if outcome == Errors(false) then (s, Error)
    else
      (s.(table := s.table[(service, item.version) := Row(item.filename, item.text)],
          executed := s.executed[service := Executed(s, service) + [item]]),
       if outcome == Commits then Ok else Error)
  }

  datatype Step =
    | Begin(runner: string, service: string, list: seq<Migration>)
    | Apply(runner: string, outcome: Outcome)
    | Crash(runner: string)

  predicate CanApply(s: State, runner: string) {
    runner in s.runners && s.runners[runner].phase == Running && s.runners[runner].next < |s.runners[runner].list|
  }

  function Advanced(r: Runner, verdict: Verdict): Runner {
    match verdict
    case Ok => r.(next := r.next + 1)
    case Mismatch => r.(phase := Failed(true))
    case Error => r.(phase := Failed(false))
  }

  function Next(s: State, step: Step): State {
    match step
    case Begin(runner, service, list) =>
      if runner in s.runners then s else s.(runners := s.runners[runner := Runner(service, list, 0, Running)])
    case Apply(runner, outcome) =>
      if !CanApply(s, runner) then s
      else
        var r := s.runners[runner];
        var (t, verdict) := ApplyMigration(s, r.service, r.list[r.next], outcome);
        t.(runners := s.runners[runner := Advanced(r, verdict)])
    case Crash(runner) => s.(runners := s.runners - {runner})
  }

  function Exec(s: State, steps: seq<Step>): State {
    if steps == [] then s else Next(Exec(s, steps[..|steps| - 1]), steps[|steps| - 1])
  }

  // ----- whatever the lists are -----

  predicate DistinctVersions(list: seq<Migration>) {
    forall i, j :: 0 <= i < j < |list| ==> list[i].version != list[j].version
  }

  predicate Recorded(s: State, service: string, m: Migration) {
    (service, m.version) in s.table && s.table[(service, m.version)].checksum == m.text
  }

  // The table lists exactly what was executed, once per version.
  ghost predicate ServiceOk(s: State, service: string) {
    var done := Executed(s, service);
    DistinctVersions(done) &&
    (forall i :: 0 <= i < |done| ==> Recorded(s, service, done[i])) &&
    (forall v :: (service, v) in s.table ==> HasVersion(done, v))
  }

  ghost predicate HasVersion(list: seq<Migration>, version: string) {
    exists i :: 0 <= i < |list| && list[i].version == version
  }

  predicate RunnerOk(s: State, r: Runner) {
    r.next <= |r.list| && forall i :: 0 <= i < r.next ==> Recorded(s, r.service, r.list[i])
  }

  ghost predicate Inv(s: State) {
    (forall service :: ServiceOk(s, service)) && (forall r :: r in s.runners ==> RunnerOk(s, s.runners[r]))
  }

  lemma ApplyKeepsServices(s: State, service: string, item: Migration, outcome: Outcome, other: string)
    requires ServiceOk(s, other)
    ensures ServiceOk(ApplyMigration(s, service, item, outcome).0, other)
  {
    var t := ApplyMigration(s, service, item, outcome).0;
    var done, done' := Executed(s, other), Executed(t, other);
    if t != s && other == service {
      assert done' == done + [item];
      forall v | (service, v) in t.table ensures HasVersion(done', v) {
        if v == item.version {
          assert done'[|done|].version == v;
        } else {
          assert HasVersion(done, v);
          var i :| 0 <= i < |done| && done[i].version == v;
          assert done'[i].version == v;
        }
      }
      forall i, j | 0 <= i < j < |done'| ensures done'[i].version != done'[j].version {
        if j == |done| { assert Recorded(s, service, done[i]); }
      }
    }
  }

  /**
    One migration's transaction, row by row: a recorded version is left alone and checked against the
    text; any other runs its SQL and records its file name and text together, unless the transaction fails.
   */
  lemma ApplyEffect(s: State, service: string, item: Migration, outcome: Outcome)
    ensures var (t, verdict) := ApplyMigration(s, service, item, outcome);
      (verdict == Mismatch <==> (service, item.version) in s.table && s.table[(service, item.version)].checksum != item.text) &&
      (verdict == Ok ==> outcome == Commits) && (verdict != Mismatch && outcome == Commits ==> verdict == Ok) &&
      t.runners == s.runners &&
      (forall k :: k in s.table ==> k in t.table && t.table[k] == s.table[k]) &&
      if (service, item.version) in s.table || outcome == Errors(false) then t == s
      else (service, item.version) in t.table && t.table[(service, item.version)].filename == item.filename &&
           t.table[(service, item.version)].checksum == item.text && t.table.Keys == s.table.Keys + {(service, item.version)} &&
           service in t.executed && t.executed[service] == (if service in s.executed then s.executed[service] else []) + [item] &&
           t.executed.Keys == s.executed.Keys + {service} &&
           forall other :: other in s.executed && other != service ==> t.executed[other] == s.executed[other]
  {
  }

  // Applying records the item when it says so, and never unrecords or re-records anything.
  lemma ApplyShape(s: State, service: string, item: Migration, outcome: Outcome)
    ensures var (t, verdict) := ApplyMigration(s, service, item, outcome);
      t.runners == s.runners && (verdict == Ok ==> Recorded(t, service, item)) &&
      (forall k :: k in s.table ==> k in t.table && t.table[k] == s.table[k])
  {
  }

  lemma NextKeepsInv(s: State, step: Step)
    requires Inv(s)
    ensures Inv(Next(s, step))
  {
    var s' := Next(s, step);
    match step
    case Begin(runner, service, list) =>
      forall other ensures ServiceOk(s', other) { assert ServiceOk(s, other); }
    case Crash(runner) =>
      forall other ensures ServiceOk(s', other) { assert ServiceOk(s, other); }
    case Apply(runner, outcome) =>
      if CanApply(s, runner) {
        var r := s.runners[runner];
        var t := ApplyMigration(s, r.service, r.list[r.next], outcome).0;
        ApplyShape(s, r.service, r.list[r.next], outcome);
        forall other ensures ServiceOk(s', other) {
          assert ServiceOk(s, other);
          ApplyKeepsServices(s, r.service, r.list[r.next], outcome, other);
          assert ServiceOk(t, other);
        }
        forall q | q in s'.runners ensures RunnerOk(s', s'.runners[q]) { assert RunnerOk(s, s.runners[q]); }
      }
  }

  lemma {:induction false} ExecKeepsInv(steps: seq<Step>)
    ensures Inv(Exec(Empty(), steps))
  {
    if steps != [] {
      ExecKeepsInv(steps[..|steps| - 1]);
      NextKeepsInv(Exec(Empty(), steps[..|steps| - 1]), steps[|steps| - 1]);
    } else {
      forall service ensures ServiceOk(Empty(), service) {}
    }
  }

  /** No version of a service ever runs twice, whatever lists the runners were given and wherever they crashed. */
  lemma {:induction false} EachVersionOnce(steps: seq<Step>, service: string, i: nat, j: nat)
    requires i < j < |Executed(Exec(Empty(), steps), service)|
    ensures var done := Executed(Exec(Empty(), steps), service); done[i].version != done[j].version
  {
    ExecKeepsInv(steps);
    assert ServiceOk(Exec(Empty(), steps), service);
  }

  /** A run that got through its list finds every entry recorded with its own checksum, and its version executed. */
  lemma {:induction false} FinishedIsRecorded(steps: seq<Step>, runner: string, i: nat)
    requires var s := Exec(Empty(), steps); runner in s.runners && i < s.runners[runner].next
    ensures var s := Exec(Empty(), steps);
      var r := s.runners[runner];
      i < |r.list| && Recorded(s, r.service, r.list[i]) && HasVersion(Executed(s, r.service), r.list[i].version)
  {
    ExecKeepsInv(steps);
    var s := Exec(Empty(), steps);
    assert RunnerOk(s, s.runners[runner]) && ServiceOk(s, s.runners[runner].service);
  }

  function Without(steps: seq<Step>, runner: string): seq<Step> {
    if steps == [] then []
    else
      var last := steps[|steps| - 1];
      Without(steps[..|steps| - 1], runner) + if last.Apply? && last.runner == runner then [] else [last]
  }

  lemma FailedStays(s: State, step: Step, runner: string)
    requires runner in s.runners && s.runners[runner].phase.Failed? && step != Crash(runner)
    ensures runner in Next(s, step).runners && Next(s, step).runners[runner] == s.runners[runner]
    ensures step.Apply? && step.runner == runner ==> Next(s, step) == s
  {
  }

  /** After a mismatch, or any other error, a run applies nothing further: its later attempts could as well be left out. */
  lemma {:induction false} FailureStops(s: State, later: seq<Step>, runner: string)
    requires runner in s.runners && s.runners[runner].phase.Failed? && Crash(runner) !in later
    ensures Exec(s, later) == Exec(s, Without(later, runner))
    ensures runner in Exec(s, later).runners && Exec(s, later).runners[runner] == s.runners[runner]
  {
    if later != [] {
      var n := |later| - 1;
      FailureStops(s, later[..n], runner);
      FailedStays(Exec(s, later[..n]), later[n], runner);
      var kept := Without(later[..n], runner);
      if later[n].Apply? && later[n].runner == runner {
        assert kept + [] == kept;
      } else {
        assert Without(later, runner) == kept + [later[n]];
        assert (kept + [later[n]])[..|kept|] == kept;
      }
    }
  }

  // ----- lists that are prefixes of one another -----

  predicate Uses(steps: seq<Step>, service: string, full: seq<Migration>) {
    forall i :: 0 <= i < |steps| && steps[i].Begin? && steps[i].service == service ==> steps[i].list <= full
  }

  ghost predicate PrefixInv(s: State, service: string, full: seq<Migration>) {
    Executed(s, service) <= full &&
    forall r :: r in s.runners && s.runners[r].service == service ==>
      s.runners[r].list <= full && s.runners[r].next <= |Executed(s, service)| && s.runners[r].phase != Failed(true)
  }

  // The next entry of a prefix run is either recorded as it is, or the very next one to execute.
  lemma NextEntry(s: State, service: string, full: seq<Migration>, k: nat)
    requires ServiceOk(s, service) && DistinctVersions(full) && Executed(s, service) <= full
    requires k <= |Executed(s, service)| && k < |full|
    ensures if k < |Executed(s, service)| then Recorded(s, service, full[k]) else (service, full[k].version) !in s.table
  {
    var done := Executed(s, service);
    if k < |done| {
      assert Recorded(s, service, done[k]);
    }
  }

  lemma ApplyKeepsPrefix(s: State, service: string, full: seq<Migration>, runner: string, outcome: Outcome)
    requires ServiceOk(s, service) && DistinctVersions(full) && PrefixInv(s, service, full) && CanApply(s, runner)
    ensures PrefixInv(Next(s, Apply(runner, outcome)), service, full)
  {
    var r := s.runners[runner];
    if r.service == service {
      NextEntry(s, service, full, r.next);
      assert r.list[r.next] == full[r.next];
    }
  }

  lemma {:induction false} ExecKeepsPrefix(steps: seq<Step>, service: string, full: seq<Migration>)
    requires DistinctVersions(full) && Uses(steps, service, full)
    ensures PrefixInv(Exec(Empty(), steps), service, full)
  {
    if steps != [] {
      var n := |steps| - 1;
      ExecKeepsPrefix(steps[..n], service, full);
      ExecKeepsInv(steps[..n]);
      var s := Exec(Empty(), steps[..n]);
      match steps[n]
      case Apply(runner, outcome) =>
        assert ServiceOk(s, service);
        if CanApply(s, runner) { ApplyKeepsPrefix(s, service, full, runner, outcome); }
      case _ =>
    }
  }

  /**
    Racing migrations: when all runners of a service use prefixes of one list with distinct versions,
    what has been executed is at every moment a prefix of that list, no runner ever meets a mismatch,
    and whoever finishes has seen all of its own list executed.
   */
  lemma {:induction false} RacingRunnersExecutePrefix(steps: seq<Step>, service: string, full: seq<Migration>)
    requires DistinctVersions(full) && Uses(steps, service, full)
    ensures var s := Exec(Empty(), steps);
      Executed(s, service) <= full &&
      forall r :: r in s.runners && s.runners[r].service == service ==>
        s.runners[r].phase != Failed(true) &&
        (s.runners[r].next == |s.runners[r].list| ==> s.runners[r].list <= Executed(s, service))
  {
    ExecKeepsPrefix(steps, service, full);
  }

  // ----- one run on an empty table -----

  // Applying the first n entries of a list with every commit answered; None once one mismatched.
  function RunAlone(service: string, list: seq<Migration>, n: nat): Option<State>
    requires n <= |list|
  {
    if n == 0 then Some(Empty())
    else match RunAlone(service, list, n - 1)
      case None => None
      case Some(s) =>
        var (t, verdict) := ApplyMigration(s, service, list[n - 1], Commits);
        if verdict == Ok then Some(t) else None
  }

  predicate SameTexts(list: seq<Migration>, n: nat)
    requires n <= |list|
  {
    forall i, j :: 0 <= i < j < n && list[i].version == list[j].version ==> list[i].text == list[j].text
  }

  // After n entries: each is recorded, and the executed SQL is a subsequence that is complete if versions are distinct.
  ghost predicate RanAlone(s: State, service: string, list: seq<Migration>, n: nat)
    requires n <= |list|
  {
    (forall i :: 0 <= i < n ==> Recorded(s, service, list[i])) &&
    (forall v :: (service, v) in s.table ==> HasVersion(list[..n], v)) &&
    |Executed(s, service)| <= n &&
    (DistinctVersions(list[..n]) <==> |Executed(s, service)| == n) &&
    (DistinctVersions(list[..n]) ==> Executed(s, service) == list[..n])
  }

  lemma RepeatedVersion(list: seq<Migration>, n: nat)
    requires n < |list|
    ensures DistinctVersions(list[..n + 1]) <==> DistinctVersions(list[..n]) && !HasVersion(list[..n], list[n].version)
  {
    assert list[..n + 1] == list[..n] + [list[n]];
    if DistinctVersions(list[..n + 1]) {
      forall i, j | 0 <= i < j < n ensures list[..n][i].version != list[..n][j].version {
        assert list[..n + 1][i].version != list[..n + 1][j].version;
      }
      forall i | 0 <= i < n ensures list[..n][i].version != list[n].version {
        assert list[..n + 1][i].version != list[..n + 1][n].version;
      }
    }
  }

  lemma RanAloneNext(s: State, service: string, list: seq<Migration>, n: nat)
    requires n < |list| && RanAlone(s, service, list, n)
    ensures var (t, verdict) := ApplyMigration(s, service, list[n], Commits);
      verdict == Ok ==> RanAlone(t, service, list, n + 1)
  {
    var (t, verdict) := ApplyMigration(s, service, list[n], Commits);
    var v := list[n].version;
    RepeatedVersion(list, n);
    assert list[..n + 1] == list[..n] + [list[n]];
    assert list[..n + 1][n].version == v;
    forall w | HasVersion(list[..n], w) ensures HasVersion(list[..n + 1], w) {
      var i :| 0 <= i < n && list[..n][i].version == w;
      assert list[..n + 1][i].version == w;
    }
    if (service, v) !in s.table {
      forall i | 0 <= i < n ensures list[..n][i].version != v { assert Recorded(s, service, list[i]); }
    }
  }

  lemma RunAloneStep(s: State, service: string, list: seq<Migration>, n: nat)
    requires n < |list| && RunAlone(service, list, n) == Some(s) && RanAlone(s, service, list, n) && SameTexts(list, n)
    ensures RunAlone(service, list, n + 1).Some? <==> SameTexts(list, n + 1)
    ensures RunAlone(service, list, n + 1).Some? ==> RanAlone(RunAlone(service, list, n + 1).value, service, list, n + 1)
  {
    RanAloneNext(s, service, list, n);
    RunAloneMeets(s, service, list, n);
  }

  lemma {:induction false} RunAloneHolds(service: string, list: seq<Migration>, n: nat)
    requires n <= |list|
    ensures RunAlone(service, list, n).Some? <==> SameTexts(list, n)
    ensures RunAlone(service, list, n).Some? ==> RanAlone(RunAlone(service, list, n).value, service, list, n)
  {
    if n == 0 {
      assert list[..0] == [];
    } else {
      RunAloneHolds(service, list, n - 1);
      if SameTexts(list, n - 1) { RunAloneStep(RunAlone(service, list, n - 1).value, service, list, n - 1); }
    }
  }

  lemma RunAloneMeets(s: State, service: string, list: seq<Migration>, n: nat)
    requires n < |list| && RanAlone(s, service, list, n) && SameTexts(list, n)
    ensures ApplyMigration(s, service, list[n], Commits).1 == Ok <==> SameTexts(list, n + 1)
  {
    var v := list[n].version;
    if (service, v) in s.table {
      assert HasVersion(list[..n], v);
      var i :| 0 <= i < n && list[..n][i].version == v;
      assert list[i].version == v && Recorded(s, service, list[i]);
      forall j | 0 <= j < n && list[j].version == v ensures list[j].text == list[i].text {
        assert Recorded(s, service, list[j]);
      }
    } else {
      forall j | 0 <= j < n ensures list[j].version != v { assert Recorded(s, service, list[j]); }
    }
  }

  /**
    Exactly when a lone run works: on an empty table it succeeds if and only if files with equal
    versions have equal contents, and it then executes every file if and only if versions are distinct.
   */
  lemma {:induction false} LoneRun(service: string, list: seq<Migration>)
    ensures var result := RunAlone(service, list, |list|);
      (result.Some? <==> SameTexts(list, |list|)) &&
      (result.Some? ==>
         (Executed(result.value, service) == list <==> DistinctVersions(list)) &&
         forall i :: 0 <= i < |list| ==> Recorded(result.value, service, list[i]))
  {
    RunAloneHolds(service, list, |list|);
    assert list[..|list|] == list;
  }
}
