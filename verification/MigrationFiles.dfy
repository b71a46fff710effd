/** Loading a directory of migrations, and the runner's loop over what was loaded. */
module MigrationFiles {
  import opened Wrappers
  import opened Texts
  import opened Migrations

  datatype File = File(name: string, isDir: bool, contents: string)

  // unicode.IsSpace.
  predicate IsSpace(c: char) {
    '\t' <= c <= '\r' || c == ' ' || c == '\U{85}' || c == '\U{A0}' || c == '\U{1680}' || '\U{2000}' <= c <= '\U{200A}' ||
    c == '\U{2028}' || c == '\U{2029}' || c == '\U{202F}' || c == '\U{205F}' || c == '\U{3000}'
  }

  // strings.TrimSpace.
  function Trim(s: string): (r: string)
    ensures r == "" <==> forall i :: 0 <= i < |s| ==> IsSpace(s[i])
    ensures r != "" ==> !IsSpace(r[0]) && !IsSpace(r[|r| - 1])
  {
    if s == "" then ""
    else if IsSpace(s[0]) then Trim(s[1..])
    else if IsSpace(s[|s| - 1]) then Trim(s[..|s| - 1])
    else s
  }

  predicate IsMigration(f: File) {
    !f.isDir && |f.name| >= 4 && f.name[|f.name| - 4..] == ".sql"
  }

  // strings.Cut at the first underscore, or all of it.
  function BeforeUnderscore(base: string): (version: string)
    ensures '_' !in version
    ensures version == base || version + "_" <= base
  {
    if base == "" || base[0] == '_' then "" else [base[0]] + BeforeUnderscore(base[1..])
  }

  function MigrationOf(f: File): Migration
    requires IsMigration(f)
  {
    Migration(BeforeUnderscore(f.name[..|f.name| - 4]), f.name, Trim(f.contents))
  }

  // ----- the same, said of the directory entry itself -----

  predicate AllSpace(s: string) { forall i :: 0 <= i < |s| ==> IsSpace(s[i]) }

  // `text` is `contents` without the space around it.
  ghost predicate Strips(contents: string, text: string) {
    (exists p, q :: Surrounded(contents, p, text, q)) && (text != "" ==> !IsSpace(text[0]) && !IsSpace(text[|text| - 1]))
  }

  predicate Surrounded(contents: string, p: string, text: string, q: string) {
    contents == p + text + q && AllSpace(p) && AllSpace(q)
  }

  // A version is what comes before the first underscore, or all of the name.
  predicate Versions(base: string, version: string) {
    '_' !in version && (base == version || (|version| < |base| && base[..|version|] == version && base[|version|] == '_'))
  }

  // What it is for an entry to have been loaded.
  ghost predicate Loaded(f: File, m: Migration) {
    !f.isDir && f.name == m.filename && Strips(f.contents, m.text) && exists base :: Named(f.name, base) && Versions(base, m.version)
  }

  predicate Named(name: string, base: string) { name == base + ".sql" }

  lemma SpaceBefore(s: string, p: string, r: string, q: string)
    requires s != "" && IsSpace(s[0]) && Surrounded(s[1..], p, r, q)
    ensures Surrounded(s, [s[0]] + p, r, q)
  {
    assert s == [s[0]] + s[1..] == [s[0]] + p + r + q;
  }

  lemma SpaceAfter(s: string, p: string, r: string, q: string)
    requires s != "" && IsSpace(s[|s| - 1]) && Surrounded(s[..|s| - 1], p, r, q)
    ensures Surrounded(s, p, r, q + [s[|s| - 1]])
  {
    assert s == s[..|s| - 1] + [s[|s| - 1]] == p + r + (q + [s[|s| - 1]]);
  }

  lemma {:induction false} TrimStrips(s: string) returns (p: string, q: string)
    ensures Surrounded(s, p, Trim(s), q)
  {
    p, q := "", "";
    if s != "" && IsSpace(s[0]) {
      p, q := TrimStrips(s[1..]);
      SpaceBefore(s, p, Trim(s), q);
      p := [s[0]] + p;
    } else if s != "" && IsSpace(s[|s| - 1]) {
      p, q := TrimStrips(s[..|s| - 1]);
      SpaceAfter(s, p, Trim(s), q);
      q := q + [s[|s| - 1]];
    }
  }

  // Only one text is left when the space around it goes.
  lemma StripsOnce(s: string, x: string, y: string)
    requires Strips(s, x) && Strips(s, y)
    ensures x == y
  {
    var p, q :| Surrounded(s, p, x, q);
    var p', q' :| Surrounded(s, p', y, q');
    SpaceOrText(s, p, x, q);
    SpaceOrText(s, p', y, q');
    if x != "" && y != "" {
      TextWithin(s, p, x, q, p', y, q');
      TextWithin(s, p', y, q', p, x, q);
      assert x == s[|p|..|p| + |x|] && y == s[|p'|..|p'| + |y|];
    }
  }

  lemma SpaceOrText(s: string, p: string, x: string, q: string)
    requires Surrounded(s, p, x, q) && (x != "" ==> !IsSpace(x[0]))
    ensures x == "" <==> AllSpace(s)
  {
    if x != "" { assert s[|p|] == x[0]; }
  }

  lemma TextWithin(s: string, p: string, x: string, q: string, p': string, y: string, q': string)
    requires Surrounded(s, p, x, q) && Surrounded(s, p', y, q') && x != "" && !IsSpace(x[0]) && !IsSpace(x[|x| - 1])
    ensures |p'| <= |p| && |q'| <= |q|
  {
    assert s[|p|] == x[0] && s[|p| + |x| - 1] == x[|x| - 1];
    assert forall i :: 0 <= i < |p'| ==> s[i] == p'[i];
    assert forall i :: |s| - |q'| <= i < |s| ==> s[i] == q'[i - (|s| - |q'|)];
  }

  lemma {:induction false} TrimIsStripped(s: string, r: string)
    ensures Strips(s, r) <==> r == Trim(s)
  {
    var p, q := TrimStrips(s);
    if Strips(s, r) { StripsOnce(s, r, Trim(s)); }
  }

  lemma {:induction false} FirstUnderscore(base: string, version: string)
    ensures Versions(base, version) <==> version == BeforeUnderscore(base)
  {
    if base != "" && base[0] != '_' {
      if version != "" && version[0] == base[0] {
        FirstUnderscore(base[1..], version[1..]);
        assert base == [base[0]] + base[1..] && version == [version[0]] + version[1..];
        UnderscoreLater(base, version);
      } else {
        assert !Versions(base, version);
      }
    }
  }

  lemma UnderscoreLater(base: string, version: string)
    requires base != "" && base[0] != '_' && version != "" && version[0] == base[0]
    ensures Versions(base, version) <==> Versions(base[1..], version[1..])
  {
    assert '_' in version <==> '_' in version[1..] by { assert version == [version[0]] + version[1..]; }
    assert base == [base[0]] + base[1..] && version == [version[0]] + version[1..];
    if |version| < |base| {
      assert base[1..][..|version| - 1] == base[..|version|][1..];
      assert base[..|version|] == [base[0]] + base[..|version|][1..];
    }
  }

  /**
    An entry is loaded as a migration if and only if it is a file named base + ".sql": under its own
    name, with its contents less the space around them, and the part of base before any underscore.
   */
  lemma LoadedIsMigrationOf(f: File, m: Migration)
    ensures Loaded(f, m) <==> IsMigration(f) && m == MigrationOf(f)
  {
    TrimIsStripped(f.contents, m.text);
    if IsMigration(f) {
      var base := f.name[..|f.name| - 4];
      assert f.name == base + f.name[|f.name| - 4..];
      assert Named(f.name, base);
      forall other | Named(f.name, other) ensures other == base { BaseOnce(f.name, other); }
      FirstUnderscore(base, m.version);
    } else if !f.isDir {
      forall base ensures !Named(f.name, base) { if Named(f.name, base) { BaseOnce(f.name, base); } }
    }
  }

  lemma BaseOnce(name: string, base: string)
    requires Named(name, base)
    ensures |name| >= 4 && name[|name| - 4..] == ".sql" && base == name[..|name| - 4]
  {
    assert |name| == |base| + 4;
    assert name[..|base|] == base && name[|base|..] == ".sql";
  }

  predicate Before(a: Migration, b: Migration) { Leq(a.filename, b.filename) && a.filename != b.filename }

  predicate Ordered(list: seq<Migration>) {
    forall i, j :: 0 <= i < j < |list| ==> Before(list[i], list[j])
  }

  ghost predicate From(files: seq<File>, m: Migration) {
    exists i :: 0 <= i < |files| && IsMigration(files[i]) && m == MigrationOf(files[i])
  }

  // A directory's migrations: each file once, in file name order.
  ghost predicate Loads(files: seq<File>, list: seq<Migration>) {
    Ordered(list) && forall m :: m in list <==> From(files, m)
  }

  predicate DistinctNames(files: seq<File>) {
    forall i, j :: 0 <= i < j < |files| ==> files[i].name != files[j].name
  }

  // Where sort.Slice puts one more entry.
  function InsertByName(x: Migration, list: seq<Migration>): (r: seq<Migration>)
    requires Ordered(list) && forall i :: 0 <= i < |list| ==> list[i].filename != x.filename
    ensures Ordered(r) && forall m :: m in r <==> m == x || m in list
    decreases |list|
  {
    if list == [] then [x]
    else if Leq(x.filename, list[0].filename) then
      assert forall i :: 0 <= i < |list| ==> Before(x, list[i]) by { BeforeAll(x, list); }
      [x] + list
    else
      var rest := InsertByName(x, list[1..]);
      assert forall i :: 0 <= i < |rest| ==> Before(list[0], rest[i]) by { BeforeRest(x, list, rest); }
      assert forall m :: m in list <==> m == list[0] || m in list[1..];
      assert forall m :: m in [list[0]] + rest <==> m == list[0] || m in rest;
      [list[0]] + rest
  }

  lemma BeforeAll(x: Migration, list: seq<Migration>)
    requires Ordered(list) && list != [] && Leq(x.filename, list[0].filename)
    requires forall i :: 0 <= i < |list| ==> list[i].filename != x.filename
    ensures forall i :: 0 <= i < |list| ==> Before(x, list[i])
  {
    forall i | 0 <= i < |list| ensures Before(x, list[i]) {
      if i > 0 {
        assert Before(list[0], list[i]);
        LeqTransitive(x.filename, list[0].filename, list[i].filename);
      }
    }
  }

  lemma BeforeRest(x: Migration, list: seq<Migration>, rest: seq<Migration>)
    requires Ordered(list) && list != [] && !Leq(x.filename, list[0].filename) && list[0].filename != x.filename
    requires forall m :: m in rest <==> m == x || m in list[1..]
    ensures forall i :: 0 <= i < |rest| ==> Before(list[0], rest[i])
  {
    LeqTotal(x.filename, list[0].filename);
    forall i | 0 <= i < |rest| ensures Before(list[0], rest[i]) {
      if rest[i] != x {
        assert rest[i] in list[1..];
      }
    }
  }

  // Some migration holds nothing but space.
  ghost predicate HasBlank(files: seq<File>) {
    exists i, base :: 0 <= i < |files| && !files[i].isDir && Named(files[i].name, base) && AllSpace(files[i].contents)
  }

  // loadMigrations: None when a migration is blank.
  method LoadMigrations(files: seq<File>) returns (r: Option<seq<Migration>>)
    requires DistinctNames(files)
    ensures r.None? <==> HasBlank(files)
    ensures r.Some? ==> forall m :: m in r.value <==> exists i :: 0 <= i < |files| && Loaded(files[i], m)
    ensures r.Some? ==> Loads(files, r.value)
  {
    var items: seq<Migration> := [];
    for k := 0 to |files|
      invariant Loads(files[..k], items)
      invariant forall i :: 0 <= i < k && IsMigration(files[i]) ==> MigrationOf(files[i]).text != ""
    {
      var file := files[k];
      LoadsNext(files, k, items);
      if !IsMigration(file) {
        continue;
      }
      var item := MigrationOf(file);
      if item.text == "" {
        BlankAt(files, k);
        return None;
      }
      items := InsertByName(item, items);
    }
    assert files[..|files|] == files;
    LoadsLoaded(files, items);
    NoBlank(files);
    return Some(items);
  }

  lemma BlankAt(files: seq<File>, k: nat)
    requires k < |files| && IsMigration(files[k]) && MigrationOf(files[k]).text == ""
    ensures HasBlank(files)
  {
    var base := files[k].name[..|files[k].name| - 4];
    assert files[k].name == base + files[k].name[|files[k].name| - 4..];
    assert Named(files[k].name, base);
  }

  lemma NoBlank(files: seq<File>)
    requires forall i :: 0 <= i < |files| && IsMigration(files[i]) ==> MigrationOf(files[i]).text != ""
    ensures !HasBlank(files)
  {
    forall i, base | 0 <= i < |files| && Named(files[i].name, base)
      ensures files[i].isDir || !AllSpace(files[i].contents)
    {
      BaseOnce(files[i].name, base);
    }
  }

  lemma LoadsLoaded(files: seq<File>, list: seq<Migration>)
    requires Loads(files, list)
    ensures forall m :: m in list <==> exists i :: 0 <= i < |files| && Loaded(files[i], m)
  {
    forall m ensures From(files, m) <==> exists i :: 0 <= i < |files| && Loaded(files[i], m) {
      forall i | 0 <= i < |files| ensures Loaded(files[i], m) <==> IsMigration(files[i]) && m == MigrationOf(files[i]) {
        LoadedIsMigrationOf(files[i], m);
      }
    }
  }

  lemma FromNext(files: seq<File>, k: nat)
    requires k < |files|
    ensures forall m ::
      From(files[..k + 1], m) <==> From(files[..k], m) || (IsMigration(files[k]) && m == MigrationOf(files[k]))
  {
    forall m ensures From(files[..k + 1], m) <==> From(files[..k], m) || (IsMigration(files[k]) && m == MigrationOf(files[k])) {
      if From(files[..k], m) {
        var i :| 0 <= i < k && IsMigration(files[..k][i]) && m == MigrationOf(files[..k][i]);
        assert files[..k + 1][i] == files[..k][i];
      }
      if IsMigration(files[k]) && m == MigrationOf(files[k]) { assert files[..k + 1][k] == files[k]; }
    }
  }

  lemma NameIsNew(files: seq<File>, k: nat, items: seq<Migration>)
    requires DistinctNames(files) && k < |files| && Loads(files[..k], items)
    ensures forall i :: 0 <= i < |items| ==> items[i].filename != files[k].name
  {
    forall i | 0 <= i < |items| ensures items[i].filename != files[k].name {
      assert items[i] in items;
      assert From(files[..k], items[i]);
    }
  }

  lemma {:induction false} LoadsNext(files: seq<File>, k: nat, items: seq<Migration>)
    requires DistinctNames(files) && k < |files| && Loads(files[..k], items)
    ensures !IsMigration(files[k]) ==> Loads(files[..k + 1], items)
    ensures IsMigration(files[k]) ==>
      (forall i :: 0 <= i < |items| ==> items[i].filename != MigrationOf(files[k]).filename) &&
      Loads(files[..k + 1], InsertByName(MigrationOf(files[k]), items))
  {
    FromNext(files, k);
    NameIsNew(files, k, items);
  }

  lemma {:induction false} OrderedPrefix(x: seq<Migration>, y: seq<Migration>)
    requires Ordered(x) && Ordered(y) && forall m :: m in x ==> m in y
    requires forall m :: m in y && m !in x ==> forall i :: 0 <= i < |x| ==> Before(x[i], m)
    ensures x <= y
  {
    if x != [] {
      assert x[0] in y;
      var j :| 0 <= j < |y| && y[j] == x[0];
      if j > 0 {
        assert Before(y[0], x[0]);
        LeqAntisymmetricNames(y[0], x);
      }
      assert y[0] == x[0];
      OrderedPrefixTail(x, y);
      OrderedPrefix(x[1..], y[1..]);
    }
  }

  // Nothing that comes before the first of x is either one of x or after all of x.
  lemma LeqAntisymmetricNames(m: Migration, x: seq<Migration>)
    requires x != [] && Ordered(x) && Before(m, x[0])
    ensures m !in x && !Before(x[0], m)
  {
    if Leq(x[0].filename, m.filename) { LeqAntisymmetric(m.filename, x[0].filename); }
    forall i | 0 <= i < |x| ensures x[i] != m {
      if i > 0 { assert Before(x[0], x[i]); }
    }
  }

  lemma OrderedPrefixTail(x: seq<Migration>, y: seq<Migration>)
    requires x != [] && y != [] && x[0] == y[0] && Ordered(x) && Ordered(y) && forall m :: m in x ==> m in y
    requires forall m :: m in y && m !in x ==> forall i :: 0 <= i < |x| ==> Before(x[i], m)
    ensures forall m :: m in x[1..] ==> m in y[1..]
    ensures forall m :: m in y[1..] && m !in x[1..] ==> forall i :: 0 <= i < |x[1..]| ==> Before(x[1..][i], m)
  {
    forall m | m in x[1..] ensures m in y[1..] {
      var i :| 0 <= i < |x| - 1 && x[1..][i] == m;
      assert Before(x[0], x[i + 1]);
      assert m in y;
      var j :| 0 <= j < |y| && y[j] == m;
      assert j > 0 && y[1..][j - 1] == m;
    }
    forall m | m in y[1..] && m !in x[1..] ensures forall i :: 0 <= i < |x[1..]| ==> Before(x[1..][i], m) {
      var j :| 0 <= j < |y| - 1 && y[1..][j] == m;
      assert Before(y[0], y[j + 1]);
      assert m != x[0] && m !in x;
    }
  }

  /**
    Later builds only append: adding files whose names come after all others turns the loaded list into
    a longer one that starts with it, which is what racing runners of different builds rely on.
   */
  lemma LaterBuildExtends(files: seq<File>, added: seq<File>, list: seq<Migration>, longer: seq<Migration>)
    requires Loads(files, list) && Loads(files + added, longer)
    requires forall i, j :: 0 <= i < |files| && 0 <= j < |added| ==> Leq(files[i].name, added[j].name) && files[i].name != added[j].name
    ensures list <= longer
  {
    forall m | m in list ensures m in longer {
      assert From(files, m);
      var i :| 0 <= i < |files| && IsMigration(files[i]) && m == MigrationOf(files[i]);
      assert (files + added)[i] == files[i];
      assert From(files + added, m);
    }
    forall m, i | m in longer && m !in list && 0 <= i < |list| ensures Before(list[i], m) {
      assert From(files + added, m);
      var j :| 0 <= j < |files + added| && IsMigration((files + added)[j]) && m == MigrationOf((files + added)[j]);
      assert !From(files, m) && forall k :: 0 <= k < |files| ==> (files + added)[k] == files[k];
      assert list[i] in list;
      assert From(files, list[i]);
    }
    OrderedPrefix(list, longer);
  }

  // ----- the runner -----

  lemma {:induction false} ExecSnoc(s: State, steps: seq<Step>, step: Step)
    ensures Exec(s, steps + [step]) == Next(Exec(s, steps), step)
  {
    assert (steps + [step])[..|steps|] == steps;
  }

  lemma {:induction false} ExecConcat(s: State, x: seq<Step>, y: seq<Step>)
    ensures Exec(s, x + y) == Exec(Exec(s, x), y)
  {
    if y == [] {
      assert x + y == x;
    } else {
      var n := |y| - 1;
      ExecConcat(s, x, y[..n]);
      assert (x + y)[..|x + y| - 1] == x + y[..n];
    }
  }

  // Steps of other runners.
  predicate Foreign(step: Step, runner: string) { step.runner != runner }

  predicate AllForeign(steps: seq<Step>, runner: string) {
    forall i :: 0 <= i < |steps| ==> Foreign(steps[i], runner)
  }

  lemma {:induction false} ForeignKeepsRunner(s: State, steps: seq<Step>, runner: string)
    requires AllForeign(steps, runner)
    ensures runner in Exec(s, steps).runners <==> runner in s.runners
    ensures runner in s.runners ==> Exec(s, steps).runners[runner] == s.runners[runner]
  {
    if steps != [] { ForeignKeepsRunner(s, steps[..|steps| - 1], runner); }
  }

  // What happens around one migration; when the script runs out, the process stops.
  datatype Turn = Turn(before: seq<Step>, outcome: Outcome)

  datatype RunResult = Succeeded | InvalidConfig | LoadFailed | ChecksumMismatch | DatabaseError | Stopped

  class Database {
    var table: map<(string, string), Row>
    var executed: map<string, seq<Migration>>   // bookkeeping: what each service's SQL amounts to
    var runners: map<string, Runner>            // bookkeeping: where each run is

    constructor ()
      ensures State() == Empty()
    {
      table, executed, runners := map[], map[], map[];
    }

    function State(): State
      reads this
    {
      Migrations.State(table, executed, runners)
    }

    /** One migration: its SQL and its row together, or neither; nothing for one that is already there. */
    method ApplyMigration(service: string, item: Migration, outcome: Outcome) returns (verdict: Verdict)
      modifies this`table, this`executed
      ensures (State(), verdict) == Migrations.ApplyMigration(old(State()), service, item, outcome)
    {
      var before := (table, executed);
      var committed := false;
      if (service, item.version) in table {
        if table[(service, item.version)].checksum != item.text {
          return Mismatch;
        }
        return if outcome == Commits then Ok else Error;
      }
      executed := executed[service := (if service in executed then executed[service] else []) + [item]];
      table := table[(service, item.version) := Row(item.filename, item.text)];
      committed := outcome != Errors(false);
      if !committed {
        table, executed := before.0, before.1;
      }
      return if outcome == Commits then Ok else Error;
    }

    method Interfere(ghost start: Migrations.State, trace: seq<Step>, steps: seq<Step>, runner: string) returns (longer: seq<Step>)
      requires State() == Exec(start, trace) && AllForeign(steps, runner)
      modifies this
      ensures State() == Exec(start, longer)
      ensures runner in runners <==> runner in old(runners)
      ensures runner in runners ==> runners[runner] == old(runners)[runner]
    {
      for i := 0 to |steps|
        invariant State() == Exec(old(State()), steps[..i])
      {
        var s := Next(State(), steps[i]);
        assert steps[..i + 1] == steps[..i] + [steps[i]];
        ExecSnoc(old(State()), steps[..i], steps[i]);
        table, executed, runners := s.table, s.executed, s.runners;
      }
      assert steps[..|steps|] == steps;
      ExecConcat(start, trace, steps);
      ForeignKeepsRunner(old(State()), steps, runner);
      longer := trace + steps;
    }

    /** Run, with any other runners at work between its migrations, is a run of the steps, and says truly how it ended. */
    method Run(runner: string, service: string, directory: string, files: seq<File>, tableEnsured: bool, turns: seq<Turn>)
      returns (trace: seq<Step>, result: RunResult)
      requires runner !in runners && DistinctNames(files)
      requires forall i :: 0 <= i < |turns| ==> AllForeign(turns[i].before, runner)
      modifies this
      ensures State() == Exec(old(State()), trace)
      ensures result == InvalidConfig <==> AllSpace(service) || AllSpace(directory)
      ensures result == LoadFailed <==> !AllSpace(service) && !AllSpace(directory) && HasBlank(files)
      ensures result == InvalidConfig || result == LoadFailed || !tableEnsured ==> State() == old(State())
      ensures result != InvalidConfig && result != LoadFailed && !tableEnsured ==> result == DatabaseError
      ensures result == Succeeded ==>
        runner in runners && Loads(files, runners[runner].list) && runners[runner].service == service &&
        runners[runner].phase == Running && runners[runner].next == |runners[runner].list|
      ensures result == ChecksumMismatch ==> runner in runners && runners[runner].phase == Failed(true)
    {
      ghost var start := State();
      trace := [];
      if Trim(service) == "" || Trim(directory) == "" {
        return trace, InvalidConfig;
      }
      var loaded := LoadMigrations(files);
      if loaded.None? {
        return trace, LoadFailed;
      }
      if !tableEnsured {
        return trace, DatabaseError;
      }
      var items := loaded.value;
      runners := runners[runner := Runner(service, items, 0, Running)];
      trace := Recorded(start, trace, Begin(runner, service, items));
      for i := 0 to |items|
        invariant State() == Exec(start, trace)
        invariant runner in runners && runners[runner] == Runner(service, items, i, Running)
      {
        if i >= |turns| {
          runners := runners - {runner};
          trace := Recorded(start, trace, Crash(runner));
          return trace, Stopped;
        }
        trace := Interfere(start, trace, turns[i].before, runner);
        var verdict := ApplyMigration(service, items[i], turns[i].outcome);
        runners := runners[runner := Advanced(runners[runner], verdict)];
        trace := Recorded(start, trace, Apply(runner, turns[i].outcome));
        if verdict == Mismatch {
          return trace, ChecksumMismatch;
        }
        if verdict == Error {
          return trace, DatabaseError;
        }
      }
      return trace, Succeeded;
    }

    // Appends to the trace the step that has just been taken.
    method Recorded(ghost start: Migrations.State, trace: seq<Step>, step: Step) returns (longer: seq<Step>)
      requires State() == Next(Exec(start, trace), step)
      ensures State() == Exec(start, longer)
    {
      ExecSnoc(start, trace, step);
      longer := trace + [step];
    }
  }
}
