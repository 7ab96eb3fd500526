// The migration registry of postgresql/bunframework/migrations.go, and
// an abstract model of the bun migrator it drives: a table of applied
// migrations, each tagged with the group (batch) that applied it.
module Migrations {
  import opened Wrappers
  import opened GoErrors
  import Text

  /** A migration, identified by its name as the migrator identifies it. */
  datatype Migration = Migration(name: string)

  /** An fs.FS holding SQL migration files, and a pair of Go migration functions. */
  datatype FileSystem = FileSystem(id: nat)
  datatype GoMigration = GoMigration(id: nat)

  /** What Migrations.Discover / Migrations.Register make of one source. */
  datatype Discovery = Discovered(found: seq<Migration>) | DiscoveryFailed(err: Error)

  /** The result of getMigrations. */
  datatype Gathered = Gathered(migrations: seq<Migration>) | GatherFailed(err: Error)

  /** One row of the migrator's table, and a batch of migrations. */
  datatype Record = Record(migration: Migration, group: nat)
  datatype MigrationGroup = MigrationGroup(id: nat, migrations: seq<Migration>)

  /**
   * The behaviour of the migration library and of the migrations
   * themselves: discovery per source, the migrator's Init outcome, and
   * the outcome of each migration's up and down step.
   */
  datatype Backend = Backend(
    discover: FileSystem -> Discovery,
    register: GoMigration -> Discovery,
    initErr: Option<Error>,
    up: Migration -> Option<Error>,
    down: Migration -> Option<Error>)

  const ErrNoDB := Leaf("missing db object")
  const FileSystemFailure := "failed to discover migrations on filesystem "
  const GoMigrationFailure := "failed to discover migrations on go migration "
  const InitFailure := "failed to create migrator: "
  const RunFailure := "failed to run migrations: "
  const RollbackFailure := "failed to rollback migrations: "

  /** The error naming the index and the kind of the source that failed. */
  function SourceError(kind: string, i: nat, e: Error): Error
  {
    Wrapped(kind + Text.NatToDecimal(i) + ": ", e, "")
  }

  /** Discovery over `sources` in index order, after `start`, stopping at the first failure. */
  function Gather<S>(start: Gathered, sources: seq<S>, step: S -> Discovery, kind: string): Gathered
    decreases |sources|
  {
    if |sources| == 0 then start
    else
      match Gather(start, sources[..|sources| - 1], step, kind)
      case GatherFailed(e) => GatherFailed(e)
      case Gathered(found) =>
        match step(sources[|sources| - 1])
        case DiscoveryFailed(e) => GatherFailed(SourceError(kind, |sources| - 1, e))
        case Discovered(more) => Gathered(found + more)
  }

  /** getMigrations: every filesystem in order, then every Go migration in order. */
  function AllMigrations(files: seq<FileSystem>, goMigrations: seq<GoMigration>, b: Backend): Gathered
  {
    Gather(Gather(Gathered([]), files, b.discover, FileSystemFailure), goMigrations, b.register, GoMigrationFailure)
  }

  /** Everything the sources yield when none fails. */
  function Found<S>(sources: seq<S>, step: S -> Discovery): seq<Migration>
    requires forall i :: 0 <= i < |sources| ==> step(sources[i]).Discovered?
    decreases |sources|
  {
    if |sources| == 0 then []
    else Found(sources[..|sources| - 1], step) + step(sources[|sources| - 1]).found
  }

  /** A failed start is never overwritten. */
  lemma {:induction false} GatherKeepsFailure<S>(start: Gathered, sources: seq<S>, step: S -> Discovery, kind: string)
    requires start.GatherFailed?
    ensures Gather(start, sources, step, kind) == start
    decreases |sources|
  {
    if |sources| > 0 {
      GatherKeepsFailure(start, sources[..|sources| - 1], step, kind);
    }
  }

  /** Gathering succeeds exactly when every source is discovered, and then yields all their migrations in order. */
  lemma {:induction false} GatherAllFound<S>(start: Gathered, sources: seq<S>, step: S -> Discovery, kind: string)
    requires start.Gathered?
    ensures Gather(start, sources, step, kind).Gathered?
        <==> forall i :: 0 <= i < |sources| ==> step(sources[i]).Discovered?
    ensures (forall i :: 0 <= i < |sources| ==> step(sources[i]).Discovered?) ==>
              Gather(start, sources, step, kind) == Gathered(start.migrations + Found(sources, step))
    decreases |sources|
  {
    if |sources| > 0 {
      var init := sources[..|sources| - 1];
      GatherAllFound(start, init, step, kind);
      assert forall i :: 0 <= i < |init| ==> init[i] == sources[i];
      if Gather(start, init, step, kind).Gathered? {
        assert (forall i :: 0 <= i < |sources| ==> step(sources[i]).Discovered?)
           <==> (forall i :: 0 <= i < |init| ==> step(init[i]).Discovered?) && step(sources[|sources| - 1]).Discovered?;
      }
    }
  }

  /** The first failing source decides the error: its index and kind are named, later sources do not matter. */
  lemma {:induction false} GatherFirstFailure<S>(start: Gathered, sources: seq<S>, step: S -> Discovery, kind: string, i: nat)
    requires start.Gathered? && i < |sources| && step(sources[i]).DiscoveryFailed?
    requires forall j :: 0 <= j < i ==> step(sources[j]).Discovered?
    ensures Gather(start, sources, step, kind) == GatherFailed(SourceError(kind, i, step(sources[i]).err))
    decreases |sources|
  {
    var init := sources[..|sources| - 1];
    if i == |sources| - 1 {
      assert forall j :: 0 <= j < |init| ==> init[j] == sources[j];
      GatherAllFound(start, init, step, kind);
    } else {
      assert init[i] == sources[i];
      GatherFirstFailure(start, init, step, kind, i);
    }
  }

  /** Gathering past a failed prefix changes nothing. */
  lemma {:induction false} GatherPrefixFailed<S>(start: Gathered, sources: seq<S>, step: S -> Discovery, kind: string, k: nat)
    requires k <= |sources| && Gather(start, sources[..k], step, kind).GatherFailed?
    ensures Gather(start, sources, step, kind) == Gather(start, sources[..k], step, kind)
    decreases |sources| - k
  {
    if k < |sources| {
      var next := sources[..k + 1];
      assert next[..|next| - 1] == sources[..k];
      GatherPrefixFailed(start, sources, step, kind, k + 1);
    } else {
      assert sources[..k] == sources;
    }
  }

  /** A failing filesystem makes getMigrations fail with its error whatever the Go migrations are. */
  lemma FileFailureIgnoresGoMigrations(files: seq<FileSystem>, goMigrations: seq<GoMigration>, b: Backend, i: nat)
    requires i < |files| && b.discover(files[i]).DiscoveryFailed?
    requires forall j :: 0 <= j < i ==> b.discover(files[j]).Discovered?
    ensures AllMigrations(files, goMigrations, b)
         == GatherFailed(SourceError(FileSystemFailure, i, b.discover(files[i]).err))
  {
    GatherFirstFailure(Gathered([]), files, b.discover, FileSystemFailure, i);
    GatherKeepsFailure(Gather(Gathered([]), files, b.discover, FileSystemFailure), goMigrations, b.register, GoMigrationFailure);
  }

  /** With every source discovered, the file migrations come first, then the Go ones. */
  lemma AllDiscovered(files: seq<FileSystem>, goMigrations: seq<GoMigration>, b: Backend)
    requires forall i :: 0 <= i < |files| ==> b.discover(files[i]).Discovered?
    requires forall i :: 0 <= i < |goMigrations| ==> b.register(goMigrations[i]).Discovered?
    ensures AllMigrations(files, goMigrations, b)
         == Gathered(Found(files, b.discover) + Found(goMigrations, b.register))
  {
    GatherAllFound(Gathered([]), files, b.discover, FileSystemFailure);
    assert [] + Found(files, b.discover) == Found(files, b.discover);
    GatherAllFound(Gathered(Found(files, b.discover)), goMigrations, b.register, GoMigrationFailure);
  }

  // ---- The migrator's table, abstractly ----

  function AppliedNames(applied: seq<Record>): set<string>
  {
    set r | r in applied :: r.migration.name
  }

  /** The migrations whose name has not been applied, in order. */
  function Pending(ms: seq<Migration>, done: set<string>): seq<Migration>
  {
    if |ms| == 0 then []
    else (if ms[0].name in done then [] else [ms[0]]) + Pending(ms[1..], done)
  }

  /** Pending keeps exactly the migrations whose name is not done. */
  lemma {:induction false} PendingMembers(ms: seq<Migration>, done: set<string>)
    ensures forall m :: m in Pending(ms, done) <==> m in ms && m.name !in done
    decreases |ms|
  {
    if |ms| > 0 {
      PendingMembers(ms[1..], done);
      assert ms == [ms[0]] + ms[1..];
    }
  }

  /** Nothing is pending once every name is done. */
  lemma {:induction false} PendingNone(ms: seq<Migration>, done: set<string>)
    requires forall m :: m in ms ==> m.name in done
    ensures Pending(ms, done) == []
    decreases |ms|
  {
    if |ms| > 0 {
      assert ms[0] in ms;
      PendingNone(ms[1..], done);
    }
  }

  /** The group of the most recent batch; 0 when nothing is applied. */
  function LastGroup(applied: seq<Record>): nat
  {
    if |applied| == 0 then 0 else applied[|applied| - 1].group
  }

  function Records(ms: seq<Migration>, group: nat): seq<Record>
  {
    seq(|ms|, i requires 0 <= i < |ms| => Record(ms[i], group))
  }

  function MigrationsOf(rs: seq<Record>): seq<Migration>
  {
    seq(|rs|, i requires 0 <= i < |rs| => rs[i].migration)
  }

  function Reverse<T>(s: seq<T>): seq<T>
  {
    seq(|s|, i requires 0 <= i < |s| => s[|s| - 1 - i])
  }

  /** How many leading steps succeed before the first one that fails. */
  function Succeeded(ms: seq<Migration>, run: Migration -> Option<Error>): (n: nat)
    ensures n <= |ms|
    ensures forall j :: 0 <= j < n ==> run(ms[j]).None?
    ensures n < |ms| ==> run(ms[n]).Some?
  {
    if |ms| == 0 || run(ms[0]).Some? then 0 else 1 + Succeeded(ms[1..], run)
  }

  /** The count of leading successes is the first index that fails. */
  lemma SucceededIs(ms: seq<Migration>, run: Migration -> Option<Error>, k: nat)
    requires k <= |ms| && forall j :: 0 <= j < k ==> run(ms[j]).None?
    requires k < |ms| ==> run(ms[k]).Some?
    ensures Succeeded(ms, run) == k
  {
  }

  /** The number of records at the end of the table that belong to `group`. */
  function TrailingGroup(applied: seq<Record>, group: nat): (n: nat)
    ensures n <= |applied|
  {
    if |applied| == 0 || applied[|applied| - 1].group != group then 0
    else 1 + TrailingGroup(applied[..|applied| - 1], group)
  }

  /** The table, the group and the error a migrator step ends with. */
  datatype Step = Step(applied: seq<Record>, group: MigrationGroup, err: Option<Error>)

  /** Migrate: the pending migrations run as one new group, numbered after the last one. */
  function MigrateStep(applied: seq<Record>, ms: seq<Migration>, up: Migration -> Option<Error>): Step
  {
    RunGroup(applied, Pending(ms, AppliedNames(applied)), LastGroup(applied) + 1, up)
  }

  /**
   * The migrations of a group run in order; each one that succeeds is
   * recorded, and the first failure stops the run. With nothing pending
   * the group is the empty group 0.
   */
  function RunGroup(applied: seq<Record>, pending: seq<Migration>, id: nat, up: Migration -> Option<Error>): Step
  {
    var n := Succeeded(pending, up);
    if |pending| == 0 then Step(applied, MigrationGroup(0, []), None)
    else if n < |pending| then Step(applied + Records(pending[..n], id), MigrationGroup(id, pending[..n]), up(pending[n]))
    else Step(applied + Records(pending, id), MigrationGroup(id, pending), None)
  }

  /** A group whose first `k` migrations succeed and whose next one fails (if any) ends there. */
  lemma RunGroupStops(applied: seq<Record>, pending: seq<Migration>, id: nat, up: Migration -> Option<Error>, k: nat)
    requires 0 < |pending| && k <= |pending|
    requires forall j :: 0 <= j < k ==> up(pending[j]).None?
    requires k < |pending| ==> up(pending[k]).Some?
    ensures k < |pending| ==>
      RunGroup(applied, pending, id, up) == Step(applied + Records(pending[..k], id), MigrationGroup(id, pending[..k]), up(pending[k]))
    ensures k == |pending| ==>
      RunGroup(applied, pending, id, up) == Step(applied + Records(pending, id), MigrationGroup(id, pending), None)
  {
    SucceededIs(pending, up, k);
  }

  /**
   * Rollback: the most recent group is undone from its last migration
   * backwards; each one whose down step succeeds is removed, and the
   * first failure stops the run.
   */
  function RollbackStep(applied: seq<Record>, down: Migration -> Option<Error>): Step
  {
    var batch := LastBatch(applied);
    var n := Succeeded(Reverse(batch), down);
    Step(applied[..|applied| - n], MigrationGroup(LastGroup(applied), batch),
         if n < |batch| then down(Reverse(batch)[n]) else None)
  }

  /** The migrations of the most recent group, in the order they were applied. */
  function LastBatch(applied: seq<Record>): seq<Migration>
  {
    MigrationsOf(applied[|applied| - TrailingGroup(applied, LastGroup(applied))..])
  }

  lemma AppliedNamesAppend(applied: seq<Record>, rs: seq<Record>)
    ensures AppliedNames(applied + rs) == AppliedNames(applied) + AppliedNames(rs)
  {
    forall name | name in AppliedNames(applied + rs)
      ensures name in AppliedNames(applied) + AppliedNames(rs)
    {
      var r :| r in applied + rs && r.migration.name == name;
    }
  }

  /** A successful migrate with something pending records it all as one new group. */
  lemma MigrateSucceeded(applied: seq<Record>, ms: seq<Migration>, up: Migration -> Option<Error>)
    requires MigrateStep(applied, ms, up).err.None?
    requires |Pending(ms, AppliedNames(applied))| > 0
    ensures var pending := Pending(ms, AppliedNames(applied));
      MigrateStep(applied, ms, up)
        == Step(applied + Records(pending, LastGroup(applied) + 1), MigrationGroup(LastGroup(applied) + 1, pending), None)
  {
  }

  /** A successful migrate records every migration, so running it again applies nothing. */
  lemma MigrateIdempotent(applied: seq<Record>, ms: seq<Migration>, up: Migration -> Option<Error>, up2: Migration -> Option<Error>)
    requires MigrateStep(applied, ms, up).err.None?
    ensures forall m :: m in ms ==> m.name in AppliedNames(MigrateStep(applied, ms, up).applied)
    ensures var again := MigrateStep(MigrateStep(applied, ms, up).applied, ms, up2);
      again == Step(MigrateStep(applied, ms, up).applied, MigrationGroup(0, []), None)
  {
    var done := AppliedNames(applied);
    var pending := Pending(ms, done);
    var id := LastGroup(applied) + 1;
    var after := MigrateStep(applied, ms, up).applied;
    PendingMembers(ms, done);
    if |pending| > 0 {
      MigrateSucceeded(applied, ms, up);
      AppliedNamesAppend(applied, Records(pending, id));
    }
    forall m | m in ms
      ensures m.name in AppliedNames(after)
    {
      if m.name !in done {
        var i :| 0 <= i < |pending| && pending[i] == m;
        assert Records(pending, id)[i] == Record(m, id);
        assert Records(pending, id)[i] in Records(pending, id);
      }
    }
    PendingNone(ms, AppliedNames(after));
  }

  /** Rolling back right after a migrate that applied something restores the table. */
  lemma RollbackUndoesMigrate(applied: seq<Record>, ms: seq<Migration>, up: Migration -> Option<Error>, down: Migration -> Option<Error>)
    requires MigrateStep(applied, ms, up).err.None?
    requires |Pending(ms, AppliedNames(applied))| > 0
    requires var pending := Pending(ms, AppliedNames(applied));
      forall i :: 0 <= i < |pending| ==> down(pending[i]).None?
    ensures var back := RollbackStep(MigrateStep(applied, ms, up).applied, down);
      back == Step(applied, MigrateStep(applied, ms, up).group, None)
  {
    var pending := Pending(ms, AppliedNames(applied));
    MigrateSucceeded(applied, ms, up);
    RollbackRecords(applied, pending, LastGroup(applied) + 1, down);
  }

  /** Undoing a batch appended under a fresh group removes exactly that batch. */
  lemma RollbackRecords(applied: seq<Record>, pending: seq<Migration>, id: nat, down: Migration -> Option<Error>)
    requires LastGroup(applied) < id && |pending| > 0
    requires forall i :: 0 <= i < |pending| ==> down(pending[i]).None?
    ensures RollbackStep(applied + Records(pending, id), down) == Step(applied, MigrationGroup(id, pending), None)
  {
    var after := applied + Records(pending, id);
    assert LastGroup(after) == id;
    TrailingRecords(applied, Records(pending, id), id);
    LastBatchOf(applied, pending, id);
    UndoAll(pending, down);
    assert after[..|after| - |pending|] == applied;
  }

  /** When every down step succeeds, the whole reversed batch is undone. */
  lemma UndoAll(batch: seq<Migration>, down: Migration -> Option<Error>)
    requires forall i :: 0 <= i < |batch| ==> down(batch[i]).None?
    ensures Succeeded(Reverse(batch), down) == |batch|
  {
    forall j | 0 <= j < |batch|
      ensures down(Reverse(batch)[j]).None?
    {
      assert Reverse(batch)[j] == batch[|batch| - 1 - j];
    }
    SucceededIs(Reverse(batch), down, |batch|);
  }

  lemma LastBatchOf(applied: seq<Record>, pending: seq<Migration>, id: nat)
    requires LastGroup(applied + Records(pending, id)) == id
    requires TrailingGroup(applied + Records(pending, id), id) == |pending|
    ensures LastBatch(applied + Records(pending, id)) == pending
  {
    var after := applied + Records(pending, id);
    assert after[|after| - |pending|..] == Records(pending, id);
  }

  /** A batch appended under a fresh group is exactly the trailing group. */
  lemma {:induction false} TrailingRecords(applied: seq<Record>, rs: seq<Record>, id: nat)
    requires LastGroup(applied) < id
    requires forall i :: 0 <= i < |rs| ==> rs[i].group == id
    ensures TrailingGroup(applied + rs, id) == |rs|
    decreases |rs|
  {
    if |rs| > 0 {
      var whole := applied + rs;
      assert whole[..|whole| - 1] == applied + rs[..|rs| - 1];
      TrailingRecords(applied, rs[..|rs| - 1], id);
    } else {
      assert applied + rs == applied;
    }
  }

  /** The sequence of migrations_test.go: migrate one migration, migrate again, roll back. */
  lemma MigrateTwiceThenRollback(m: Migration, up: Migration -> Option<Error>, down: Migration -> Option<Error>)
    requires up(m).None? && down(m).None?
    ensures var first := MigrateStep([], [m], up);
      first.err.None? && |first.group.migrations| == 1
    ensures var second := MigrateStep(MigrateStep([], [m], up).applied, [m], up);
      second.err.None? && |second.group.migrations| == 0
    ensures var back := RollbackStep(MigrateStep(MigrateStep([], [m], up).applied, [m], up).applied, down);
      back.err.None? && back.applied == []
  {
    assert AppliedNames([]) == {};
    assert Pending([m], {}) == [m] by {
      assert [m][1..] == [];
    }
    SucceededIs([m], up, 1);
    MigrateIdempotent([], [m], up, up);
    RollbackUndoesMigrate([], [m], up, down);
  }

  /** The database handle's migration table. */
  class Database {
    var applied: seq<Record>

    constructor(applied: seq<Record>)
      ensures this.applied == applied
    {
      this.applied := applied;
    }

    method Migrate(ms: seq<Migration>, up: Migration -> Option<Error>) returns (group: MigrationGroup, err: Option<Error>)
      modifies this
      ensures Step(applied, group, err) == MigrateStep(old(applied), ms, up)
    {
      var pending := Pending(ms, AppliedNames(applied));
      var id := LastGroup(applied) + 1;
      if |pending| == 0 {
        return MigrationGroup(0, []), None;
      }
      group, err := Run(pending, id, up);
    }

    /** Runs a non-empty group of pending migrations, recording each success. */
    method Run(pending: seq<Migration>, id: nat, up: Migration -> Option<Error>) returns (group: MigrationGroup, err: Option<Error>)
      requires |pending| > 0
      modifies this
      ensures Step(applied, group, err) == RunGroup(old(applied), pending, id, up)
    {
      ghost var before := applied;
      var k := 0;
      while k < |pending|
        invariant 0 <= k <= |pending|
        invariant forall j :: 0 <= j < k ==> up(pending[j]).None?
        invariant applied == before + Records(pending[..k], id)
      {
        var e := up(pending[k]);
        if e.Some? {
          RunGroupStops(before, pending, id, up, k);
          return MigrationGroup(id, pending[..k]), e;
        }
        assert Records(pending[..k + 1], id) == Records(pending[..k], id) + [Record(pending[k], id)];
        applied := applied + [Record(pending[k], id)];
        k := k + 1;
      }
      RunGroupStops(before, pending, id, up, k);
      assert pending[..k] == pending;
      return MigrationGroup(id, pending), None;
    }

    method Rollback(down: Migration -> Option<Error>) returns (group: MigrationGroup, err: Option<Error>)
      modifies this
      ensures Step(applied, group, err) == RollbackStep(old(applied), down)
    {
      var batch := LastBatch(applied);
      group := MigrationGroup(LastGroup(applied), batch);
      ghost var backwards := Reverse(batch);
      var remaining := applied;
      err := None;
      var k := 0;
      while k < |batch|
        invariant 0 <= k <= |batch|
        invariant forall j :: 0 <= j < k ==> down(backwards[j]).None?
        invariant remaining == applied[..|applied| - k]
        invariant err.None?
      {
        assert backwards[k] == batch[|batch| - 1 - k];
        err := down(batch[|batch| - 1 - k]);
        if err.Some? {
          break;
        }
        remaining := remaining[..|remaining| - 1];
        k := k + 1;
      }
      SucceededIs(backwards, down, k);
      applied := remaining;
    }
  }

  /**
   * The error Execute returns for a present database: a discovery error as
   * it is, else the wrapped Init failure, else the wrapped failure of the
   * migration group run on the table `applied`.
   */
  function ExecuteError(files: seq<FileSystem>, goMigrations: seq<GoMigration>, applied: seq<Record>, b: Backend)
    : Option<Error>
  {
    var g := AllMigrations(files, goMigrations, b);
    if g.GatherFailed? then Some(g.err)
    else if b.initErr.Some? then Some(Wrapped(InitFailure, b.initErr.value, ""))
    else
      var s := MigrateStep(applied, g.migrations, b.up);
      if s.err.Some? then Some(Wrapped(RunFailure, s.err.value, "")) else None
  }

  /** MigrateConfig: the registered sources and the cached report. */
  class MigrateConfig {
    var files: seq<FileSystem>
    var goMigrations: seq<GoMigration>
    var migrations: Option<MigrationGroup>

    constructor()
      ensures files == [] && goMigrations == [] && migrations == None
    {
      files := [];
      goMigrations := [];
      migrations := None;
    }

    method RegisterSqlMigrations(more: seq<FileSystem>)
      modifies this
      ensures files == old(files) + more
      ensures goMigrations == old(goMigrations) && migrations == old(migrations)
    {
      files := files + more;
    }

    method RegisterGoMigrations(more: seq<GoMigration>)
      modifies this
      ensures goMigrations == old(goMigrations) + more
      ensures files == old(files) && migrations == old(migrations)
    {
      goMigrations := goMigrations + more;
    }

    method GetMigrations(b: Backend) returns (r: Gathered)
      ensures r == AllMigrations(files, goMigrations, b)
    {
      var found: seq<Migration> := [];
      for i := 0 to |files|
        invariant Gather(Gathered([]), files[..i], b.discover, FileSystemFailure) == Gathered(found)
      {
        assert files[..i + 1][..i] == files[..i];
        var d := b.discover(files[i]);
        if d.DiscoveryFailed? {
          r := GatherFailed(SourceError(FileSystemFailure, i, d.err));
          GatherPrefixFailed(Gathered([]), files, b.discover, FileSystemFailure, i + 1);
          GatherKeepsFailure(r, goMigrations, b.register, GoMigrationFailure);
          return;
        }
        found := found + d.found;
      }
      assert files[..|files|] == files;
      var fromFiles := Gathered(found);
      for i := 0 to |goMigrations|
        invariant Gather(fromFiles, goMigrations[..i], b.register, GoMigrationFailure) == Gathered(found)
      {
        assert goMigrations[..i + 1][..i] == goMigrations[..i];
        var d := b.register(goMigrations[i]);
        if d.DiscoveryFailed? {
          r := GatherFailed(SourceError(GoMigrationFailure, i, d.err));
          GatherPrefixFailed(fromFiles, goMigrations, b.register, GoMigrationFailure, i + 1);
          return;
        }
        found := found + d.found;
      }
      assert goMigrations[..|goMigrations|] == goMigrations;
      r := Gathered(found);
    }

    /** Execute: migrate `db` with every registered source; the report is cached only on success. */
    method Execute(db: Database?, b: Backend) returns (err: Option<Error>)
      modifies this, db
      ensures files == old(files) && goMigrations == old(goMigrations)
      ensures db != null ==> err == ExecuteError(files, goMigrations, old(db.applied), b)
      ensures db == null ==> err == Some(ErrNoDB) && migrations == old(migrations)
      ensures db != null ==>
        var g := AllMigrations(files, goMigrations, b);
        if g.GatherFailed? then
          err == Some(g.err) && migrations == old(migrations) && db.applied == old(db.applied)
        else if b.initErr.Some? then
          err == Some(Wrapped(InitFailure, b.initErr.value, "")) && migrations == old(migrations)
          && db.applied == old(db.applied)
        else
          var s := MigrateStep(old(db.applied), g.migrations, b.up);
          db.applied == s.applied
          && (s.err.None? ==> err.None? && migrations == Some(s.group))
          && (s.err.Some? ==> err == Some(Wrapped(RunFailure, s.err.value, "")) && migrations == old(migrations))
    {
      if db == null {
        return Some(ErrNoDB);
      }
      var g := GetMigrations(b);
      if g.GatherFailed? {
        return Some(g.err);
      }
      if b.initErr.Some? {
        return Some(Wrapped(InitFailure, b.initErr.value, ""));
      }
      var group, e := db.Migrate(g.migrations, b.up);
      if e.Some? {
        return Some(Wrapped(RunFailure, e.value, ""));
      }
      migrations := Some(group);
      err := None;
    }

    /** Rollback: undo the most recent group on `db`; the report is cached only on success. */
    method Rollback(db: Database?, b: Backend) returns (err: Option<Error>)
      modifies this, db
      ensures files == old(files) && goMigrations == old(goMigrations)
      ensures db == null ==> err == Some(ErrNoDB) && migrations == old(migrations)
      ensures db != null ==>
        var g := AllMigrations(files, goMigrations, b);
        if g.GatherFailed? then
          err == Some(g.err) && migrations == old(migrations) && db.applied == old(db.applied)
        else if b.initErr.Some? then
          err == Some(Wrapped(InitFailure, b.initErr.value, "")) && migrations == old(migrations)
          && db.applied == old(db.applied)
        else
          var s := RollbackStep(old(db.applied), b.down);
          db.applied == s.applied
          && (s.err.None? ==> err.None? && migrations == Some(s.group))
          && (s.err.Some? ==> err == Some(Wrapped(RollbackFailure, s.err.value, "")) && migrations == old(migrations))
    {
      if db == null {
        return Some(ErrNoDB);
      }
      var g := GetMigrations(b);
      if g.GatherFailed? {
        return Some(g.err);
      }
      if b.initErr.Some? {
        return Some(Wrapped(InitFailure, b.initErr.value, ""));
      }
      var group, e := db.Rollback(b.down);
      if e.Some? {
        return Some(Wrapped(RollbackFailure, e.value, ""));
      }
      migrations := Some(group);
      err := None;
    }

    /** Report: the cached group of the last successful Execute or Rollback. */
    function Report(): (r: Option<MigrationGroup>)
      reads this
      ensures r == migrations
    {
      migrations
    }
  }
}
