/** `migrate_spool` and its loops over a spool object, each proved against the plan that
    SpoolMigration describes. */
module SpoolMigrator {
  import opened Options
  import opened StringOrder
  import opened JsonValue
  import opened Disks
  import opened Canonical
  import opened RecordMigration
  import opened FileSpools
  import opened SpoolMigration

  /** `_migrate_record(_read_record(path))`. */
  method ReadAndMigrate(lib: Library, spool: FileSpool, p: Path) returns (current: Migrated)
    ensures current == if p in spool.disk then MigrateFile(lib, spool.disk[p]) else Err(Unreadable)
  {
    if p !in spool.disk || !IsObject(spool.disk[p]) {
      return Err(Unreadable);
    }
    current := MigrateRecord(lib, spool.disk[p].value.fields);
  }

  /** Writes the record under its new place, then unlinks the old file. */
  method Move(spool: FileSpool, src: Path, dest: Path, record: Fields)
    modifies spool
    ensures spool.Performed(MovePrims(src, dest, record))
  {
    ghost var d := spool.disk;
    spool.Perform(Put(dest, Doc(Obj(record))));
    spool.Perform(Unlink(src));
    RunConcat(d, [Put(dest, Doc(Obj(record)))], [Unlink(src)]);
  }

  method RecoverOne(lib: Library, spool: FileSpool, name: string) returns (error: Option<MigrationError>)
    modifies spool
    ensures var stage := StagePlan(lib, Recovering, old(spool.disk), name);
      spool.Performed(stage.prims) && error == stage.error && (error.None? ==> stage.rewritten == 1)
  {
    hide MigrateRecord, Run, States;
    RunNothing(spool.disk);
    var path := Path(Inflight, name);
    var payload := ReadAndMigrate(lib, spool, path);
    if payload.Err? {
      assert spool.trace == old(spool.trace) + [];
      return Some(payload.error);
    }
    var record := payload.value;
    var delivery: Fields := map[];
    if Get(record, "delivery").Obj? {
      delivery := record["delivery"].fields;
    }
    delivery := delivery - {"worker_id", "claimed_at"};
    delivery := delivery["next_attempt_at" := Num(0.0)];
    record := record["delivery" := Obj(delivery)];
    assert record == Recovered(payload.value);
    Move(spool, path, Path(Ready, name), record);
    error := None;
  }

  method RecoverInflight(lib: Library, spool: FileSpool) returns (r: Result<nat, MigrationError>)
    modifies spool
    ensures var all := PhasePlan(lib, Recovering, old(spool.disk));
      spool.Performed(all.prims) && r == if all.error.None? then Ok(all.rewritten) else Err(all.error.value)
  {
    hide StagePlan, Run, States, Sorted, Names;
    ghost var d := spool.disk;
    RunNothing(d);
    var names := Sorted(Names(spool.disk, Inflight));
    var recovered := 0;
    ghost var done := Stage([], None, 0, 0);
    ghost var all := PhaseAll(lib, Recovering, d, names);
    for i := 0 to |names|
      invariant spool.Performed(done.prims) && done.error.None? && recovered == done.rewritten
      invariant all == ThenStage(done, PhaseAll(lib, Recovering, spool.disk, names[i..]))
    {
      ghost var before := spool.disk;
      var error := RecoverOne(lib, spool, names[i]);
      AdvanceStage(lib, Recovering, d, done, before, names[i..]);
      assert names[i..][1..] == names[i + 1..];
      if error.Some? {
        return Err(error.value);
      }
      recovered := recovered + 1;
      done := ThenStage(done, StagePlan(lib, Recovering, before, names[i]));
    }
    assert names[|names|..] == [] && done.prims + [] == done.prims;
    r := Ok(recovered);
  }

  /** One turn, seen from the whole loop. */
  lemma {:induction false} AdvanceStage(lib: Library, phase: Phase, d: Disk, done: Stage, before: Disk,
                                        names: seq<string>)
    requires names != [] && done.error.None? && before == Run(d, done.prims)
    ensures var step := StagePlan(lib, phase, before, names[0]);
      var all := ThenStage(done, PhaseAll(lib, phase, before, names));
      && Run(d, done.prims + step.prims) == Run(before, step.prims)
      && States(d, done.prims + step.prims) == States(d, done.prims) + States(before, step.prims)
      && (step.error.Some? ==> all == ThenStage(done, step))
      && (step.error.None? ==>
            all == ThenStage(ThenStage(done, step), PhaseAll(lib, phase, Run(before, step.prims), names[1..])))
  {
    hide StagePlan, Run, States;
    var step := StagePlan(lib, phase, before, names[0]);
    RunConcat(d, done.prims, step.prims);
    var rest := PhaseAll(lib, phase, Run(before, step.prims), names[1..]);
    assert done.prims + (step.prims + rest.prims) == done.prims + step.prims + rest.prims;
  }

  /** One turn of `_migrate_directory`. */
  method SettleOne(lib: Library, spool: FileSpool, phase: Phase, name: string)
    returns (migrated: nat, error: Option<MigrationError>)
    requires phase.SettlingPending? || phase.SettlingReady?
    modifies spool
    ensures var stage := StagePlan(lib, phase, old(spool.disk), name);
      spool.Performed(stage.prims) && error == stage.error && migrated == stage.rewritten
  {
    hide MigrateRecord, Run, States, PyEqual;
    RunNothing(spool.disk);
    migrated, error := 0, None;
    var path := Path(PhaseDir(phase), name);
    var current := ReadAndMigrate(lib, spool, path);
    if current.Err? {
      assert spool.trace == old(spool.trace) + [];
      return 0, Some(current.error);
    }
    if PyEqual(Obj(current.value), spool.disk[path].value) {
      assert spool.trace == old(spool.trace) + [];
      return;
    }
    spool.Perform(Put(path, Doc(Obj(current.value))));
    migrated := 1;
  }

  method MigrateDirectory(lib: Library, spool: FileSpool, phase: Phase) returns (r: Result<nat, MigrationError>)
    requires phase.SettlingPending? || phase.SettlingReady?
    modifies spool
    ensures var all := PhasePlan(lib, phase, old(spool.disk));
      spool.Performed(all.prims) && r == if all.error.None? then Ok(all.rewritten) else Err(all.error.value)
  {
    hide StagePlan, Run, States, Sorted, Names;
    ghost var d := spool.disk;
    RunNothing(d);
    var names := Sorted(Names(spool.disk, PhaseDir(phase)));
    var migrated := 0;
    ghost var done := Stage([], None, 0, 0);
    ghost var all := PhaseAll(lib, phase, d, names);
    for i := 0 to |names|
      invariant spool.Performed(done.prims) && done.error.None? && migrated == done.rewritten
      invariant all == ThenStage(done, PhaseAll(lib, phase, spool.disk, names[i..]))
    {
      ghost var before := spool.disk;
      var one, error := SettleOne(lib, spool, phase, names[i]);
      AdvanceStage(lib, phase, d, done, before, names[i..]);
      assert names[i..][1..] == names[i + 1..];
      if error.Some? {
        return Err(error.value);
      }
      migrated := migrated + one;
      done := ThenStage(done, StagePlan(lib, phase, before, names[i]));
    }
    assert names[|names|..] == [] && done.prims + [] == done.prims;
    r := Ok(migrated);
  }

  /** One turn of `_migrate_failed`. */
  method SettleFailedOne(lib: Library, spool: FileSpool, name: string)
    returns (migrated: nat, promoted: nat, error: Option<MigrationError>)
    modifies spool
    ensures var stage := StagePlan(lib, SettlingFailed, old(spool.disk), name);
      spool.Performed(stage.prims) && error == stage.error
      && migrated == stage.rewritten && promoted == stage.promoted
  {
    hide MigrateRecord, Run, States, PyEqual, MovePrims, Retryable;
    ghost var d := spool.disk;
    RunNothing(d);
    migrated, promoted, error := 0, 0, None;
    var path := Path(Failed, name);
    var read := ReadAndMigrate(lib, spool, path);
    if read.Err? {
      assert spool.trace == old(spool.trace) + [];
      return 0, 0, Some(read.error);
    }
    var current := read.value;
    ghost var rewrite := RewritePrims(lib, path, d[path]);
    if !PyEqual(Obj(current), spool.disk[path].value) {
      spool.Perform(Put(path, Doc(Obj(current))));
      migrated := 1;
    }
    assert spool.Performed(rewrite);
    if !Retryable(current) {
      return;
    }
    RetryableHasDelivery(current);
    var delivery := current["delivery"].fields - {"failure_reason", "worker_id", "claimed_at"};
    delivery := delivery["next_attempt_at" := Num(0.0)];
    current := current["delivery" := Obj(delivery)];
    assert current == Promoted(read.value);
    ghost var d1 := spool.disk;
    Move(spool, path, Path(Ready, name), current);
    RunConcat(d, rewrite, MovePrims(path, Path(Ready, name), current));
    promoted := 1;
  }

  lemma {:induction false} RetryableHasDelivery(o: Fields)
    requires Retryable(o)
    ensures HasDelivery(o) && "delivery" in o && o["delivery"].fields == DeliveryOf(o)
  {
  }

  method MigrateFailed(lib: Library, spool: FileSpool) returns (r: Result<(nat, nat), MigrationError>)
    modifies spool
    ensures var all := PhasePlan(lib, SettlingFailed, old(spool.disk));
      spool.Performed(all.prims)
      && r == if all.error.None? then Ok((all.rewritten, all.promoted)) else Err(all.error.value)
  {
    hide StagePlan, Run, States, Sorted, Names;
    ghost var d := spool.disk;
    RunNothing(d);
    var names := Sorted(Names(spool.disk, Failed));
    var migrated, promoted := 0, 0;
    ghost var done := Stage([], None, 0, 0);
    ghost var all := PhaseAll(lib, SettlingFailed, d, names);
    for i := 0 to |names|
      invariant spool.Performed(done.prims) && done.error.None?
      invariant migrated == done.rewritten && promoted == done.promoted
      invariant all == ThenStage(done, PhaseAll(lib, SettlingFailed, spool.disk, names[i..]))
    {
      ghost var before := spool.disk;
      var one, two, error := SettleFailedOne(lib, spool, names[i]);
      AdvanceStage(lib, SettlingFailed, d, done, before, names[i..]);
      assert names[i..][1..] == names[i + 1..];
      if error.Some? {
        return Err(error.value);
      }
      migrated, promoted := migrated + one, promoted + two;
      done := ThenStage(done, StagePlan(lib, SettlingFailed, before, names[i]));
    }
    assert names[|names|..] == [] && done.prims + [] == done.prims;
    r := Ok((migrated, promoted));
  }

  /** Recover and rewrite everything before delivery starts. */
  method MigrateSpool(lib: Library, spool: FileSpool) returns (r: Result<Counts, MigrationError>)
    modifies spool
    ensures var m := MigratePlan(lib, old(spool.disk)); spool.Performed(m.prims) && r == m.result
    ensures r.Ok? <==> Good(lib, old(spool.disk))
    ensures r.Ok? ==> IsFinal(lib, old(spool.disk), spool.disk) && ExactCounts(lib, old(spool.disk), r.value)
  {
    hide PhasePlan, Run, States, Good, IsFinal, Finished, SameAlong, ExactCounts;
    ghost var d := spool.disk;
    MigrationWorks(lib, d);
    if MigratePlan(lib, d).result.Ok? {
      CountsAreExact(lib, d);
    }
    ghost var a := PhasePlan(lib, Recovering, d);
    var recovered := RecoverInflight(lib, spool);
    if recovered.Err? {
      return Err(recovered.error);
    }
    ghost var b := PhasePlan(lib, SettlingPending, spool.disk);
    var pending := MigrateDirectory(lib, spool, SettlingPending);
    RunConcat(d, a.prims, b.prims);
    if pending.Err? {
      return Err(pending.error);
    }
    ghost var c := PhasePlan(lib, SettlingReady, spool.disk);
    var ready := MigrateDirectory(lib, spool, SettlingReady);
    RunConcat(d, a.prims + b.prims, c.prims);
    if ready.Err? {
      return Err(ready.error);
    }
    ghost var e := PhasePlan(lib, SettlingFailed, spool.disk);
    var failed := MigrateFailed(lib, spool);
    RunConcat(d, a.prims + b.prims + c.prims, e.prims);
    if failed.Err? {
      return Err(failed.error);
    }
    r := Ok(Counts(recovered.value, pending.value, ready.value, failed.value.0, failed.value.1));
  }
}
