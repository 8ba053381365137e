/** Start-up migration of the whole spool: recover inflight files, rewrite pending, ready and
    failed files, promote retryable failures. The result is described file by file, and every
    primitive of a run is shown to leave that description, and the outcome, as they were. */
module SpoolMigration {
  import opened Options
  import opened StringOrder
  import opened JsonValue
  import opened Disks
  import opened Canonical
  import opened RecordMigration
  import opened FileSpools

  function MigrateFile(lib: Library, f: File): Migrated {
    if IsObject(f) then MigrateRecord(lib, f.value.fields) else Err(Unreadable)
  }

  predicate Migratable(lib: Library, f: File) {
    MigrateFile(lib, f).Ok?
  }

  /** An inflight record made ready again. */
  function Recovered(o: Fields): Fields {
    o["delivery" := Obj((DeliveryOf(o) - {"worker_id", "claimed_at"})["next_attempt_at" := Num(0.0)])]
  }

  /** A failed record made ready again. */
  function Promoted(o: Fields): Fields {
    o["delivery" := Obj((DeliveryOf(o) - {"failure_reason", "worker_id", "claimed_at"})["next_attempt_at" := Num(0.0)])]
  }

  predicate Retryable(o: Fields) {
    && Get(o, "request").Obj? && HasDelivery(o)
    && (Get(DeliveryOf(o), "retryable") == Bool(true) || Get(o, "retryable") == Bool(true))
  }

  /** `current != original` in Python's sense: a file whose migration only replaces True by 1
      is not rewritten. */
  predicate Rewritten(lib: Library, f: File) {
    Migratable(lib, f) && !PyEqual(Obj(MigrateFile(lib, f).value), f.value)
  }

  // -------------------------------------------------------------------------------- plans

  datatype Phase = Recovering | SettlingPending | SettlingReady | SettlingFailed

  function PhaseDir(phase: Phase): Dir {
    match phase
    case Recovering => Inflight
    case SettlingPending => Pending
    case SettlingReady => Ready
    case SettlingFailed => Failed
  }

  /** Primitives performed, and the error that ended it or the number of files rewritten and
      promoted. */
  datatype Stage = Stage(prims: seq<Prim>, error: Option<MigrationError>, rewritten: nat, promoted: nat)

  function RewritePrims(lib: Library, p: Path, f: File): seq<Prim>
    requires Migratable(lib, f)
  {
    if Rewritten(lib, f) then [Put(p, Doc(Obj(MigrateFile(lib, f).value)))] else []
  }

  function MovePrims(src: Path, dest: Path, o: Fields): seq<Prim> {
    [Put(dest, Doc(Obj(o))), Unlink(src)]
  }

  /** One turn of a phase's loop. */
  function StagePlan(lib: Library, phase: Phase, d: Disk, name: string): Stage {
    var p := Path(PhaseDir(phase), name);
    if p !in d then Stage([], Some(Unreadable), 0, 0)
    else
      var current := MigrateFile(lib, d[p]);
      if current.Err? then Stage([], Some(current.error), 0, 0)
      else if phase.Recovering? then Stage(MovePrims(p, Path(Ready, name), Recovered(current.value)), None, 1, 0)
      else
        var rewrite := RewritePrims(lib, p, d[p]);
        if phase.SettlingFailed? && Retryable(current.value) then
          Stage(rewrite + MovePrims(p, Path(Ready, name), Promoted(current.value)), None, |rewrite|, 1)
        else Stage(rewrite, None, |rewrite|, 0)
  }

  function ThenStage(first: Stage, rest: Stage): Stage {
    Stage(first.prims + rest.prims, rest.error, first.rewritten + rest.rewritten, first.promoted + rest.promoted)
  }

  function PhaseAll(lib: Library, phase: Phase, d: Disk, names: seq<string>): Stage
    decreases |names|
  {
    if names == [] then Stage([], None, 0, 0)
    else
      var first := StagePlan(lib, phase, d, names[0]);
      if first.error.Some? then first
      else ThenStage(first, PhaseAll(lib, phase, Run(d, first.prims), names[1..]))
  }

  function PhasePlan(lib: Library, phase: Phase, d: Disk): Stage {
    PhaseAll(lib, phase, d, Sorted(Names(d, PhaseDir(phase))))
  }

  datatype Counts = Counts(recovered: nat, pending: nat, ready: nat, failed: nat, promoted: nat)

  datatype Migration = Migration(prims: seq<Prim>, result: Result<Counts, MigrationError>)

  /** `migrate_spool` on values. */
  function MigratePlan(lib: Library, d: Disk): Migration {
    var a := PhasePlan(lib, Recovering, d);
    if a.error.Some? then Migration(a.prims, Err(a.error.value))
    else
      var d1 := Run(d, a.prims);
      var b := PhasePlan(lib, SettlingPending, d1);
      if b.error.Some? then Migration(a.prims + b.prims, Err(b.error.value))
      else
        var d2 := Run(d1, b.prims);
        var c := PhasePlan(lib, SettlingReady, d2);
        if c.error.Some? then Migration(a.prims + b.prims + c.prims, Err(c.error.value))
        else
          var e := PhasePlan(lib, SettlingFailed, Run(d2, c.prims));
          Migration(a.prims + b.prims + c.prims + e.prims,
                    if e.error.Some? then Err(e.error.value)
                    else Ok(Counts(a.rewritten, b.rewritten, c.rewritten, e.rewritten, e.promoted)))
  }

  // ------------------------------------------------------------------ the result, declared

  /** The file as a settling phase leaves it. */
  function Settled(lib: Library, f: File): File {
    if Rewritten(lib, f) then Doc(Obj(MigrateFile(lib, f).value)) else f
  }

  predicate Promotes(lib: Library, f: File) {
    Migratable(lib, f) && Retryable(MigrateFile(lib, f).value)
  }

  function At(d: Disk, p: Path): Option<File> {
    if p in d then Some(d[p]) else None
  }

  /** What a successful migration of `d` leaves at `p`. */
  function FinalAt(lib: Library, d: Disk, p: Path): Option<File> {
    match p.dir
    case Inflight => None
    case Pending => if p in d then Some(Settled(lib, d[p])) else None
    case Failed => if p in d && !Promotes(lib, d[p]) then Some(Settled(lib, d[p])) else None
    case Ready =>
      var failed, inflight := Path(Failed, p.name), Path(Inflight, p.name);
      if failed in d && Promotes(lib, d[failed]) then Some(Doc(Obj(Promoted(MigrateFile(lib, d[failed]).value))))
      else if inflight in d && Migratable(lib, d[inflight]) then
        Some(Doc(Obj(Recovered(MigrateFile(lib, d[inflight]).value))))
      else if p in d then Some(Settled(lib, d[p])) else None
  }

  ghost predicate IsFinal(lib: Library, d: Disk, after: Disk) {
    forall p {:trigger At(after, p)} :: At(after, p) == FinalAt(lib, d, p)
  }

  /** Every file migration will read can be migrated; a ready file that an inflight file of
      the same name replaces is not read. */
  predicate GoodAt(lib: Library, d: Disk, p: Path) {
    p in d ==> Migratable(lib, d[p]) || (p.dir == Ready && Path(Inflight, p.name) in d)
  }

  ghost predicate Good(lib: Library, d: Disk) {
    forall p {:trigger GoodAt(lib, d, p)} :: GoodAt(lib, d, p)
  }

  /** A request key is somewhere. */
  predicate Present(d: Disk, name: string) {
    Path(Ready, name) in d || Path(Inflight, name) in d || Path(Failed, name) in d
  }

  predicate SameAt(lib: Library, d: Disk, d': Disk, p: Path) {
    && FinalAt(lib, d', p) == FinalAt(lib, d, p)
    && (GoodAt(lib, d, p) <==> GoodAt(lib, d', p))
    && (Present(d, p.name) <==> Present(d', p.name))
    && (Path(Pending, p.name) in d <==> Path(Pending, p.name) in d')
  }

  /** The two disks have the same outcome ahead of them and hold the same keys. */
  ghost predicate Same(lib: Library, d: Disk, d': Disk) {
    forall p {:trigger SameAt(lib, d, d', p)} :: SameAt(lib, d, d', p)
  }

  lemma {:induction false} SameRefl(lib: Library, d: Disk)
    ensures Same(lib, d, d)
  {
  }

  lemma {:induction false} SameTransitive(lib: Library, a: Disk, b: Disk, c: Disk)
    requires Same(lib, a, b) && Same(lib, b, c)
    ensures Same(lib, a, c)
  {
    hide FinalAt, GoodAt;
    forall p ensures SameAt(lib, a, c, p) {
      assert SameAt(lib, a, b, p) && SameAt(lib, b, c, p);
    }
  }

  // ------------------------------------------------------------------- one turn of a loop

  predicate Stable(lib: Library, f: File) {
    Migratable(lib, f) && !Rewritten(lib, f)
  }

  lemma {:induction false} MigratedIsStable(lib: Library, f: File)
    requires Migratable(lib, f)
    ensures var o := MigrateFile(lib, f).value;
      CurrentRecord(lib, o) && Stable(lib, Doc(Obj(o))) && MigrateFile(lib, Doc(Obj(o))) == Ok(o)
  {
    hide MigrateRecord, CurrentRecord;
    RecordBecomesCurrent(lib, f.value.fields);
    CurrentIsStable(lib, MigrateFile(lib, f).value);
  }

  lemma {:induction false} CurrentIsStable(lib: Library, o: Fields)
    requires CurrentRecord(lib, o)
    ensures Stable(lib, Doc(Obj(o))) && MigrateFile(lib, Doc(Obj(o))) == Ok(o)
  {
    hide MigrateRecord, CurrentRecord;
    CurrentRecordStays(lib, o);
    PyEqualReflexive(Obj(o));
  }

  /** A record moved back to ready needs no further rewriting. */
  lemma {:induction false} MovedIsStable(lib: Library, f: File)
    requires Migratable(lib, f)
    ensures var o := MigrateFile(lib, f).value;
      Stable(lib, Doc(Obj(Recovered(o)))) && Stable(lib, Doc(Obj(Promoted(o))))
  {
    hide MigrateRecord, CurrentRecord, Stable;
    var o := MigrateFile(lib, f).value;
    MigratedIsStable(lib, f);
    DeliveryIsIgnored(lib, o, Recovered(o)["delivery"]);
    DeliveryIsIgnored(lib, o, Promoted(o)["delivery"]);
    CurrentIsStable(lib, Recovered(o));
    CurrentIsStable(lib, Promoted(o));
  }

  predicate StableIn(lib: Library, d: Disk, p: Path) {
    p in d ==> Stable(lib, d[p])
  }

  ghost predicate AllStable(lib: Library, d: Disk, dir: Dir) {
    forall p: Path {:trigger StableIn(lib, d, p)} :: p.dir == dir ==> StableIn(lib, d, p)
  }

  ghost predicate NoInflight(d: Disk) {
    forall p :: p in d ==> p.dir != Inflight
  }

  /** What the phases before this one have established. */
  ghost predicate Reached(lib: Library, phase: Phase, d: Disk) {
    && (!phase.Recovering? ==> NoInflight(d))
    && (phase.SettlingReady? || phase.SettlingFailed? ==> AllStable(lib, d, Pending))
    && (phase.SettlingFailed? ==> AllStable(lib, d, Ready))
  }

  lemma {:induction false} CopySame(lib: Library, d: Disk, name: string)
    requires Path(Inflight, name) in d && Migratable(lib, d[Path(Inflight, name)])
    ensures var o := MigrateFile(lib, d[Path(Inflight, name)]).value;
      Same(lib, d, d[Path(Ready, name) := Doc(Obj(Recovered(o)))])
  {
    hide MigrateFile, Promotes, Settled, Recovered, Promoted;
    var o := MigrateFile(lib, d[Path(Inflight, name)]).value;
    var d' := d[Path(Ready, name) := Doc(Obj(Recovered(o)))];
    forall p ensures SameAt(lib, d, d', p) {
    }
  }

  lemma {:induction false} RecoverSame(lib: Library, d: Disk, name: string)
    requires Path(Inflight, name) in d && Migratable(lib, d[Path(Inflight, name)])
    ensures var o := MigrateFile(lib, d[Path(Inflight, name)]).value;
      Same(lib, d, d[Path(Ready, name) := Doc(Obj(Recovered(o)))] - {Path(Inflight, name)})
  {
    hide MigrateFile, Promotes, Recovered, Promoted, Rewritten;
    var o := MigrateFile(lib, d[Path(Inflight, name)]).value;
    var f := Doc(Obj(Recovered(o)));
    MovedIsStable(lib, d[Path(Inflight, name)]);
    assert Settled(lib, f) == f && Migratable(lib, f);
    var d' := d[Path(Ready, name) := f] - {Path(Inflight, name)};
    forall p ensures SameAt(lib, d, d', p) {
    }
  }

  lemma {:induction false} RewriteSame(lib: Library, d: Disk, p: Path)
    requires p in d && Migratable(lib, d[p]) && p.dir != Inflight && NoInflight(d)
    ensures Same(lib, d, d[p := Doc(Obj(MigrateFile(lib, d[p]).value))]) || !Rewritten(lib, d[p])
  {
    hide MigrateFile, Retryable, Recovered, Promoted, Rewritten;
    var o := MigrateFile(lib, d[p]).value;
    var f := Doc(Obj(o));
    MigratedIsStable(lib, d[p]);
    assert Settled(lib, f) == f && Migratable(lib, f) && Promotes(lib, f) == Promotes(lib, d[p]);
    var d' := d[p := f];
    if Rewritten(lib, d[p]) {
      forall q ensures SameAt(lib, d, d', q) {
      }
    }
  }

  lemma {:induction false} PromoteCopySame(lib: Library, d: Disk, name: string)
    requires NoInflight(d) && Path(Failed, name) in d && Promotes(lib, d[Path(Failed, name)])
    requires AllStable(lib, d, Ready)
    ensures var o := MigrateFile(lib, d[Path(Failed, name)]).value;
      Same(lib, d, d[Path(Ready, name) := Doc(Obj(Promoted(o)))])
  {
    hide MigrateFile, Retryable, Recovered, Promoted, Rewritten, Settled;
    var o := MigrateFile(lib, d[Path(Failed, name)]).value;
    var d' := d[Path(Ready, name) := Doc(Obj(Promoted(o)))];
    MovedIsStable(lib, d[Path(Failed, name)]);
    assert StableIn(lib, d, Path(Ready, name));
    forall p ensures SameAt(lib, d, d', p) {
    }
  }

  lemma {:induction false} PromoteSame(lib: Library, d: Disk, name: string)
    requires NoInflight(d) && Path(Failed, name) in d && Promotes(lib, d[Path(Failed, name)])
    requires AllStable(lib, d, Ready)
    ensures var o := MigrateFile(lib, d[Path(Failed, name)]).value;
      Same(lib, d, d[Path(Ready, name) := Doc(Obj(Promoted(o)))] - {Path(Failed, name)})
  {
    hide MigrateFile, Retryable, Recovered, Promoted, Rewritten;
    var o := MigrateFile(lib, d[Path(Failed, name)]).value;
    var f := Doc(Obj(Promoted(o)));
    var d' := d[Path(Ready, name) := f] - {Path(Failed, name)};
    MovedIsStable(lib, d[Path(Failed, name)]);
    assert StableIn(lib, d, Path(Ready, name));
    assert Settled(lib, f) == f && Migratable(lib, f);
    forall p ensures SameAt(lib, d, d', p) {
    }
  }

  /** Along a list of primitives the outcome ahead never changes. */
  ghost predicate SameAlong(lib: Library, d: Disk, prims: seq<Prim>) {
    Same(lib, d, Run(d, prims)) && forall i :: 0 <= i < |prims| ==> Same(lib, d, States(d, prims)[i])
  }

  lemma {:induction false} SameAlongConcat(lib: Library, d: Disk, a: seq<Prim>, b: seq<Prim>)
    requires SameAlong(lib, d, a) && SameAlong(lib, Run(d, a), b)
    ensures SameAlong(lib, d, a + b)
  {
    hide Same, Run, States;
    RunConcat(d, a, b);
    var d1 := Run(d, a);
    SameTransitive(lib, d, d1, Run(d1, b));
    forall i | 0 <= i < |a + b| ensures Same(lib, d, States(d, a + b)[i]) {
      if i >= |a| {
        SameTransitive(lib, d, d1, States(d1, b)[i - |a|]);
      }
    }
  }

  lemma {:induction false} NothingSame(lib: Library, d: Disk)
    ensures SameAlong(lib, d, [])
  {
    hide Same;
    RunNothing(d);
    SameRefl(lib, d);
  }

  lemma {:induction false} MoveSame(lib: Library, d: Disk, src: Path, dest: Path, o: Fields)
    requires Same(lib, d, d[dest := Doc(Obj(o))]) && Same(lib, d, d[dest := Doc(Obj(o))] - {src})
    ensures SameAlong(lib, d, MovePrims(src, dest, o))
    ensures Run(d, MovePrims(src, dest, o)) == d[dest := Doc(Obj(o))] - {src}
  {
    hide Same, Run, States;
    MoveStates(d, src, dest, Doc(Obj(o)));
  }

  lemma {:induction false} RewritePrimsSame(lib: Library, d: Disk, p: Path)
    requires p in d && Migratable(lib, d[p]) && p.dir != Inflight && NoInflight(d)
    ensures SameAlong(lib, d, RewritePrims(lib, p, d[p]))
    ensures Run(d, RewritePrims(lib, p, d[p])) == d[p := Settled(lib, d[p])]
  {
    hide Same, Run, States, MigrateFile, Rewritten;
    RewriteSame(lib, d, p);
    NothingSame(lib, d);
    RunNothing(d);
    RunOne(d, Put(p, Doc(Obj(MigrateFile(lib, d[p]).value))));
    assert d[p := d[p]] == d;
  }

  /** `p` needs nothing more from this phase. */
  predicate Handled(lib: Library, phase: Phase, d: Disk, p: Path) {
    p in d ==> !phase.Recovering? && Stable(lib, d[p]) && (phase.SettlingFailed? ==> !Promotes(lib, d[p]))
  }

  lemma {:induction false} SettledIsStable(lib: Library, f: File)
    requires Migratable(lib, f)
    ensures Stable(lib, Settled(lib, f)) && Promotes(lib, Settled(lib, f)) == Promotes(lib, f)
    ensures MigrateFile(lib, Settled(lib, f)) == MigrateFile(lib, f)
  {
    hide MigrateFile, Rewritten, Retryable;
    MigratedIsStable(lib, f);
  }

  /** What one turn does to the disk when it succeeds. */
  predicate Turned(lib: Library, phase: Phase, d: Disk, name: string, d': Disk)
    requires Path(PhaseDir(phase), name) in d && Migratable(lib, d[Path(PhaseDir(phase), name)])
  {
    var p := Path(PhaseDir(phase), name);
    var o := MigrateFile(lib, d[p]).value;
    if phase.Recovering? then d' == d[Path(Ready, name) := Doc(Obj(Recovered(o)))] - {p}
    else if phase.SettlingFailed? && Retryable(o) then d' == d[Path(Ready, name) := Doc(Obj(Promoted(o)))] - {p}
    else d' == d[p := Settled(lib, d[p])]
  }

  lemma {:induction false} StageTurns(lib: Library, phase: Phase, d: Disk, name: string)
    requires Reached(lib, phase, d) && Path(PhaseDir(phase), name) in d
    requires Migratable(lib, d[Path(PhaseDir(phase), name)])
    ensures var stage := StagePlan(lib, phase, d, name);
      stage.error.None? && SameAlong(lib, d, stage.prims) && Turned(lib, phase, d, name, Run(d, stage.prims))
  {
    hide Same, SameAlong, Run, States, MigrateFile, Rewritten, Retryable, Recovered, Promoted, RewritePrims, MovePrims,
         AllStable;
    var p := Path(PhaseDir(phase), name);
    var o := MigrateFile(lib, d[p]).value;
    var ready := Path(Ready, name);
    if phase.Recovering? {
      CopySame(lib, d, name);
      RecoverSame(lib, d, name);
      MoveSame(lib, d, p, ready, Recovered(o));
    } else {
      RewritePrimsSame(lib, d, p);
      if phase.SettlingFailed? && Retryable(o) {
        PromoteTurns(lib, d, name);
      }
    }
  }

  lemma {:induction false} PromoteTurns(lib: Library, d: Disk, name: string)
    requires Reached(lib, SettlingFailed, d) && Path(Failed, name) in d && Promotes(lib, d[Path(Failed, name)])
    ensures var p := Path(Failed, name);
      var o := MigrateFile(lib, d[p]).value;
      var prims := RewritePrims(lib, p, d[p]) + MovePrims(p, Path(Ready, name), Promoted(o));
      SameAlong(lib, d, prims) && Run(d, prims) == d[Path(Ready, name) := Doc(Obj(Promoted(o)))] - {p}
  {
    hide Same, SameAlong, Run, States, MigrateFile, Rewritten, Retryable, Promoted, RewritePrims, MovePrims, Stable;
    var p, ready := Path(Failed, name), Path(Ready, name);
    var o := MigrateFile(lib, d[p]).value;
    var d1 := d[p := Settled(lib, d[p])];
    RewritePrimsSame(lib, d, p);
    SettledIsStable(lib, d[p]);
    forall q: Path | q.dir == Ready ensures StableIn(lib, d1, q) {
      assert StableIn(lib, d, q);
    }
    PromoteCopySame(lib, d1, name);
    PromoteSame(lib, d1, name);
    MoveSame(lib, d1, p, ready, Promoted(o));
    SameAlongConcat(lib, d, RewritePrims(lib, p, d[p]), MovePrims(p, ready, Promoted(o)));
    RunConcat(d, RewritePrims(lib, p, d[p]), MovePrims(p, ready, Promoted(o)));
    assert d1[ready := Doc(Obj(Promoted(o)))] - {p} == d[ready := Doc(Obj(Promoted(o)))] - {p};
  }

  /** A turn keeps what earlier phases established, handles its own file, and leaves the other
      files of its directory alone. */
  lemma {:induction false} TurnProgress(lib: Library, phase: Phase, d: Disk, name: string, d': Disk)
    requires Reached(lib, phase, d) && Path(PhaseDir(phase), name) in d
    requires Migratable(lib, d[Path(PhaseDir(phase), name)])
    requires Turned(lib, phase, d, name, d')
    ensures Reached(lib, phase, d') && Handled(lib, phase, d', Path(PhaseDir(phase), name))
    ensures forall q: Path :: q.dir == PhaseDir(phase) && q.name != name ==> At(d', q) == At(d, q)
  {
    hide MigrateFile, Rewritten, Retryable, Recovered, Promoted, Stable, Settled;
    var p := Path(PhaseDir(phase), name);
    SettledIsStable(lib, d[p]);
    MovedIsStable(lib, d[p]);
    forall q: Path | (phase.SettlingReady? || phase.SettlingFailed?) && q.dir == Pending ensures StableIn(lib, d', q) {
      assert StableIn(lib, d, q);
    }
    forall q: Path | phase.SettlingFailed? && q.dir == Ready ensures StableIn(lib, d', q) {
      assert StableIn(lib, d, q);
    }
  }

  // ------------------------------------------------------------------------ whole phases

  predicate Distinct(names: seq<string>) {
    forall i, j :: 0 <= i < j < |names| ==> names[i] != names[j]
  }

  /** `names` are files of the phase's directory, and all that is left to do there. */
  ghost predicate Remaining(lib: Library, phase: Phase, d: Disk, names: seq<string>) {
    && Distinct(names)
    && (forall i :: 0 <= i < |names| ==> Path(PhaseDir(phase), names[i]) in d)
    && (forall q: Path {:trigger Handled(lib, phase, d, q)} ::
          q.dir == PhaseDir(phase) ==> q.name in names || Handled(lib, phase, d, q))
  }

  lemma {:induction false} RemainingShrinks(lib: Library, phase: Phase, d: Disk, d': Disk, names: seq<string>)
    requires names != [] && Remaining(lib, phase, d, names) && Handled(lib, phase, d', Path(PhaseDir(phase), names[0]))
    requires forall q: Path :: q.dir == PhaseDir(phase) && q.name != names[0] ==> At(d', q) == At(d, q)
    ensures Remaining(lib, phase, d', names[1..])
  {
    hide Stable, Promotes;
    var rest := names[1..];
    forall i | 0 <= i < |rest| ensures Path(PhaseDir(phase), rest[i]) in d' {
      assert rest[i] == names[i + 1];
      assert Path(PhaseDir(phase), rest[i]) in d;
      assert At(d', Path(PhaseDir(phase), rest[i])) == At(d, Path(PhaseDir(phase), rest[i]));
    }
    forall q: Path | q.dir == PhaseDir(phase) && q.name !in rest ensures Handled(lib, phase, d', q) {
      if q.name == names[0] {
        assert q == Path(PhaseDir(phase), names[0]);
      } else {
        assert names == [names[0]] + rest && At(d', q) == At(d, q);
        assert Handled(lib, phase, d, q);
      }
    }
  }

  lemma {:induction false} BadFileIsNotGood(lib: Library, phase: Phase, d: Disk, name: string)
    requires Reached(lib, phase, d) && Path(PhaseDir(phase), name) in d
    requires !Migratable(lib, d[Path(PhaseDir(phase), name)])
    ensures !Good(lib, d)
  {
    hide Migratable;
    assert !GoodAt(lib, d, Path(PhaseDir(phase), name));
  }

  lemma {:induction false} SameGood(lib: Library, d: Disk, d': Disk)
    requires Same(lib, d, d')
    ensures Good(lib, d) <==> Good(lib, d')
  {
    hide GoodAt, FinalAt, Present;
    forall p ensures GoodAt(lib, d, p) <==> GoodAt(lib, d', p) {
      assert SameAt(lib, d, d', p);
    }
  }

  lemma {:induction false} PhaseWorks(lib: Library, phase: Phase, d: Disk, names: seq<string>)
    requires Reached(lib, phase, d) && Remaining(lib, phase, d, names)
    ensures var all := PhaseAll(lib, phase, d, names);
      && SameAlong(lib, d, all.prims) && Reached(lib, phase, Run(d, all.prims))
      && (all.error.None? ==> Remaining(lib, phase, Run(d, all.prims), []))
      && (all.error.Some? ==> !Good(lib, d))
    decreases |names|
  {
    hide Same, SameAlong, Run, States, Reached, Remaining, Handled, StagePlan, Migratable, Turned, Good, Distinct;
    NothingSame(lib, d);
    RunNothing(d);
    if names != [] {
      var p := Path(PhaseDir(phase), names[0]);
      var first := StagePlan(lib, phase, d, names[0]);
      RemainingHead(lib, phase, d, names);
      if Migratable(lib, d[p]) {
        var d1 := Run(d, first.prims);
        var rest := PhaseAll(lib, phase, d1, names[1..]);
        StageTurns(lib, phase, d, names[0]);
        TurnProgress(lib, phase, d, names[0], d1);
        RemainingShrinks(lib, phase, d, d1, names);
        PhaseWorks(lib, phase, d1, names[1..]);
        SameAlongConcat(lib, d, first.prims, rest.prims);
        RunConcat(d, first.prims, rest.prims);
        AlongIsSame(lib, d, first.prims);
        SameGood(lib, d, d1);
      } else {
        BadFileIsNotGood(lib, phase, d, names[0]);
        StageFails(lib, phase, d, names[0]);
      }
    }
  }

  lemma {:induction false} AlongIsSame(lib: Library, d: Disk, prims: seq<Prim>)
    requires SameAlong(lib, d, prims)
    ensures Same(lib, d, Run(d, prims))
  {
  }

  lemma {:induction false} RemainingHead(lib: Library, phase: Phase, d: Disk, names: seq<string>)
    requires Remaining(lib, phase, d, names) && names != []
    ensures Path(PhaseDir(phase), names[0]) in d
  {
  }

  lemma {:induction false} StageFails(lib: Library, phase: Phase, d: Disk, name: string)
    requires Path(PhaseDir(phase), name) in d && !Migratable(lib, d[Path(PhaseDir(phase), name)])
    ensures var stage := StagePlan(lib, phase, d, name); stage.error.Some? && stage.prims == []
  {
    hide MigrateFile;
  }

  lemma {:induction false} PhaseStarts(lib: Library, phase: Phase, d: Disk)
    ensures Remaining(lib, phase, d, Sorted(Names(d, PhaseDir(phase))))
  {
    hide Stable, Promotes;
    var names := Sorted(Names(d, PhaseDir(phase)));
    forall i | 0 <= i < |names| ensures Path(PhaseDir(phase), names[i]) in d {
      assert names[i] in names;
      var p :| p in d && p.dir == PhaseDir(phase) && p.name == names[i];
      assert p == Path(PhaseDir(phase), names[i]);
    }
    forall q: Path | q.dir == PhaseDir(phase) && q.name !in names ensures Handled(lib, phase, d, q) {
      assert q !in d;
    }
  }

  /** One whole phase. */
  lemma {:induction false} PhaseKeeps(lib: Library, phase: Phase, d: Disk)
    requires Reached(lib, phase, d)
    ensures var all := PhasePlan(lib, phase, d);
      && SameAlong(lib, d, all.prims) && Reached(lib, phase, Run(d, all.prims))
      && (all.error.None? ==> Remaining(lib, phase, Run(d, all.prims), []))
      && (all.error.Some? ==> !Good(lib, d))
  {
    hide Same, SameAlong, Run, States, Reached, Remaining, Good, PhaseAll, Sorted;
    PhaseStarts(lib, phase, d);
    PhaseWorks(lib, phase, d, Sorted(Names(d, PhaseDir(phase))));
  }

  lemma {:induction false} NextPhase(lib: Library, phase: Phase, d: Disk)
    requires Reached(lib, phase, d) && Remaining(lib, phase, d, [])
    ensures phase.Recovering? ==> Reached(lib, SettlingPending, d)
    ensures phase.SettlingPending? ==> Reached(lib, SettlingReady, d)
    ensures phase.SettlingReady? ==> Reached(lib, SettlingFailed, d)
    ensures phase.SettlingFailed? ==> Finished(lib, d)
  {
    hide Stable, Promotes;
    forall q: Path | q.dir == PhaseDir(phase) ensures Handled(lib, phase, d, q) {
    }
    forall q: Path | q.dir == PhaseDir(phase) ensures !phase.Recovering? ==> StableIn(lib, d, q) {
      assert Handled(lib, phase, d, q);
    }
    forall q: Path ensures phase.Recovering? && q in d ==> q.dir != Inflight {
      assert q.dir == PhaseDir(phase) ==> Handled(lib, phase, d, q);
    }
  }

  /** Nothing is left for migration to do. */
  ghost predicate Finished(lib: Library, d: Disk) {
    && NoInflight(d) && AllStable(lib, d, Pending) && AllStable(lib, d, Ready)
    && (forall q: Path {:trigger Handled(lib, SettlingFailed, d, q)} ::
          q.dir == Failed ==> Handled(lib, SettlingFailed, d, q))
  }

  lemma {:induction false} FinishedIsFinal(lib: Library, d: Disk, after: Disk)
    requires Finished(lib, after) && Same(lib, d, after)
    ensures IsFinal(lib, d, after) && Good(lib, after)
  {
    hide Retryable, MigrateFile;
    forall p ensures At(after, p) == FinalAt(lib, d, p) && GoodAt(lib, after, p) {
      assert SameAt(lib, d, after, p);
      assert StableIn(lib, after, p) || p.dir == Failed || p.dir == Inflight;
      assert p.dir == Failed ==> Handled(lib, SettlingFailed, after, p);
      assert p.dir == Ready ==> Handled(lib, SettlingFailed, after, Path(Failed, p.name));
    }
  }

  // -------------------------------------------------------------------------- whole runs

  /** One phase after others: what holds along the run so far carries over. */
  lemma {:induction false} PhaseAfter(lib: Library, phase: Phase, d: Disk, done: seq<Prim>)
    requires SameAlong(lib, d, done) && Reached(lib, phase, Run(d, done))
    ensures var a := PhasePlan(lib, phase, Run(d, done));
      && SameAlong(lib, d, done + a.prims) && Run(d, done + a.prims) == Run(Run(d, done), a.prims)
      && Reached(lib, phase, Run(d, done + a.prims))
      && (a.error.None? ==> Remaining(lib, phase, Run(d, done + a.prims), []))
      && (a.error.Some? ==> !Good(lib, d))
  {
    hide Same, SameAlong, Run, States, Reached, Remaining, Good, PhasePlan;
    var d1 := Run(d, done);
    PhaseKeeps(lib, phase, d1);
    SameAlongConcat(lib, d, done, PhasePlan(lib, phase, d1).prims);
    RunConcat(d, done, PhasePlan(lib, phase, d1).prims);
    AlongIsSame(lib, d, done);
    SameGood(lib, d, d1);
  }

  /** Migration succeeds exactly when every file it reads can be migrated; then the spool is
      the declared result; and at no point, finished or not, has the outcome changed. */
  lemma {:induction false} MigrationWorks(lib: Library, d: Disk)
    ensures var m := MigratePlan(lib, d);
      && SameAlong(lib, d, m.prims)
      && (m.result.Ok? <==> Good(lib, d))
      && (m.result.Ok? ==> IsFinal(lib, d, Run(d, m.prims)) && Finished(lib, Run(d, m.prims)))
  {
    hide Same, SameAlong, Run, States, Reached, Remaining, Good, PhasePlan, IsFinal, Finished;
    NothingSame(lib, d);
    RunNothing(d);
    StartReached(lib, d);
    var m := MigratePlan(lib, d);
    var a := PhasePlan(lib, Recovering, d);
    PhaseAfter(lib, Recovering, d, []);
    assert [] + a.prims == a.prims;
    if a.error.None? {
      var d1 := Run(d, a.prims);
      var b := PhasePlan(lib, SettlingPending, d1);
      NextPhase(lib, Recovering, d1);
      PhaseAfter(lib, SettlingPending, d, a.prims);
      if b.error.None? {
        var ab := a.prims + b.prims;
        var d2 := Run(d, ab);
        var c := PhasePlan(lib, SettlingReady, d2);
        NextPhase(lib, SettlingPending, d2);
        PhaseAfter(lib, SettlingReady, d, ab);
        if c.error.None? {
          var abc := ab + c.prims;
          NextPhase(lib, SettlingReady, Run(d, abc));
          PhaseAfter(lib, SettlingFailed, d, abc);
          if m.result.Ok? {
            NextPhase(lib, SettlingFailed, Run(d, m.prims));
            AlongIsSame(lib, d, m.prims);
            FinishedIsFinal(lib, d, Run(d, m.prims));
            SameGood(lib, d, Run(d, m.prims));
          }
        }
      }
    }
  }

  lemma {:induction false} StartReached(lib: Library, d: Disk)
    ensures Reached(lib, Recovering, d)
  {
  }

  lemma {:induction false} HandledStage(lib: Library, phase: Phase, d: Disk, name: string)
    requires Path(PhaseDir(phase), name) in d && Handled(lib, phase, d, Path(PhaseDir(phase), name))
    ensures StagePlan(lib, phase, d, name) == Stage([], None, 0, 0)
  {
    hide MigrateRecord, Retryable, PyEqual;
  }

  predicate AllHandled(lib: Library, phase: Phase, d: Disk, names: seq<string>) {
    forall i :: 0 <= i < |names| ==>
      Path(PhaseDir(phase), names[i]) in d && Handled(lib, phase, d, Path(PhaseDir(phase), names[i]))
  }

  lemma {:induction false} NothingToDo(lib: Library, phase: Phase, d: Disk, names: seq<string>)
    requires AllHandled(lib, phase, d, names)
    ensures PhaseAll(lib, phase, d, names) == Stage([], None, 0, 0)
    decreases |names|
  {
    hide Handled, StagePlan, Run;
    if names != [] {
      HandledStage(lib, phase, d, names[0]);
      RunNothing(d);
      NothingToDo(lib, phase, d, names[1..]);
    }
  }

  lemma {:induction false} FinishedHandles(lib: Library, phase: Phase, d: Disk, q: Path)
    requires Finished(lib, d) && q.dir == PhaseDir(phase) && q in d
    ensures Handled(lib, phase, d, q)
  {
    hide Stable, Promotes;
    assert StableIn(lib, d, q) || phase.SettlingFailed?;
  }

  lemma {:induction false} FinishedPhase(lib: Library, phase: Phase, d: Disk)
    requires Finished(lib, d)
    ensures PhasePlan(lib, phase, d) == Stage([], None, 0, 0)
  {
    hide Handled, PhaseAll, Finished, Names, Sorted;
    PhaseStarts(lib, phase, d);
    var names := Sorted(Names(d, PhaseDir(phase)));
    forall i | 0 <= i < |names| ensures Handled(lib, phase, d, Path(PhaseDir(phase), names[i])) {
      FinishedHandles(lib, phase, d, Path(PhaseDir(phase), names[i]));
    }
    NothingToDo(lib, phase, d, names);
  }

  /** A second migration changes no file and returns all zeros. */
  lemma {:induction false} SecondMigrationDoesNothing(lib: Library, d: Disk)
    requires MigratePlan(lib, d).result.Ok?
    ensures MigratePlan(lib, Run(d, MigratePlan(lib, d).prims)) == Migration([], Ok(Counts(0, 0, 0, 0, 0)))
  {
    hide PhasePlan, Finished, IsFinal, SameAlong, Good;
    MigrationWorks(lib, d);
    var after := Run(d, MigratePlan(lib, d).prims);
    FinishedPhase(lib, Recovering, after);
    FinishedPhase(lib, SettlingPending, after);
    FinishedPhase(lib, SettlingReady, after);
    FinishedPhase(lib, SettlingFailed, after);
    RunNothing(after);
  }

  /** The disk after runs that each crashed once the given number of primitives was done. */
  function AfterCrashes(lib: Library, d: Disk, crashes: seq<nat>): Disk
    decreases |crashes|
  {
    if crashes == [] then d
    else
      var prims := MigratePlan(lib, d).prims;
      AfterCrashes(lib, Run(d, if crashes[0] < |prims| then prims[..crashes[0]] else prims), crashes[1..])
  }

  lemma {:induction false} RunTo(d: Disk, prims: seq<Prim>, n: nat)
    requires 0 < n <= |prims|
    ensures Run(d, prims[..n]) == States(d, prims)[n - 1]
    decreases n
  {
    assert prims[..n][1..] == prims[1..][..n - 1];
    if n > 1 {
      RunTo(Apply(d, prims[0]), prims[1..], n - 1);
    }
  }

  lemma {:induction false} CrashSame(lib: Library, d: Disk, n: nat)
    ensures var prims := MigratePlan(lib, d).prims;
      Same(lib, d, Run(d, if n < |prims| then prims[..n] else prims))
  {
    hide Same, Good, IsFinal, Finished, MigratePlan, Run, States;
    MigrationWorks(lib, d);
    var prims := MigratePlan(lib, d).prims;
    if n == 0 && |prims| > 0 {
      assert prims[..0] == [];
      RunNothing(d);
      SameRefl(lib, d);
    } else if n < |prims| {
      RunTo(d, prims, n);
    }
  }

  lemma {:induction false} CrashesSame(lib: Library, d: Disk, crashes: seq<nat>)
    ensures Same(lib, d, AfterCrashes(lib, d, crashes))
    decreases |crashes|
  {
    hide Same, MigratePlan, Run;
    SameRefl(lib, d);
    if crashes != [] {
      var prims := MigratePlan(lib, d).prims;
      var d1 := Run(d, if crashes[0] < |prims| then prims[..crashes[0]] else prims);
      CrashSame(lib, d, crashes[0]);
      CrashesSame(lib, d1, crashes[1..]);
      SameTransitive(lib, d, d1, AfterCrashes(lib, d1, crashes[1..]));
    }
  }

  lemma {:induction false} FinalIsUnique(lib: Library, d: Disk, d': Disk, a: Disk, b: Disk)
    requires Same(lib, d, d') && IsFinal(lib, d, a) && IsFinal(lib, d', b)
    ensures a == b
  {
    hide FinalAt, GoodAt, Present;
    forall p ensures At(a, p) == At(b, p) {
      assert SameAt(lib, d, d', p);
    }
    assert forall p :: p in a <==> At(a, p).Some?;
    assert forall p :: p in b <==> At(b, p).Some?;
    assert forall p | p in a :: At(a, p).value == a[p] && At(b, p).value == b[p];
  }

  /** Crash-restart confluence: however often start-up migration is cut off between two file
      primitives and begun again, the run that finishes succeeds exactly when an uninterrupted
      one would have, and ends in the same spool. */
  lemma {:induction false} CrashRestartConfluence(lib: Library, d: Disk, crashes: seq<nat>)
    ensures var d1 := AfterCrashes(lib, d, crashes);
      && (MigratePlan(lib, d1).result.Ok? <==> MigratePlan(lib, d).result.Ok?)
      && (MigratePlan(lib, d).result.Ok? ==>
            Run(d1, MigratePlan(lib, d1).prims) == Run(d, MigratePlan(lib, d).prims))
  {
    hide Same, MigratePlan, Run, Good, IsFinal, Finished, AfterCrashes, SameAlong;
    var d1 := AfterCrashes(lib, d, crashes);
    CrashesSame(lib, d, crashes);
    MigrationWorks(lib, d);
    MigrationWorks(lib, d1);
    SameGood(lib, d, d1);
    if MigratePlan(lib, d).result.Ok? {
      FinalIsUnique(lib, d, d1, Run(d, MigratePlan(lib, d).prims), Run(d1, MigratePlan(lib, d1).prims));
    }
  }

  /** No key disappears, at any moment of any sequence of interrupted runs. */
  lemma {:induction false} KeysSurvive(lib: Library, d: Disk, crashes: seq<nat>, name: string)
    ensures var d1 := AfterCrashes(lib, d, crashes);
      && (Present(d, name) <==> Present(d1, name))
      && (Path(Pending, name) in d <==> Path(Pending, name) in d1)
  {
    hide AfterCrashes, FinalAt, GoodAt;
    CrashesSame(lib, d, crashes);
    assert SameAt(lib, d, AfterCrashes(lib, d, crashes), Path(Ready, name));
  }

  /** A finished migration leaves the inflight directory empty, and every key present before
      is in ready or failed. */
  lemma {:induction false} InflightEndsEmpty(lib: Library, d: Disk, name: string)
    requires MigratePlan(lib, d).result.Ok?
    ensures var after := Run(d, MigratePlan(lib, d).prims);
      Path(Inflight, name) !in after && (Present(d, name) ==> Path(Ready, name) in after || Path(Failed, name) in after)
  {
    hide MigratePlan, FinalAt, GoodAt, Run, Stable;
    MigrationWorks(lib, d);
    assert SameAt(lib, d, Run(d, MigratePlan(lib, d).prims), Path(Ready, name));
  }

  // ------------------------------------------------------------------------------- counts

  /** The file of this name is counted by the phase's first counter. */
  predicate CountsAt(lib: Library, phase: Phase, d: Disk, name: string) {
    var p := Path(PhaseDir(phase), name);
    p in d && (phase.Recovering? || Rewritten(lib, d[p]))
  }

  predicate PromotesAt(lib: Library, phase: Phase, d: Disk, name: string) {
    phase.SettlingFailed? && Path(Failed, name) in d && Promotes(lib, d[Path(Failed, name)])
  }

  function Count(names: seq<string>, f: string -> bool): nat {
    if names == [] then 0 else (if f(names[0]) then 1 else 0) + Count(names[1..], f)
  }

  lemma {:induction false} CountAgrees(names: seq<string>, f: string -> bool, g: string -> bool)
    requires forall i :: 0 <= i < |names| ==> f(names[i]) == g(names[i])
    ensures Count(names, f) == Count(names, g)
  {
    if names != [] {
      CountAgrees(names[1..], f, g);
    }
  }

  function Chosen(names: set<string>, f: string -> bool): set<string> {
    set n | n in names && f(n)
  }

  lemma {:induction false} CountIsCardinality(names: seq<string>, f: string -> bool)
    requires Distinct(names)
    ensures Count(names, f) == |set n | n in names && f(n)|
  {
    var whole := set n | n in names && f(n);
    if names == [] {
      assert whole == {};
    } else {
      CountIsCardinality(names[1..], f);
      var rest := set n | n in names[1..] && f(n);
      assert names == [names[0]] + names[1..];
      assert whole == rest + if f(names[0]) then {names[0]} else {};
      assert names[0] !in rest;
    }
  }

  function Counting(lib: Library, phase: Phase, d: Disk): string -> bool {
    n => CountsAt(lib, phase, d, n)
  }

  function Promoting(lib: Library, phase: Phase, d: Disk): string -> bool {
    n => PromotesAt(lib, phase, d, n)
  }

  lemma {:induction false} StageCounts(lib: Library, phase: Phase, d: Disk, name: string)
    requires StagePlan(lib, phase, d, name).error.None?
    ensures var stage := StagePlan(lib, phase, d, name);
      && stage.rewritten == (if CountsAt(lib, phase, d, name) then 1 else 0)
      && stage.promoted == (if PromotesAt(lib, phase, d, name) then 1 else 0)
  {
    hide MigrateRecord, Retryable, PyEqual;
  }

  lemma {:induction false} RestAgrees(lib: Library, phase: Phase, d: Disk, d': Disk, names: seq<string>)
    requires names != [] && Distinct(names)
    requires forall q: Path :: q.dir == PhaseDir(phase) && q.name != names[0] ==> At(d', q) == At(d, q)
    ensures Count(names[1..], Counting(lib, phase, d')) == Count(names[1..], Counting(lib, phase, d))
    ensures Count(names[1..], Promoting(lib, phase, d')) == Count(names[1..], Promoting(lib, phase, d))
  {
    hide Rewritten, Promotes, Count;
    var rest := names[1..];
    forall i | 0 <= i < |rest|
      ensures CountsAt(lib, phase, d', rest[i]) == CountsAt(lib, phase, d, rest[i])
      ensures PromotesAt(lib, phase, d', rest[i]) == PromotesAt(lib, phase, d, rest[i])
    {
      assert rest[i] == names[i + 1] != names[0];
      assert At(d', Path(PhaseDir(phase), rest[i])) == At(d, Path(PhaseDir(phase), rest[i]));
    }
    CountAgrees(rest, Counting(lib, phase, d'), Counting(lib, phase, d));
    CountAgrees(rest, Promoting(lib, phase, d'), Promoting(lib, phase, d));
  }

  lemma {:induction false} PhaseCounts(lib: Library, phase: Phase, d: Disk, names: seq<string>)
    requires Reached(lib, phase, d) && Remaining(lib, phase, d, names) && PhaseAll(lib, phase, d, names).error.None?
    ensures var all := PhaseAll(lib, phase, d, names);
      && all.rewritten == Count(names, Counting(lib, phase, d))
      && all.promoted == Count(names, Promoting(lib, phase, d))
    decreases |names|
  {
    hide Same, SameAlong, Run, States, Reached, StagePlan, Turned, CountsAt, PromotesAt, MigrateFile, Handled;
    if names != [] {
      var first := StagePlan(lib, phase, d, names[0]);
      RemainingHead(lib, phase, d, names);
      if Migratable(lib, d[Path(PhaseDir(phase), names[0])]) {
        var d1 := Run(d, first.prims);
        StageTurns(lib, phase, d, names[0]);
        StageCounts(lib, phase, d, names[0]);
        TurnProgress(lib, phase, d, names[0], d1);
        RemainingShrinks(lib, phase, d, d1, names);
        PhaseCounts(lib, phase, d1, names[1..]);
        RestAgrees(lib, phase, d, d1, names);
      } else {
        StageFails(lib, phase, d, names[0]);
      }
    }
  }

  /** What the counters of a successful migration count, read off the spool it started from. */
  ghost predicate ExactCounts(lib: Library, d: Disk, counts: Counts) {
    && counts.recovered == |Names(d, Inflight)|
    && counts.pending == |Chosen(Names(d, Pending), Counting(lib, SettlingPending, d))|
    && counts.ready == |Chosen(Names(d, Ready) - Names(d, Inflight), Counting(lib, SettlingReady, d))|
    && counts.failed == |Chosen(Names(d, Failed), Counting(lib, SettlingFailed, d))|
    && counts.promoted == |Chosen(Names(d, Failed), Promoting(lib, SettlingFailed, d))|
  }

  /** What a phase does to the files of one name outside its own directory: nothing, except
      that a recovered file becomes a stable ready file. */
  predicate LeavesAt(lib: Library, phase: Phase, d: Disk, d': Disk, n: string) {
    && (!phase.SettlingPending? ==> At(d', Path(Pending, n)) == At(d, Path(Pending, n)))
    && (!phase.SettlingFailed? ==> At(d', Path(Failed, n)) == At(d, Path(Failed, n)))
    && (phase.SettlingPending? ==> At(d', Path(Ready, n)) == At(d, Path(Ready, n)))
    && (phase.Recovering? ==>
          && (Path(Inflight, n) in d' ==> Path(Inflight, n) in d)
          && (if Path(Inflight, n) in d && Path(Inflight, n) !in d'
              then Path(Ready, n) in d' && Stable(lib, d'[Path(Ready, n)])
              else At(d', Path(Ready, n)) == At(d, Path(Ready, n))))
  }

  ghost predicate Leaves(lib: Library, phase: Phase, d: Disk, d': Disk) {
    forall n {:trigger LeavesAt(lib, phase, d, d', n)} :: LeavesAt(lib, phase, d, d', n)
  }

  lemma {:induction false} TurnLeaves(lib: Library, phase: Phase, d: Disk, name: string, d': Disk)
    requires Path(PhaseDir(phase), name) in d && Migratable(lib, d[Path(PhaseDir(phase), name)])
    requires Turned(lib, phase, d, name, d')
    ensures Leaves(lib, phase, d, d')
  {
    hide MigrateFile, Rewritten, Retryable, Recovered, Promoted, Stable, Settled;
    MovedIsStable(lib, d[Path(PhaseDir(phase), name)]);
    forall n ensures LeavesAt(lib, phase, d, d', n) {
    }
  }

  lemma {:induction false} LeavesTransitive(lib: Library, phase: Phase, a: Disk, b: Disk, c: Disk)
    requires Leaves(lib, phase, a, b) && Leaves(lib, phase, b, c)
    ensures Leaves(lib, phase, a, c)
  {
    hide Stable;
    forall n ensures LeavesAt(lib, phase, a, c, n) {
      assert LeavesAt(lib, phase, a, b, n) && LeavesAt(lib, phase, b, c, n);
    }
  }

  lemma {:induction false} PhaseLeaves(lib: Library, phase: Phase, d: Disk, names: seq<string>)
    requires Reached(lib, phase, d) && Remaining(lib, phase, d, names) && PhaseAll(lib, phase, d, names).error.None?
    ensures Leaves(lib, phase, d, Run(d, PhaseAll(lib, phase, d, names).prims))
    decreases |names|
  {
    hide Same, SameAlong, Run, States, Reached, StagePlan, Turned, MigrateFile, Handled, Leaves;
    RunNothing(d);
    LeavesNothing(lib, phase, d);
    if names != [] {
      var first := StagePlan(lib, phase, d, names[0]);
      RemainingHead(lib, phase, d, names);
      if Migratable(lib, d[Path(PhaseDir(phase), names[0])]) {
        var d1 := Run(d, first.prims);
        var rest := PhaseAll(lib, phase, d1, names[1..]);
        StageTurns(lib, phase, d, names[0]);
        TurnProgress(lib, phase, d, names[0], d1);
        TurnLeaves(lib, phase, d, names[0], d1);
        RemainingShrinks(lib, phase, d, d1, names);
        PhaseLeaves(lib, phase, d1, names[1..]);
        RunConcat(d, first.prims, rest.prims);
        LeavesTransitive(lib, phase, d, d1, Run(d1, rest.prims));
      } else {
        StageFails(lib, phase, d, names[0]);
      }
    }
  }

  lemma {:induction false} LeavesNothing(lib: Library, phase: Phase, d: Disk)
    ensures Leaves(lib, phase, d, d)
  {
    hide Stable;
    forall n ensures LeavesAt(lib, phase, d, d, n) {
    }
  }

  lemma {:induction false} TotalOf(names: set<string>, f: string -> bool)
    ensures Count(Sorted(names), f) == |Chosen(names, f)|
  {
    hide Count;
    var list := Sorted(names);
    CountIsCardinality(list, f);
    assert (set n | n in list && f(n)) == Chosen(names, f);
  }

  /** A phase's counters, as cardinalities over its directory. */
  lemma {:induction false} PhaseTotals(lib: Library, phase: Phase, d: Disk)
    requires Reached(lib, phase, d) && PhasePlan(lib, phase, d).error.None?
    ensures var a := PhasePlan(lib, phase, d);
      && a.rewritten == |Chosen(Names(d, PhaseDir(phase)), Counting(lib, phase, d))|
      && a.promoted == |Chosen(Names(d, PhaseDir(phase)), Promoting(lib, phase, d))|
      && Leaves(lib, phase, d, Run(d, a.prims)) && Reached(lib, phase, Run(d, a.prims))
      && Remaining(lib, phase, Run(d, a.prims), [])
  {
    hide Reached, Remaining, PhaseAll, Counting, Promoting, Chosen, Names, Leaves, Run, Same, SameAlong, Good, Sorted;
    var names := Sorted(Names(d, PhaseDir(phase)));
    PhaseStarts(lib, phase, d);
    PhaseCounts(lib, phase, d, names);
    PhaseLeaves(lib, phase, d, names);
    PhaseKeeps(lib, phase, d);
    TotalOf(Names(d, PhaseDir(phase)), Counting(lib, phase, d));
    TotalOf(Names(d, PhaseDir(phase)), Promoting(lib, phase, d));
  }

  lemma {:induction false} NamesAt(d: Disk, dir: Dir)
    ensures forall n :: n in Names(d, dir) <==> Path(dir, n) in d
  {
    forall n | Path(dir, n) in d ensures n in Names(d, dir) {
      assert Path(dir, n).dir == dir && Path(dir, n).name == n;
    }
  }

  lemma {:induction false} RecoveredCount(lib: Library, d: Disk)
    ensures Chosen(Names(d, Inflight), Counting(lib, Recovering, d)) == Names(d, Inflight)
  {
    NamesAt(d, Inflight);
  }

  /** Files of a directory that earlier phases left alone are counted as they were at the start. */
  lemma {:induction false} CountsUnmoved(lib: Library, phase: Phase, d: Disk, d': Disk)
    requires forall n :: At(d', Path(PhaseDir(phase), n)) == At(d, Path(PhaseDir(phase), n))
    ensures Chosen(Names(d', PhaseDir(phase)), Counting(lib, phase, d'))
         == Chosen(Names(d, PhaseDir(phase)), Counting(lib, phase, d))
    ensures Chosen(Names(d', PhaseDir(phase)), Promoting(lib, phase, d'))
         == Chosen(Names(d, PhaseDir(phase)), Promoting(lib, phase, d))
  {
    hide Rewritten, Promotes, Names;
    NamesAt(d, PhaseDir(phase));
    NamesAt(d', PhaseDir(phase));
    forall n
      ensures CountsAt(lib, phase, d', n) == CountsAt(lib, phase, d, n)
      ensures PromotesAt(lib, phase, d', n) == PromotesAt(lib, phase, d, n)
      ensures Path(PhaseDir(phase), n) in d' <==> Path(PhaseDir(phase), n) in d
    {
      assert At(d', Path(PhaseDir(phase), n)) == At(d, Path(PhaseDir(phase), n));
    }
  }

  lemma {:induction false} ReadyCount(lib: Library, d: Disk, d1: Disk, d2: Disk)
    requires Leaves(lib, Recovering, d, d1) && NoInflight(d1) && Leaves(lib, SettlingPending, d1, d2)
    ensures Chosen(Names(d2, Ready), Counting(lib, SettlingReady, d2))
         == Chosen(Names(d, Ready) - Names(d, Inflight), Counting(lib, SettlingReady, d))
  {
    hide MigrateFile, Names, PyEqual;
    NamesAt(d, Ready);
    NamesAt(d, Inflight);
    NamesAt(d2, Ready);
    forall n ensures Path(Ready, n) in d2 && CountsAt(lib, SettlingReady, d2, n)
                <==> Path(Ready, n) in d && Path(Inflight, n) !in d && CountsAt(lib, SettlingReady, d, n)
    {
      assert LeavesAt(lib, Recovering, d, d1, n) && LeavesAt(lib, SettlingPending, d1, d2, n);
      assert Path(Inflight, n) !in d1;
    }
  }

  /** The counts a successful migration returns are exact. */
  lemma {:induction false} CountsAreExact(lib: Library, d: Disk)
    requires MigratePlan(lib, d).result.Ok?
    ensures ExactCounts(lib, d, MigratePlan(lib, d).result.value)
  {
    hide Reached, Remaining, PhasePlan, Counting, Promoting, Chosen, Names, Run, Leaves;
    var a := PhasePlan(lib, Recovering, d);
    var d1 := Run(d, a.prims);
    StartReached(lib, d);
    PhaseTotals(lib, Recovering, d);
    NextPhase(lib, Recovering, d1);
    RecoveredCount(lib, d);
    var b := PhasePlan(lib, SettlingPending, d1);
    var d2 := Run(d1, b.prims);
    PhaseTotals(lib, SettlingPending, d1);
    NextPhase(lib, SettlingPending, d2);
    PendingUnmoved(lib, d, d1, d2);
    CountsUnmoved(lib, SettlingPending, d, d1);
    ReachedNoInflight(lib, d1);
    ReadyCount(lib, d, d1, d2);
    var c := PhasePlan(lib, SettlingReady, d2);
    var d3 := Run(d2, c.prims);
    PhaseTotals(lib, SettlingReady, d2);
    NextPhase(lib, SettlingReady, d3);
    FailedUnmoved(lib, d, d1, d2, d3);
    CountsUnmoved(lib, SettlingFailed, d, d3);
    PhaseTotals(lib, SettlingFailed, d3);
  }

  lemma {:induction false} ReachedNoInflight(lib: Library, d: Disk)
    requires Reached(lib, SettlingPending, d)
    ensures NoInflight(d)
  {
  }

  lemma {:induction false} PendingUnmoved(lib: Library, d: Disk, d1: Disk, d2: Disk)
    requires Leaves(lib, Recovering, d, d1)
    ensures forall n :: At(d1, Path(Pending, n)) == At(d, Path(Pending, n))
  {
    hide Stable;
    forall n ensures At(d1, Path(Pending, n)) == At(d, Path(Pending, n)) {
      assert LeavesAt(lib, Recovering, d, d1, n);
    }
  }

  lemma {:induction false} FailedUnmoved(lib: Library, d: Disk, d1: Disk, d2: Disk, d3: Disk)
    requires Leaves(lib, Recovering, d, d1) && Leaves(lib, SettlingPending, d1, d2)
    requires Leaves(lib, SettlingReady, d2, d3)
    ensures forall n :: At(d3, Path(Failed, n)) == At(d, Path(Failed, n))
  {
    hide Stable;
    forall n ensures At(d3, Path(Failed, n)) == At(d, Path(Failed, n)) {
      assert LeavesAt(lib, Recovering, d, d1, n) && LeavesAt(lib, SettlingPending, d1, d2, n)
          && LeavesAt(lib, SettlingReady, d2, d3, n);
    }
  }
}
