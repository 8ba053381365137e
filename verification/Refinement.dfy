/** The protocol's steps are the operations of the spool and its workers, taken apart. Item by
    item, an operation performs the primitives of the job its step starts, or raises before the
    first one. Altogether, a delivery worker's turn, however it ends, is a run of the protocol
    that passes through every disk the turn leaves behind. */
module Refinement {
  import opened Options
  import opened StringOrder
  import opened JsonValue
  import opened Disks
  import opened SpoolPlans
  import opened FileSpools
  import opened Delivery
  import opened PendingCapture
  import opened Protocol

  /** The primitives a job has still to perform. */
  function JobPrims(job: Job): seq<Prim> {
    match job
    case Idle => []
    case Claimed(_) => []
    case Moving(src, dst, doc, copied, _) => if copied then [Unlink(src)] else [Put(dst, Doc(Obj(doc))), Unlink(src)]
    case Dropping(name) => [Unlink(Path(Inflight, name))]
    case Promoting(capture, key, request, copied) =>
      if copied then [Unlink(Path(Pending, capture.name))]
      else [Put(Path(Ready, key), Doc(Obj(Envelope(request)))), Unlink(Path(Pending, capture.name))]
  }

  /** A run from `w` that performs these primitives: it passes through every disk they leave. */
  ghost predicate Visits(env: Env, w: World, acts: seq<Act>, prims: seq<Prim>) {
    var ds := States(w.disk, prims);
    && Exec(env, w, acts).disk == Run(w.disk, prims)
    && forall i :: 0 <= i < |ds| ==> Passes(env, w, acts, ds[i])
  }

  ghost predicate Passes(env: Env, w: World, acts: seq<Act>, d: Disk) {
    exists k :: 0 <= k <= |acts| && Exec(env, w, acts[..k]).disk == d
  }

  lemma {:induction false} VisitsNothing(env: Env, w: World, acts: seq<Act>)
    requires Exec(env, w, acts).disk == w.disk
    ensures Visits(env, w, acts, [])
  {
    hide Exec;
    RunNothing(w.disk);
  }

  lemma {:induction false} ExecOne(env: Env, w: World, a: Act)
    ensures Exec(env, w, [a]) == Step(env, w, a) && Exec(env, w, []) == w
  {
    hide Step;
    assert [a][..0] == [];
  }

  lemma {:induction false} VisitsOne(env: Env, w: World, a: Act, p: Prim)
    requires Step(env, w, a).disk == Apply(w.disk, p)
    ensures Visits(env, w, [a], [p])
  {
    hide Step, Exec;
    ExecOne(env, w, a);
    RunOne(w.disk, p);
    assert [a][..1] == [a];
    assert Passes(env, w, [a], Apply(w.disk, p));
  }

  lemma {:induction false} PassesFirst(env: Env, w: World, a: seq<Act>, b: seq<Act>, d: Disk)
    requires Passes(env, w, a, d)
    ensures Passes(env, w, a + b, d)
  {
    hide Exec;
    var k :| 0 <= k <= |a| && Exec(env, w, a[..k]).disk == d;
    assert (a + b)[..k] == a[..k];
  }

  lemma {:induction false} PassesSecond(env: Env, w: World, a: seq<Act>, b: seq<Act>, d: Disk)
    requires Passes(env, Exec(env, w, a), b, d)
    ensures Passes(env, w, a + b, d)
  {
    hide Exec;
    var k :| 0 <= k <= |b| && Exec(env, Exec(env, w, a), b[..k]).disk == d;
    assert (a + b)[..|a| + k] == a + b[..k];
    ExecConcat(env, w, a, b[..k]);
  }

  /** One run after the other. */
  lemma {:induction false} VisitsConcat(env: Env, w: World, a: seq<Act>, b: seq<Act>, p: seq<Prim>, q: seq<Prim>)
    requires Visits(env, w, a, p) && Visits(env, Exec(env, w, a), b, q)
    ensures Visits(env, w, a + b, p + q) && Exec(env, w, a + b) == Exec(env, Exec(env, w, a), b)
  {
    hide Exec, Run, States, Passes;
    ExecConcat(env, w, a, b);
    RunConcat(w.disk, p, q);
    var first, second := States(w.disk, p), States(Run(w.disk, p), q);
    forall i | 0 <= i < |first + second| ensures Passes(env, w, a + b, (first + second)[i]) {
      if i < |first| {
        PassesFirst(env, w, a, b, first[i]);
      } else {
        PassesSecond(env, w, a, b, second[i - |first|]);
      }
    }
  }

  // ------------------------------------------------------------------------------- jobs

  /** One step of a job performs its next primitive. */
  lemma {:induction false} AdvancePerformsNext(env: Env, w: World)
    requires JobPrims(w.job) != []
    ensures var w' := AdvanceStep(env, w);
      && w'.disk == Apply(w.disk, JobPrims(w.job)[0]) && JobPrims(w'.job) == JobPrims(w.job)[1..]
      && w'.held == w.held && w'.popped == w.popped && w'.books.sent == w.books.sent
      && (|JobPrims(w.job)| == 1 ==> w'.job == Idle)
  {
    hide Envelope, Times;
  }

  /** Running a job to its end performs all of its primitives, and leaves the worker idle. */
  lemma {:induction false} JobRunsToEnd(env: Env, w: World)
    requires JobPrims(w.job) != []
    ensures var acts := seq(|JobPrims(w.job)|, i => Advance);
      && Visits(env, w, acts, JobPrims(w.job)) && Exec(env, w, acts).job == Idle
      && Exec(env, w, acts).held == w.held && Exec(env, w, acts).popped == w.popped
      && Exec(env, w, acts).books.sent == w.books.sent
  {
    hide AdvanceStep, Visits, Exec;
    var prims, w1 := JobPrims(w.job), AdvanceStep(env, w);
    AdvancePerformsNext(env, w);
    VisitsOne(env, w, Advance, prims[0]);
    ExecOne(env, w, Advance);
    if |prims| == 1 {
      assert seq(1, i => Advance) == [Advance] && prims == [prims[0]];
    } else {
      AdvancePerformsNext(env, w1);
      VisitsOne(env, w1, Advance, prims[1]);
      ExecOne(env, w1, Advance);
      VisitsConcat(env, w, [Advance], [Advance], [prims[0]], [prims[1]]);
      assert seq(2, i => Advance) == [Advance] + [Advance] && prims == [prims[0]] + [prims[1]];
    }
  }

  /** An act that leaves the disk as it is, and then the job it started. */
  lemma {:induction false} ActThenJob(env: Env, w: World, act: Act) returns (acts: seq<Act>)
    requires Step(env, w, act).disk == w.disk
    requires JobPrims(Step(env, w, act).job) == [] ==> Step(env, w, act).job == Idle
    ensures var w1 := Step(env, w, act); var w' := Exec(env, w, acts);
      && Visits(env, w, acts, JobPrims(w1.job)) && w'.job == Idle
      && w'.held == w1.held && w'.popped == w1.popped && w'.books.sent == w1.books.sent
  {
    hide Step, Visits, Exec;
    var w1 := Step(env, w, act);
    ExecOne(env, w, act);
    VisitsNothing(env, w, [act]);
    if JobPrims(w1.job) == [] {
      acts := [act];
    } else {
      JobRunsToEnd(env, w1);
      var more := seq(|JobPrims(w1.job)|, i => Advance);
      VisitsConcat(env, w, [act], more, [], JobPrims(w1.job));
      assert [] + JobPrims(w1.job) == JobPrims(w1.job);
      acts := [act] + more;
    }
  }

  // ------------------------------------------------------------------------ item by item

  /** `_reclaim_expired_inflight`, one file: the primitives of the recover step's job, or none
      when it is not expired or a limit is exceeded. */
  lemma {:induction false} RecoverIsReclaim(env: Env, w: World, name: string, now: real)
    requires w.job == Idle && name !in w.held && Path(Inflight, name) in w.disk
    ensures var plan, w' := ReclaimPlan(env.cfg, w.disk, name, now), RecoverStep(w, name);
      && w'.disk == w.disk && w'.held == w.held && w'.books == w.books
      && (plan.prims == [] || (JobPrims(w'.job) == plan.prims && plan.fault.None?))
  {
    hide WriteFault, Expired, Unclaimed, FailedEnvelope, BadFileReason;
  }

  /** The claim loop after the rename: quarantine, put back, or stamp and hand out; or, when a
      limit is exceeded, nothing. */
  lemma {:induction false} SettleIsSettle(env: Env, w: World, name: string, now: real)
    requires w.job == Claimed(name) && Path(Inflight, name) in w.disk && name !in w.held
    ensures var settled, w' := SettlePlan(env.cfg, w.disk, name, now), SettleStep(env, w, now);
      && w'.books == w.books
      && (settled.fault.Some? ==> settled.prims == [] && settled.items == [])
      && (settled.fault.None? ==>
            && (settled.items == [] ==>
                  w'.disk == w.disk && w'.held == w.held && JobPrims(w'.job) == settled.prims != [])
            && (settled.items != [] ==>
                  && w'.job == Idle && w'.held == w.held + {name}
                  && |settled.prims| == 1 && w'.disk == Apply(w.disk, settled.prims[0])
                  && Path(Inflight, name) in w'.disk && IsObject(w'.disk[Path(Inflight, name)])
                  && settled.items == [Item(name, w'.disk[Path(Inflight, name)].value.fields)]))
  {
    hide WriteFault, Due, Stamped, WithDelivery, FailedEnvelope, BadFileReason;
  }

  function SentFor(name: string, o: Fields, submitted: bool): seq<Submission> {
    if submitted && Get(o, "request").Obj? then [Submission(name, o["request"].fields)] else []
  }

  /** `_process`, one item: the same request is submitted, and the same primitives follow; when
      a limit is exceeded, none do. */
  lemma {:induction false} SubmitIsProcess(env: Env, w: World, name: string, o: Fields, reply: Reply, now: real)
    requires name in w.held && w.job == Idle && Path(Inflight, name) in w.disk
    requires w.disk[Path(Inflight, name)] == Doc(Obj(o))
    ensures var did, w' := ProcessPlan(env.cfg, env.rc, w.disk, Item(name, o), reply, now),
                           SubmitStep(env, w, name, reply, now);
      && w'.disk == w.disk && w'.books.sent == w.books.sent + SentFor(name, o, did.submitted)
      && (did.plan.fault.None? ==>
            JobPrims(w'.job) == did.plan.prims != [] && w'.held == w.held - {name})
      && (did.plan.fault.Some? ==> did.plan.prims == [])
  {
    hide WriteFault, StoredAttempts, Delay, Retried, FailedEnvelope;
  }

  /** A count of attempts that is not a number ends the worker's loop. */
  lemma {:induction false} BadCountInterrupts(env: Env, w: World, name: string, o: Fields, reply: Reply, now: real)
    requires name in w.held && w.job == Idle && Path(Inflight, name) in w.disk
    requires w.disk[Path(Inflight, name)] == Doc(Obj(o))
    requires ProcessPlan(env.cfg, env.rc, w.disk, Item(name, o), reply, now).plan.fault == Some(NotANumber)
    ensures SubmitStep(env, w, name, reply, now) == Interrupted(w)
  {
    hide WriteFault, StoredAttempts, Delay, Retried, FailedEnvelope;
    forall reason: Reason ensures FailPlan(env.cfg, w.disk, name, reason).fault != Some(NotANumber) {
      var source := FailSource(w.disk, name);
      WriteFaultIsNoNumber(env.cfg, w.disk, Path(Failed, name), FailedEnvelope(w.disk, source, reason), {source});
    }
    var stored := StoredAttempts(o, env.rc.parseInt);
    if stored.Some? {
      var retried := Retried(o, stored.value + 1, now + Delay(env.rc, stored.value + 1));
      WriteFaultIsNoNumber(env.cfg, w.disk, Path(Ready, name), retried, {Path(Inflight, name)});
    }
  }

  lemma {:induction false} WriteFaultIsNoNumber(cfg: Config, d: Disk, dest: Path, payload: Fields, exclude: set<Path>)
    ensures WriteFault(cfg, d, dest, payload, exclude) != Some(NotANumber)
  {
    hide PayloadSize;
  }

  /** One capture's turn of the pending worker, on what it read before, whatever has been
      enqueued under the name since; when a limit is exceeded on giving up or postponing,
      nothing is performed. */
  lemma {:induction false} CaptureTurnIsTurn(env: Env, w: World, name: string, resolved: Resolved, now: real)
    requires w.job == Idle && name in w.popped
    requires resolved.Built? ==> !PendingName(resolved.key)
    ensures var turn := TurnPlan(env.cfg, env.pc, w.disk, Item(name, w.popped[name]), resolved, now);
      var w' := CaptureTurnStep(env, w, name, resolved, resolved.Built? && turn.promoted == 0, now);
      && (turn.plan.fault.Some? ==> turn.plan.prims == [] && turn.promoted == 0)
      && (turn.plan.fault.None? ==>
            if w'.job == Idle then |turn.plan.prims| == 1 && w'.disk == Apply(w.disk, turn.plan.prims[0])
            else w'.disk == w.disk && JobPrims(w'.job) == turn.plan.prims != [])
      && (turn.plan.fault.None? ==> w'.popped == w.popped - {name})
      && (turn.promoted == 1 <==> turn.plan.fault.None? && w'.job.Promoting?)
  {
    hide WriteFault, Counted, ThisAttempt, Postponed, GivesUp, FailedPending, Envelope, Core;
  }

  /** `enqueue_ready` and `enqueue_pending`, when nothing refuses the write: the steps that put a
      request or a capture in. */
  lemma {:induction false} EnqueuesAreSteps(env: Env, w: World, name: string, payload: Fields, exclude: set<Path>)
    ensures !PendingName(name) && WriteFault(env.cfg, w.disk, Path(Ready, name), Envelope(payload), exclude).None? ==>
      Step(env, w, EnqueueRequest(name, payload)).disk
      == Run(w.disk, WritePlan(env.cfg, w.disk, Path(Ready, name), Envelope(payload), exclude).prims)
    ensures WriteFault(env.cfg, w.disk, Path(Pending, name), PendingRecord(payload), {}).None? ==>
      Step(env, w, EnqueueCapture(name, payload)).disk
      == Run(w.disk, WritePlan(env.cfg, w.disk, Path(Pending, name), PendingRecord(payload), {}).prims)
  {
    hide WriteFault, Envelope, PendingRecord;
    RunOne(w.disk, Put(Path(Ready, name), Doc(Obj(Envelope(payload)))));
    RunOne(w.disk, Put(Path(Pending, name), Doc(Obj(PendingRecord(payload)))));
  }

  // --------------------------------------------------------------------- a worker's turn

  predicate Distinct(names: seq<string>) {
    forall i, j :: 0 <= i < j < |names| ==> names[i] != names[j]
  }

  /** All of them are files of this directory. */
  predicate AllIn(d: Disk, dir: Dir, names: seq<string>) {
    forall i :: 0 <= i < |names| ==> Path(dir, names[i]) in d
  }

  predicate NoneHeld(w: World, names: seq<string>) {
    forall i :: 0 <= i < |names| ==> names[i] !in w.held
  }

  /** The primitives touch files of this name only. */
  predicate AboutName(prims: seq<Prim>, name: string) {
    forall i :: 0 <= i < |prims| ==>
      match prims[i]
      case Put(p, _) => p.name == name
      case Rename(p, q) => p.name == name && q.name == name
      case Unlink(p) => p.name == name
  }

  lemma {:induction false} OthersStay(d: Disk, prims: seq<Prim>, name: string, p: Path)
    requires AboutName(prims, name) && p.name != name
    ensures p in Run(d, prims) <==> p in d
    ensures p in d ==> Run(d, prims)[p] == d[p]
    decreases |prims|
  {
    if prims != [] {
      OthersStay(Apply(d, prims[0]), prims[1..], name, p);
    }
  }

  lemma {:induction false} ReclaimAboutName(cfg: Config, d: Disk, name: string, now: real)
    ensures AboutName(ReclaimPlan(cfg, d, name, now).prims, name)
  {
    hide WriteFault, Expired, Unclaimed, FailedEnvelope, BadFileReason;
  }

  lemma {:induction false} ClaimAboutName(cfg: Config, d: Disk, name: string, now: real)
    ensures AboutName(ClaimPlan(cfg, d, name, now).prims, name)
  {
    hide WriteFault, Due, Stamped, WithDelivery, FailedEnvelope, BadFileReason;
  }

  lemma {:induction false} ProcessAboutName(cfg: Config, rc: Retrying, d: Disk, item: Item, reply: Reply, now: real)
    ensures AboutName(ProcessPlan(cfg, rc, d, item, reply, now).plan.prims, item.name)
  {
    hide WriteFault, StoredAttempts, Delay, Retried, FailedEnvelope;
  }

  lemma {:induction false} StillThere(d: Disk, prims: seq<Prim>, dir: Dir, names: seq<string>)
    requires names != [] && Distinct(names) && AllIn(d, dir, names) && AboutName(prims, names[0])
    ensures AllIn(Run(d, prims), dir, names[1..]) && Distinct(names[1..])
  {
    hide Run, AboutName;
    forall i | 0 <= i < |names[1..]| ensures Path(dir, names[1..][i]) in Run(d, prims) {
      assert Path(dir, names[i + 1]) in d;
      OthersStay(d, prims, names[0], Path(dir, names[i + 1]));
    }
  }

  lemma {:induction false} ReclaimOneVisits(env: Env, w: World, name: string, now: real) returns (acts: seq<Act>)
    requires w.job == Idle && name !in w.held && Path(Inflight, name) in w.disk
    ensures Visits(env, w, acts, ReclaimPlan(env.cfg, w.disk, name, now).prims)
    ensures var w' := Exec(env, w, acts); w'.job == Idle && w'.held == w.held && w'.books.sent == w.books.sent
  {
    hide Visits, Exec, ReclaimPlan, RecoverStep;
    RecoverIsReclaim(env, w, name, now);
    if ReclaimPlan(env.cfg, w.disk, name, now).prims == [] {
      acts := [];
      ExecOne(env, w, Advance);
      VisitsNothing(env, w, []);
    } else {
      acts := ActThenJob(env, w, Recover(name));
    }
  }

  lemma {:induction false} ReclaimVisits(env: Env, w: World, names: seq<string>, now: real) returns (acts: seq<Act>)
    requires w.job == Idle && Distinct(names) && AllIn(w.disk, Inflight, names) && NoneHeld(w, names)
    ensures Visits(env, w, acts, ReclaimAll(env.cfg, w.disk, names, now).prims)
    ensures var w' := Exec(env, w, acts); w'.job == Idle && w'.held == w.held && w'.books.sent == w.books.sent
    decreases |names|
  {
    hide Visits, Exec, ReclaimPlan, Run, AboutName;
    if names == [] {
      acts := [];
      ExecOne(env, w, Advance);
      VisitsNothing(env, w, []);
    } else {
      var plan := ReclaimPlan(env.cfg, w.disk, names[0], now);
      acts := ReclaimOneVisits(env, w, names[0], now);
      if plan.fault.None? {
        var w1 := Exec(env, w, acts);
        VisitsEnd(env, w, acts, plan.prims);
        ReclaimAboutName(env.cfg, w.disk, names[0], now);
        StillThere(w.disk, plan.prims, Inflight, names);
        var more := ReclaimVisits(env, w1, names[1..], now);
        VisitsConcat(env, w, acts, more, plan.prims, ReclaimAll(env.cfg, w1.disk, names[1..], now).prims);
        acts := acts + more;
      }
    }
  }

  lemma {:induction false} VisitsEnd(env: Env, w: World, acts: seq<Act>, prims: seq<Prim>)
    requires Visits(env, w, acts, prims)
    ensures Exec(env, w, acts).disk == Run(w.disk, prims)
  {
  }

  // --------------------------------------------------------------------------- claiming

  /** The item is claimed: the worker holds it, and its file is the item. */
  predicate InHand(w: World, item: Item) {
    item.name in w.held && Path(Inflight, item.name) in w.disk
    && w.disk[Path(Inflight, item.name)] == Doc(Obj(item.payload))
  }

  function NamesOf(items: seq<Item>): (r: seq<string>)
    ensures |r| == |items|
  {
    seq(|items|, i requires 0 <= i < |items| => items[i].name)
  }

  /** The worker holds these items and no others. */
  ghost predicate HoldsJust(w: World, items: seq<Item>) {
    && w.job == Idle && Distinct(NamesOf(items))
    && (forall i :: 0 <= i < |items| ==> InHand(w, items[i]))
    && (forall n :: n in w.held <==> n in NamesOf(items))
  }

  /** The rename, and what follows; a limit that is exceeded ends the worker's loop. */
  lemma {:induction false} ClaimOneVisits(env: Env, w: World, name: string, now: real) returns (acts: seq<Act>)
    requires w.job == Idle && name !in w.held && Path(Ready, name) in w.disk
    ensures var claim, w' := ClaimPlan(env.cfg, w.disk, name, now), Exec(env, w, acts);
      && Visits(env, w, acts, claim.prims) && w'.job == Idle && w'.books.sent == w.books.sent
      && (claim.fault.Some? ==> w'.held == {})
      && (claim.fault.None? && claim.items == [] ==> w'.held == w.held)
      && (claim.fault.None? && claim.items != [] ==>
            |claim.items| == 1 && claim.items[0].name == name && w'.held == w.held + {name}
            && InHand(w', claim.items[0]))
  {
    hide Visits, Exec, SettlePlan, SettleStep;
    var w1 := ClaimStep(w, name);
    VisitsOne(env, w, Claim(name), ClaimPrim(name));
    ExecOne(env, w, Claim(name));
    var settled := SettlePlan(env.cfg, w1.disk, name, now);
    SettleIsSettle(env, w1, name, now);
    var more: seq<Act>;
    if settled.fault.Some? {
      more := [Interrupt];
      ExecOne(env, w1, Interrupt);
      VisitsNothing(env, w1, more);
    } else if settled.items == [] {
      more := ActThenJob(env, w1, Settle(now));
    } else {
      more := [Settle(now)];
      ExecOne(env, w1, Settle(now));
      VisitsOne(env, w1, Settle(now), settled.prims[0]);
      assert settled.prims == [settled.prims[0]];
    }
    VisitsConcat(env, w, [Claim(name)], more, [ClaimPrim(name)], settled.prims);
    acts := [Claim(name)] + more;
  }

  lemma {:induction false} HoldsOneMore(w: World, w': World, items: seq<Item>, prims: seq<Prim>, name: string,
                                        more: seq<Item>)
    requires HoldsJust(w, items) && name !in w.held && AboutName(prims, name) && w'.disk == Run(w.disk, prims)
    requires w'.job == Idle
    requires if more == [] then w'.held == w.held
      else |more| == 1 && more[0].name == name && w'.held == w.held + {name} && InHand(w', more[0])
    ensures HoldsJust(w', items + more)
  {
    hide Run, AboutName;
    forall i | 0 <= i < |items| ensures InHand(w', items[i]) {
      assert InHand(w, items[i]) && NamesOf(items)[i] == items[i].name;
      OthersStay(w.disk, prims, name, Path(Inflight, items[i].name));
    }
    assert NamesOf(items + more) == NamesOf(items) + NamesOf(more);
    assert name !in NamesOf(items);
    assert more != [] ==> NamesOf(more) == [name];
    forall i | 0 <= i < |items + more| ensures InHand(w', (items + more)[i]) {
      assert i >= |items| ==> (items + more)[i] == more[0];
    }
  }

  /** The claim loop; the items it hands out are in hand at its end, next to those before. */
  lemma {:induction false} ClaimVisits(env: Env, w: World, names: seq<string>, now: real, before: seq<Item>)
    returns (acts: seq<Act>)
    requires HoldsJust(w, before) && Distinct(names) && AllIn(w.disk, Ready, names) && NoneHeld(w, names)
    ensures var claims, w' := ClaimAll(env.cfg, w.disk, names, now), Exec(env, w, acts);
      && Visits(env, w, acts, claims.prims) && w'.books.sent == w.books.sent
      && (if claims.fault.None? then HoldsJust(w', before + claims.items) else w'.job == Idle && w'.held == {})
    decreases |names|
  {
    hide Visits, Exec, ClaimPlan, Run, AboutName, HoldsJust, InHand;
    HoldsIdle(w, before);
    if names == [] {
      acts := [];
      ExecOne(env, w, Advance);
      VisitsNothing(env, w, []);
      assert before + [] == before;
    } else {
      var name := names[0];
      var claim := ClaimPlan(env.cfg, w.disk, name, now);
      acts := ClaimOneVisits(env, w, name, now);
      if claim.fault.None? {
        var w1 := Exec(env, w, acts);
        VisitsEnd(env, w, acts, claim.prims);
        ClaimAboutName(env.cfg, w.disk, name, now);
        StillThere(w.disk, claim.prims, Ready, names);
        HoldsOneMore(w, w1, before, claim.prims, name, claim.items);
        var rest := ClaimAll(env.cfg, w1.disk, names[1..], now);
        var more := ClaimVisits(env, w1, names[1..], now, before + claim.items);
        VisitsConcat(env, w, acts, more, claim.prims, rest.prims);
        assert before + claim.items + rest.items == before + (claim.items + rest.items);
        acts := acts + more;
      }
    }
  }

  lemma {:induction false} HoldsIdle(w: World, items: seq<Item>)
    requires HoldsJust(w, items)
    ensures w.job == Idle
  {
  }

  // ------------------------------------------------------------------------- processing

  function SentAs(items: seq<Item>): seq<Submission> {
    if items == [] then []
    else SentFor(items[0].name, items[0].payload, true) + SentAs(items[1..])
  }

  lemma {:induction false} ProcessOneVisits(env: Env, w: World, item: Item, reply: Reply, now: real)
    returns (acts: seq<Act>)
    requires InHand(w, item) && w.job == Idle
    ensures var did, w' := ProcessPlan(env.cfg, env.rc, w.disk, item, reply, now), Exec(env, w, acts);
      && Visits(env, w, acts, did.plan.prims) && w'.job == Idle
      && w'.held == (if did.plan.fault.Some? then {} else w.held - {item.name})
      && w'.books.sent == w.books.sent + SentFor(item.name, item.payload, did.submitted)
  {
    hide Visits, Exec, ProcessPlan, SubmitStep;
    var act := Submit(item.name, reply, now);
    var did := ProcessPlan(env.cfg, env.rc, w.disk, item, reply, now);
    SubmitIsProcess(env, w, item.name, item.payload, reply, now);
    assert item == Item(item.name, item.payload);
    if did.plan.fault.None? {
      acts := ActThenJob(env, w, act);
    } else {
      acts := [act, Interrupt];
      assert acts == [act] + [Interrupt];
      ExecOne(env, w, act);
      ExecOne(env, Exec(env, w, [act]), Interrupt);
      ExecConcat(env, w, [act], [Interrupt]);
      VisitsNothing(env, w, acts);
    }
  }

  lemma {:induction false} HoldsOneLess(w: World, w': World, items: seq<Item>, prims: seq<Prim>)
    requires HoldsJust(w, items) && items != [] && AboutName(prims, items[0].name) && w'.disk == Run(w.disk, prims)
    requires w'.job == Idle && w'.held == w.held - {items[0].name}
    ensures HoldsJust(w', items[1..])
  {
    hide Run, AboutName;
    var names := NamesOf(items);
    assert NamesOf(items[1..]) == names[1..];
    forall i | 0 <= i < |items[1..]| ensures InHand(w', items[1..][i]) {
      assert InHand(w, items[i + 1]) && names[i + 1] != names[0];
      OthersStay(w.disk, prims, items[0].name, Path(Inflight, items[i + 1].name));
    }
    assert forall n :: n in names <==> n == names[0] || n in names[1..];
  }

  lemma {:induction false} ProcessFirst(env: Env, d: Disk, items: seq<Item>, replies: string -> Reply, now: real)
    requires items != []
    ensures var did := ProcessPlan(env.cfg, env.rc, d, items[0], replies(items[0].name), now);
      var all, sent := ProcessAll(env.cfg, env.rc, d, items, replies, now), if did.submitted then [items[0]] else [];
      && (did.plan.fault.Some? ==> all.plan == did.plan && all.sent == sent)
      && (did.plan.fault.None? ==>
            var rest := ProcessAll(env.cfg, env.rc, Run(d, did.plan.prims), items[1..], replies, now);
            all.plan.prims == did.plan.prims + rest.plan.prims && all.sent == sent + rest.sent)
  {
    hide ProcessPlan, Run;
  }

  /** The items in turn; however the loop ends, the worker holds nothing afterwards. */
  lemma {:induction false} ProcessVisits(env: Env, w: World, items: seq<Item>, replies: string -> Reply, now: real)
    returns (acts: seq<Act>)
    requires HoldsJust(w, items)
    ensures var did, w' := ProcessAll(env.cfg, env.rc, w.disk, items, replies, now), Exec(env, w, acts);
      && Visits(env, w, acts, did.plan.prims) && w'.job == Idle && w'.held == {}
      && w'.books.sent == w.books.sent + SentAs(did.sent)
    decreases |items|
  {
    hide Visits, Exec, ProcessPlan, Run, AboutName, HoldsJust, InHand, SentAs, SentFor;
    HoldsIdle(w, items);
    if items == [] {
      acts := [];
      ExecOne(env, w, Advance);
      VisitsNothing(env, w, []);
      HoldsNothing(w);
    } else {
      hide ProcessAll;
      var reply := replies(items[0].name);
      var did := ProcessPlan(env.cfg, env.rc, w.disk, items[0], reply, now);
      ProcessFirst(env, w.disk, items, replies, now);
      HoldsFirst(w, items);
      acts := ProcessOneVisits(env, w, items[0], reply, now);
      SentOne(items[0], did.submitted);
      if did.plan.fault.None? {
        var w1 := Exec(env, w, acts);
        VisitsEnd(env, w, acts, did.plan.prims);
        ProcessAboutName(env.cfg, env.rc, w.disk, items[0], reply, now);
        HoldsOneLess(w, w1, items, did.plan.prims);
        var rest := ProcessAll(env.cfg, env.rc, w1.disk, items[1..], replies, now);
        var more := ProcessVisits(env, w1, items[1..], replies, now);
        VisitsConcat(env, w, acts, more, did.plan.prims, rest.plan.prims);
        SentConcat(if did.submitted then [items[0]] else [], rest.sent);
        acts := acts + more;
      }
    }
  }

  lemma {:induction false} HoldsNothing(w: World)
    requires HoldsJust(w, [])
    ensures w.held == {} && SentAs([]) == []
  {
  }

  lemma {:induction false} HoldsFirst(w: World, items: seq<Item>)
    requires HoldsJust(w, items) && items != []
    ensures InHand(w, items[0])
  {
  }

  lemma {:induction false} SentOne(item: Item, submitted: bool)
    ensures SentAs(if submitted then [item] else []) == SentFor(item.name, item.payload, submitted)
  {
  }

  lemma {:induction false} SentConcat(a: seq<Item>, b: seq<Item>)
    requires |a| <= 1
    ensures SentAs(a + b) == SentAs(a) + SentAs(b)
  {
    if a == [] {
      assert a + b == b;
    } else {
      assert (a + b)[1..] == b && a == [a[0]];
      SentOne(a[0], true);
    }
  }

  // ------------------------------------------------------------------------- whole turns

  lemma {:induction false} SortedDistinct(s: set<string>)
    ensures Distinct(Sorted(s))
  {
  }

  lemma {:induction false} FirstOf(d: Disk, dir: Dir, limit: int)
    ensures var names := First(Sorted(Names(d, dir)), limit); Distinct(names) && AllIn(d, dir, names)
  {
    hide Sorted;
    SortedDistinct(Names(d, dir));
    var all, names := Sorted(Names(d, dir)), First(Sorted(Names(d, dir)), limit);
    forall i | 0 <= i < |names| ensures Path(dir, names[i]) in d {
      assert all[i] in Names(d, dir);
    }
  }

  lemma {:induction false} InflightNames(d: Disk)
    ensures Distinct(Sorted(Names(d, Inflight))) && AllIn(d, Inflight, Sorted(Names(d, Inflight)))
  {
    hide Sorted;
    SortedDistinct(Names(d, Inflight));
    var names := Sorted(Names(d, Inflight));
    forall i | 0 <= i < |names| ensures Path(Inflight, names[i]) in d {
      assert names[i] in Names(d, Inflight);
    }
  }

  /** `pop_ready` by a worker that holds nothing: a run of the protocol passes through every disk
      it leaves, also when it raises, and holds in the end exactly what it handed out. */
  lemma {:induction false} PopReadyIsARun(env: Env, w: World, limit: int, now: real) returns (acts: seq<Act>)
    requires w.job == Idle && w.held == {}
    ensures var claims, w' := PopReadyPlan(env.cfg, w.disk, limit, now), Exec(env, w, acts);
      && Visits(env, w, acts, claims.prims) && w'.books.sent == w.books.sent
      && (if claims.fault.None? then HoldsJust(w', claims.items) else w'.job == Idle && w'.held == {})
  {
    hide Visits, Exec, ReclaimAll, ClaimAll, Run, Sorted, First;
    var names := Sorted(Names(w.disk, Inflight));
    var reclaimed := ReclaimAll(env.cfg, w.disk, names, now);
    InflightNames(w.disk);
    acts := ReclaimVisits(env, w, names, now);
    if reclaimed.fault.None? {
      var w1 := Exec(env, w, acts);
      VisitsEnd(env, w, acts, reclaimed.prims);
      FirstOf(w1.disk, Ready, limit);
      var ready := First(Sorted(Names(w1.disk, Ready)), limit);
      var more := ClaimVisits(env, w1, ready, now, []);
      var claims := ClaimAll(env.cfg, w1.disk, ready, now);
      VisitsConcat(env, w, acts, more, reclaimed.prims, claims.prims);
      assert [] + claims.items == claims.items;
      acts := acts + more;
    }
  }

  /** `run_once` of the delivery worker, from any world in which it holds nothing: a run of the
      protocol passes through every disk it leaves behind, makes the same submissions, and ends
      with the worker holding nothing again, whether or not the call raised. */
  lemma {:induction false} RunOnceIsARun(env: Env, w: World, limit: int, replies: string -> Reply, now: real)
    returns (acts: seq<Act>)
    requires w.job == Idle && w.held == {}
    ensures var did, w' := RunOncePlan(env.cfg, env.rc, w.disk, limit, replies, now), Exec(env, w, acts);
      && Visits(env, w, acts, did.plan.prims) && w'.job == Idle && w'.held == {}
      && w'.books.sent == w.books.sent + SentAs(did.sent)
  {
    hide Visits, Exec, PopReadyPlan, ProcessAll, Run, HoldsJust;
    var claims := PopReadyPlan(env.cfg, w.disk, limit, now);
    acts := PopReadyIsARun(env, w, limit, now);
    if claims.fault.None? {
      var w1 := Exec(env, w, acts);
      VisitsEnd(env, w, acts, claims.prims);
      var did := ProcessAll(env.cfg, env.rc, w1.disk, claims.items, replies, now);
      var more := ProcessVisits(env, w1, claims.items, replies, now);
      VisitsConcat(env, w, acts, more, claims.prims, did.plan.prims);
      assert [] + did.sent == did.sent;
      acts := acts + more;
    }
  }

  /** The pending worker read these captures. */
  ghost predicate HasRead(w: World, items: seq<Item>) {
    && w.job == Idle && Distinct(NamesOf(items))
    && (forall i :: 0 <= i < |items| ==> items[i].name in w.popped && w.popped[items[i].name] == items[i].payload)
  }

  /** Keys are digests. */
  ghost predicate KeysAreDigests(items: seq<Item>, resolve: string -> Resolved) {
    forall i :: 0 <= i < |items| && resolve(items[i].name).Built? ==> !PendingName(resolve(items[i].name).key)
  }

  lemma {:induction false} TurnVisits(env: Env, w: World, item: Item, resolved: Resolved, now: real)
    returns (acts: seq<Act>)
    requires w.job == Idle && item.name in w.popped && w.popped[item.name] == item.payload
    requires resolved.Built? ==> !PendingName(resolved.key)
    ensures var turn, w' := TurnPlan(env.cfg, env.pc, w.disk, item, resolved, now), Exec(env, w, acts);
      && Visits(env, w, acts, turn.plan.prims) && w'.job == Idle
      && w'.popped == (if turn.plan.fault.Some? then map[] else w.popped - {item.name})
  {
    hide Visits, Exec, TurnPlan, CaptureTurnStep;
    var turn := TurnPlan(env.cfg, env.pc, w.disk, item, resolved, now);
    var act := CaptureTurn(item.name, resolved, resolved.Built? && turn.promoted == 0, now);
    CaptureTurnIsTurn(env, w, item.name, resolved, now);
    assert item == Item(item.name, w.popped[item.name]);
    ExecOne(env, w, act);
    if turn.plan.fault.Some? {
      acts := [Interrupt];
      ExecOne(env, w, Interrupt);
      VisitsNothing(env, w, acts);
    } else if Step(env, w, act).job == Idle {
      acts := [act];
      VisitsOne(env, w, act, turn.plan.prims[0]);
      assert turn.plan.prims == [turn.plan.prims[0]];
    } else {
      acts := ActThenJob(env, w, act);
    }
  }

  /** The loop of the pending worker's `run_once`, on what `pop_pending` handed out: a run of the
      protocol passes through every disk it leaves behind, whether or not a turn raises. */
  lemma {:induction false} TurnsAreARun(env: Env, w: World, items: seq<Item>, resolve: string -> Resolved, now: real)
    returns (acts: seq<Act>)
    requires HasRead(w, items) && KeysAreDigests(items, resolve)
    ensures var all := TurnAll(env.cfg, env.pc, w.disk, items, resolve, now);
      Visits(env, w, acts, all.plan.prims) && Exec(env, w, acts).job == Idle
    decreases |items|
  {
    hide Visits, Exec, TurnPlan, Run;
    if items == [] {
      acts := [];
      ExecOne(env, w, Advance);
      VisitsNothing(env, w, []);
    } else {
      var turn := TurnPlan(env.cfg, env.pc, w.disk, items[0], resolve(items[0].name), now);
      acts := TurnVisits(env, w, items[0], resolve(items[0].name), now);
      if turn.plan.fault.None? {
        var w1 := Exec(env, w, acts);
        VisitsEnd(env, w, acts, turn.plan.prims);
        ReadTail(w, w1, items);
        var more := TurnsAreARun(env, w1, items[1..], resolve, now);
        VisitsConcat(env, w, acts, more, turn.plan.prims,
                     TurnAll(env.cfg, env.pc, w1.disk, items[1..], resolve, now).plan.prims);
        acts := acts + more;
      }
    }
  }

  lemma {:induction false} ReadTail(w: World, w': World, items: seq<Item>)
    requires HasRead(w, items) && items != [] && w'.job == Idle && w'.popped == w.popped - {items[0].name}
    ensures HasRead(w', items[1..])
  {
    var names := NamesOf(items);
    assert NamesOf(items[1..]) == names[1..];
    forall i | 0 <= i < |items[1..]| ensures items[1..][i].name in w'.popped {
      assert names[i + 1] != names[0];
    }
  }
}
