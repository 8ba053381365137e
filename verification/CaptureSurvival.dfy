/** What becomes of captures when a name is used again: the pending file is named by the round
    id, and enqueuing under a used name replaces the file. */
module CaptureSurvival {
  import opened Options
  import opened JsonValue
  import opened Disks
  import opened SpoolPlans
  import opened Delivery
  import opened PendingCapture
  import opened Protocol
  import opened Members

  predicate HoldsAt(w: World, p: Path, core: Fields) {
    p in w.disk && Holds(w.disk[p], core)
  }

  /** The capture waits in pending or failed, or its request was enqueued. */
  predicate Present(w: World, c: Captured) {
    HoldsAt(w, Path(Pending, c.name), c.core) || HoldsAt(w, FailedPendingPath(c.name), c.core) || c in w.ledger.promoted
  }

  /** The worker has read the capture of this name, or is moving it. */
  predicate Busy(w: World, name: string) {
    || name in w.popped
    || (w.job.Promoting? && w.job.capture.name == name)
    || (w.job.Moving? && w.job.src == Path(Pending, name))
  }

  /** There is no file at `p`, or what it holds was promoted already. */
  predicate Spent(w: World, p: Path, name: string) {
    p in w.disk ==> IsObject(w.disk[p]) && Captured(name, Core(w.disk[p].value.fields)) in w.ledger.promoted
  }

  /** Nothing that is still needed stands under this capture name. */
  predicate Free(w: World, name: string) {
    !Busy(w, name) && Spent(w, Path(Pending, name), name) && Spent(w, FailedPendingPath(name), name)
  }

  /** A name that has no file in pending or failed is free, whatever the worker is doing. */
  lemma {:induction false} UnusedNameIsFree(env: Env, acts: seq<Act>, name: string)
    ensures var w := Exec(env, FRESH, acts);
      Path(Pending, name) !in w.disk && FailedPendingPath(name) !in w.disk ==> Free(w, name)
  {
    hide RequestKept;
    var w := Exec(env, FRESH, acts);
    RunsAreSafe(env, acts);
    assert CaptureKept(w, name);
  }

  // ------------------------------------------------------------------- the live capture

  /** Under this name there is only the capture `core`: on disk, in the worker's memory, and
      under way; a file left in failed may hold one that was promoted. */
  predicate Live(w: World, name: string, core: Fields) {
    && (Path(Pending, name) in w.disk ==> Holds(w.disk[Path(Pending, name)], core))
    && (name in w.popped ==> Core(w.popped[name]) == core)
    && (w.job.Promoting? && w.job.capture.name == name ==> w.job.capture.core == core)
    && (w.job.Moving? && w.job.src == Path(Pending, name) ==> Core(w.job.doc) == core)
    && (HoldsAt(w, FailedPendingPath(name), core) || Spent(w, FailedPendingPath(name), name))
    && Present(w, Captured(name, core))
  }

  predicate EnqueuesCapture(act: Act, name: string) {
    act.EnqueueCapture? && act.name == name
  }

  /** Everything `Live` speaks of is the same in both worlds, but for what was promoted. */
  predicate SameCapture(w: World, w': World, name: string) {
    && SameAt(w, w', Path(Pending, name)) && SameAt(w, w', FailedPendingPath(name))
    && (name in w'.popped ==> name in w.popped && w'.popped[name] == w.popped[name])
    && w.ledger.promoted.Keys <= w'.ledger.promoted.Keys
  }

  predicate SameAt(w: World, w': World, p: Path) {
    (p in w.disk <==> p in w'.disk) && (p in w.disk ==> w'.disk[p] == w.disk[p])
  }

  /** The job has nothing to do with this capture. */
  predicate Elsewhere(w: World, name: string) {
    && !(w.job.Promoting? && w.job.capture.name == name)
    && !(w.job.Moving? && w.job.src == Path(Pending, name))
  }

  lemma {:induction false} SameCaptureLive(w: World, w': World, name: string, core: Fields)
    requires Live(w, name, core) && SameCapture(w, w', name)
    requires w'.job == w.job || Elsewhere(w', name)
    ensures Live(w', name, core)
  {
    hide Core;
  }

  lemma {:induction false} AdvanceLive(env: Env, w: World, name: string, core: Fields)
    requires Safe(w) && Live(w, name, core)
    ensures Live(AdvanceStep(env, w), name, core)
  {
    hide Safe, Core, RequestKept, CaptureKept, Live, KnownCapture, Envelope;
    var w' := AdvanceStep(env, w);
    JobIsSound(w);
    if w.job.Promoting? && w.job.capture.name == name {
      PromoteLive(env, w, name, core);
    } else if w.job.Moving? && w.job.src == Path(Pending, name) {
      SetAsideLive(env, w, name, core);
    } else {
      if w.job.Moving? && w.job.src.dir == Inflight {
        AcceptedIsNoCapture(w, w.job.src.name);
        FailedPathDiffers(name, w.job.src.name);
      } else if w.job.Moving? {
        FailedPathDiffers(name, w.job.src.name);
      }
      SameCaptureLive(w, w', name, core);
    }
  }

  lemma {:induction false} PromoteLive(env: Env, w: World, name: string, core: Fields)
    requires JobSound(w) && Live(w, name, core) && w.job.Promoting? && w.job.capture.name == name
    ensures Live(AdvanceStep(env, w), name, core)
  {
    hide Core, Envelope;
  }

  lemma {:induction false} SetAsideLive(env: Env, w: World, name: string, core: Fields)
    requires JobSound(w) && Live(w, name, core) && w.job.Moving? && w.job.src == Path(Pending, name)
    ensures Live(AdvanceStep(env, w), name, core)
  {
    hide Core;
  }

  lemma {:induction false} TurnLive(env: Env, w: World, name: string, resolved: Resolved, readyBlocked: bool, now: real,
                                    n: string, core: Fields)
    requires Safe(w) && Live(w, n, core)
    ensures Live(CaptureTurnStep(env, w, name, resolved, readyBlocked, now), n, core)
  {
    hide Safe, Core, RequestKept, CaptureKept, Live, KnownCapture, GivesUp, Counted, Postponed, ThisAttempt,
         FailedPending;
    var w' := CaptureTurnStep(env, w, name, resolved, readyBlocked, now);
    if w.job == Idle && name in w.popped {
      PoppedHolds(w, name);
      PendingHolds(w, name);
      if name == n {
        OwnTurnLive(env, w, name, resolved, readyBlocked, now, core);
      } else {
        SameCaptureLive(w, w', n, core);
      }
    }
  }

  lemma {:induction false} OwnTurnLive(env: Env, w: World, name: string, resolved: Resolved, readyBlocked: bool,
                                       now: real, core: Fields)
    requires Live(w, name, core) && w.job == Idle && name in w.popped
    requires Path(Pending, name) in w.disk && IsObject(w.disk[Path(Pending, name)])
    ensures Live(CaptureTurnStep(env, w, name, resolved, readyBlocked, now), name, core)
  {
    hide Core, GivesUp, Counted, Postponed, ThisAttempt, FailedPending;
    var o := w.popped[name];
    var reason := if Unresolved(resolved) then UnresolvedReason(resolved) else ReadyQueueUnavailable;
    PostponedKeepsCore(o, env.pc.parseInt, ThisAttempt(o, env.pc.parseInt), reason, now);
    FailedPendingKeepsCore(w, name, reason);
    FailedPendingKeepsCore(w, name, DigestMismatch);
    FailedPendingKeepsCore(w, name, InvalidSourceData);
  }

  /** The steps of enqueued requests and of the delivery worker. */
  predicate AboutRequests(act: Act) {
    act.EnqueueRequest? || act.Recover? || act.Claim? || act.Settle? || act.Submit? || act.Interrupt?
  }

  predicate LeavesCapture(w: World, w': World, name: string) {
    SameCapture(w, w', name) && (w'.job == w.job || Elsewhere(w', name))
  }

  lemma {:induction false} SettleLeaves(env: Env, w: World, now: real, name: string)
    ensures LeavesCapture(w, SettleStep(env, w, now), name)
  {
    hide Due, Stamped, FailedEnvelope, WithDelivery;
  }

  lemma {:induction false} SubmitLeaves(env: Env, w: World, n: string, reply: Reply, now: real, name: string)
    ensures LeavesCapture(w, SubmitStep(env, w, n, reply, now), name)
  {
    hide StoredAttempts, Delay, FailedEnvelope, Retried;
  }

  lemma {:induction false} RequestStepLive(env: Env, w: World, act: Act, name: string, core: Fields)
    requires Live(w, name, core) && AboutRequests(act)
    ensures Live(Step(env, w, act), name, core)
  {
    hide Live, SettleStep, SubmitStep, FailedEnvelope, Unclaimed, Envelope;
    var w' := Step(env, w, act);
    if act.Settle? {
      SettleLeaves(env, w, act.now, name);
    } else if act.Submit? {
      SubmitLeaves(env, w, act.name, act.reply, act.now, name);
    } else {
      assert LeavesCapture(w, w', name);
    }
    SameCaptureLive(w, w', name, core);
  }

  /** No step but an enqueue under its name displaces a live capture. */
  lemma {:induction false} StepLive(env: Env, w: World, act: Act, name: string, core: Fields)
    requires Safe(w) && Live(w, name, core) && !EnqueuesCapture(act, name)
    ensures Live(Step(env, w, act), name, core)
  {
    hide Safe, Live, Core, RequestKept, CaptureKept, CaptureTurnStep, AdvanceStep;
    match act
    case EnqueueCapture(n, payload) =>
      FailedPathDiffers(name, n);
      SameCaptureLive(w, Step(env, w, act), name, core);
    case ReadCapture(n) =>
      if n == name {
        ReadLive(w, name, core);
      } else {
        SameCaptureLive(w, Step(env, w, act), name, core);
      }
    case CaptureTurn(n, resolved, readyBlocked, now) => TurnLive(env, w, n, resolved, readyBlocked, now, name, core);
    case Advance => AdvanceLive(env, w, name, core);
    case _ => RequestStepLive(env, w, act, name, core);
  }

  lemma {:induction false} ReadLive(w: World, name: string, core: Fields)
    requires Live(w, name, core)
    ensures Live(ReadStep(w, name), name, core)
  {
    hide Core;
  }

  lemma {:induction false} PromotedStays(env: Env, w: World, act: Act, c: Captured)
    requires c in w.ledger.promoted
    ensures c in Step(env, w, act).ledger.promoted
  {
    hide Core, Due, Stamped, StoredAttempts, Delay, FailedEnvelope, Unclaimed, Envelope, Retried, WithDelivery, GivesUp,
         Counted, Postponed, FailedPending;
  }

  // ------------------------------------------------------------------------- whole runs

  /** Every capture of this name is the live one or was promoted. */
  predicate Covered(w: World, name: string, core: Fields) {
    forall c :: c in w.ledger.captures && c.name == name ==> c.core == core || c in w.ledger.promoted
  }

  ghost predicate InOrder(w: World, name: string) {
    || (forall c :: c in w.ledger.captures ==> c.name != name)
    || (exists core :: Live(w, name, core) && Covered(w, name, core))
  }

  /** Captures are enqueued under free names only. */
  ghost predicate EnqueuesAreFree(env: Env, acts: seq<Act>) {
    forall k :: 0 <= k < |acts| && acts[k].EnqueueCapture? ==> Free(Exec(env, FRESH, acts[..k]), acts[k].name)
  }

  lemma {:induction false} EnqueueLive(env: Env, w: World, name: string, payload: Fields)
    requires Safe(w) && InOrder(w, name) && Free(w, name)
    ensures var w' := Step(env, w, EnqueueCapture(name, payload));
      Live(w', name, Core(payload)) && Covered(w', name, Core(payload))
  {
    hide Safe, RequestKept, Core;
    EnqueuedAlone(env, w, name, payload);
    var w' := Step(env, w, EnqueueCapture(name, payload));
    forall c | c in w'.ledger.captures && c.name == name ensures c.core == Core(payload) || c in w'.ledger.promoted {
      if c in w.ledger.captures {
        var core :| Live(w, name, core) && Covered(w, name, core);
        assert Present(w, Captured(name, core)) && c == Captured(name, c.core);
      }
    }
  }

  lemma {:induction false} EnqueuedAlone(env: Env, w: World, name: string, payload: Fields)
    requires Free(w, name)
    ensures Live(Step(env, w, EnqueueCapture(name, payload)), name, Core(payload))
  {
    assert Core(PendingRecord(payload)) == Core(payload);
    hide Core, PendingRecord;
    var w' := Step(env, w, EnqueueCapture(name, payload));
    assert Holds(w'.disk[Path(Pending, name)], Core(payload));
  }

  lemma {:induction false} StepInOrder(env: Env, w: World, act: Act, name: string)
    requires Safe(w) && InOrder(w, name)
    requires act.EnqueueCapture? ==> Free(w, act.name)
    ensures InOrder(Step(env, w, act), name)
  {
    hide Safe, Live, Free, Step, Covered;
    var w' := Step(env, w, act);
    if EnqueuesCapture(act, name) {
      EnqueueLive(env, w, name, act.payload);
    } else {
      SameCaptures(env, w, act, name);
      if core :| Live(w, name, core) && Covered(w, name, core) {
        StepLive(env, w, act, name, core);
        StillCovered(env, w, act, name, core);
      }
    }
  }

  lemma {:induction false} SameCaptures(env: Env, w: World, act: Act, name: string)
    requires !EnqueuesCapture(act, name)
    ensures forall c: Captured ::
      c.name == name ==> (c in Step(env, w, act).ledger.captures <==> c in w.ledger.captures)
  {
    hide Core, Due, Stamped, StoredAttempts, Delay, FailedEnvelope, Unclaimed, Envelope, Retried, WithDelivery, GivesUp,
         Counted, Postponed, FailedPending;
  }

  lemma {:induction false} StillCovered(env: Env, w: World, act: Act, name: string, core: Fields)
    requires !EnqueuesCapture(act, name) && Covered(w, name, core)
    ensures Covered(Step(env, w, act), name, core)
  {
    hide Step;
    var w' := Step(env, w, act);
    SameCaptures(env, w, act, name);
    forall c | c in w'.ledger.captures && c.name == name ensures c.core == core || c in w'.ledger.promoted {
      if c in w.ledger.promoted {
        PromotedStays(env, w, act, c);
      }
    }
  }

  lemma {:induction false} RunInOrder(env: Env, acts: seq<Act>, name: string)
    requires EnqueuesAreFree(env, acts)
    ensures InOrder(Exec(env, FRESH, acts), name)
    decreases |acts|
  {
    hide Safe, Step, Free, Live, Covered;
    if acts != [] {
      var before, act := acts[..|acts| - 1], acts[|acts| - 1];
      forall k | 0 <= k < |before| && before[k].EnqueueCapture?
        ensures Free(Exec(env, FRESH, before[..k]), before[k].name)
      {
        assert before[..k] == acts[..k] && acts[k].EnqueueCapture?;
      }
      RunInOrder(env, before, name);
      RunsAreSafe(env, before);
      StepInOrder(env, Exec(env, FRESH, before), act, name);
    }
  }

  /** Over every run that enqueues captures under free names only, no capture is lost: its file
      waits in pending or failed with everything that was captured, or its request was enqueued
      under a name the spool keeps. */
  lemma {:induction false} NoCaptureIsLost(env: Env, acts: seq<Act>, c: Captured)
    requires EnqueuesAreFree(env, acts)
    ensures var w := Exec(env, FRESH, acts);
      c in w.ledger.captures ==>
        || HoldsAt(w, Path(Pending, c.name), c.core)
        || HoldsAt(w, FailedPendingPath(c.name), c.core)
        || (c in w.ledger.promoted && w.ledger.promoted[c] in w.ledger.accepted)
  {
    hide RequestKept, CaptureKept, JobSound, SentFaithful;
    var w := Exec(env, FRESH, acts);
    RunInOrder(env, acts, c.name);
    RunsAreSafe(env, acts);
    if c in w.ledger.captures {
      var core :| Live(w, c.name, core) && Covered(w, c.name, core);
      assert Present(w, c);
    }
  }

  lemma {:induction false} CapturesStay(env: Env, w: World, act: Act)
    ensures w.ledger.captures <= Step(env, w, act).ledger.captures
  {
    hide RecoverStep, SettleStep, SubmitStep, Envelope, Core;
    SettleKeepsLedger(env, w, act);
  }

  lemma {:induction false} SettleKeepsLedger(env: Env, w: World, act: Act)
    ensures act.Settle? ==> Step(env, w, act).ledger == w.ledger
    ensures act.Recover? ==> Step(env, w, act).ledger == w.ledger
    ensures act.Submit? ==> Step(env, w, act).ledger.captures == w.ledger.captures
  {
    hide Due, Stamped, FailedEnvelope, WithDelivery, Unclaimed, StoredAttempts, Delay, Retried, BadFileReason;
  }

  lemma {:induction false} CapturesStayOn(env: Env, w: World, acts: seq<Act>)
    ensures w.ledger.captures <= Exec(env, w, acts).ledger.captures
    decreases |acts|
  {
    hide Step;
    if acts != [] {
      var before := acts[..|acts| - 1];
      CapturesStayOn(env, w, before);
      CapturesStay(env, Exec(env, w, before), acts[|acts| - 1]);
    }
  }

  /** The file holds every member of the payload but the delivery part, and none besides it and a
      reason for failure. */
  ghost predicate SaysAll(f: File, payload: Fields) {
    IsObject(f) && AlikeBut(payload, f.value.fields, {"delivery", "failure_reason"})
  }

  /** Whatever was enqueued as a capture in such a run is on disk in the end, member by member, or
      its request was enqueued. */
  lemma {:induction false} CaptureSaysAll(env: Env, acts: seq<Act>, k: nat, name: string, payload: Fields)
    requires EnqueuesAreFree(env, acts) && k < |acts| && acts[k] == EnqueueCapture(name, payload)
    ensures var w, pending, failed := Exec(env, FRESH, acts), Path(Pending, name), Path(Failed, "pending-" + name);
      || (pending in w.disk && SaysAll(w.disk[pending], payload))
      || (failed in w.disk && SaysAll(w.disk[failed], payload))
      || exists c: Captured :: c.name == name && c.core == Core(payload) && c in w.ledger.promoted
           && w.ledger.promoted[c] in w.ledger.accepted
  {
    hide Step;
    var c := Captured(name, Core(payload));
    assert acts == acts[..k] + ([acts[k]] + acts[k + 1..]);
    var w := Exec(env, FRESH, acts[..k]);
    ExecConcat(env, FRESH, acts[..k], [acts[k]] + acts[k + 1..]);
    ExecFirst(env, w, acts[k], acts[k + 1..]);
    assert c in Step(env, w, acts[k]).ledger.captures by {
      EnqueueIsNoted(env, w, name, payload);
    }
    CapturesStayOn(env, Step(env, w, acts[k]), acts[k + 1..]);
    NoCaptureIsLost(env, acts, c);
    CoreSaysAll(payload);
  }

  lemma {:induction false} EnqueueIsNoted(env: Env, w: World, name: string, payload: Fields)
    ensures Captured(name, Core(payload)) in Step(env, w, EnqueueCapture(name, payload)).ledger.captures
  {
  }

  lemma {:induction false} CoreSaysAll(payload: Fields)
    ensures forall f: File :: IsObject(f) && Core(f.value.fields) == Core(payload) ==> SaysAll(f, payload)
  {
    forall f: File | IsObject(f) && Core(f.value.fields) == Core(payload) ensures SaysAll(f, payload) {
      var o := f.value.fields;
      forall key | key !in {"delivery", "failure_reason"}
        ensures (key in payload <==> key in o) && (key in payload ==> o[key] == payload[key])
      {
        assert key in payload <==> key in Core(payload);
        assert key in o <==> key in Core(o);
        assert key in payload ==> Core(payload)[key] == payload[key] && Core(o)[key] == o[key];
      }
    }
  }

  // -------------------------------------------------------------- using a name once more

  predicate EnqueuedIn(acts: seq<Act>, name: string) {
    exists k :: 0 <= k < |acts| && EnqueuesCapture(acts[k], name)
  }

  /** After a capture is enqueued under `name`, every capture of that name that was there, and
      the new one, stays whatever happens next, until the name is enqueued again. */
  ghost predicate KeepsAll(env: Env, w: World, name: string, payload: Fields) {
    forall rest: seq<Act>, c: Captured ::
      && c.name == name && (Present(w, c) || c.core == Core(payload)) && !EnqueuedIn(rest, name)
      ==> Present(Exec(env, Step(env, w, EnqueueCapture(name, payload)), rest), c)
  }

  lemma {:induction false} LiveThroughout(env: Env, w: World, rest: seq<Act>, name: string, core: Fields)
    requires Safe(w) && Live(w, name, core) && !EnqueuedIn(rest, name)
    ensures Live(Exec(env, w, rest), name, core) && Safe(Exec(env, w, rest))
    decreases |rest|
  {
    hide Safe, Live, Step, EnqueuesCapture;
    if rest != [] {
      var before, act := rest[..|rest| - 1], rest[|rest| - 1];
      forall k | 0 <= k < |before| ensures !EnqueuesCapture(before[k], name) {
        assert before[k] == rest[k];
      }
      LiveThroughout(env, w, before, name, core);
      StepLive(env, Exec(env, w, before), act, name, core);
      StepSafe(env, Exec(env, w, before), act);
    }
  }

  lemma {:induction false} PromotedThroughout(env: Env, w: World, rest: seq<Act>, c: Captured)
    requires c in w.ledger.promoted
    ensures c in Exec(env, w, rest).ledger.promoted
    decreases |rest|
  {
    hide Step;
    if rest != [] {
      PromotedThroughout(env, w, rest[..|rest| - 1], c);
      PromotedStays(env, Exec(env, w, rest[..|rest| - 1]), rest[|rest| - 1], c);
    }
  }

  lemma {:induction false} FreeKeepsAll(env: Env, w: World, name: string, payload: Fields)
    requires Safe(w) && Free(w, name)
    ensures KeepsAll(env, w, name, payload)
  {
    hide Safe, Live, Step, Core, EnqueuedIn;
    var w' := Step(env, w, EnqueueCapture(name, payload));
    EnqueuedAlone(env, w, name, payload);
    StepSafe(env, w, EnqueueCapture(name, payload));
    EnqueueKeepsPromoted(env, w, name, payload);
    forall rest: seq<Act>, c: Captured |
        c.name == name && (Present(w, c) || c.core == Core(payload)) && !EnqueuedIn(rest, name)
      ensures Present(Exec(env, w', rest), c)
    {
      if c.core == Core(payload) {
        LiveThroughout(env, w', rest, name, c.core);
        LiveIsPresent(Exec(env, w', rest), name, c.core);
      } else {
        FreePromoted(w, c);
        PromotedThroughout(env, w', rest, c);
      }
    }
  }

  lemma {:induction false} EnqueueKeepsPromoted(env: Env, w: World, name: string, payload: Fields)
    ensures Step(env, w, EnqueueCapture(name, payload)).ledger.promoted == w.ledger.promoted
  {
  }

  lemma {:induction false} LiveIsPresent(w: World, name: string, core: Fields)
    requires Live(w, name, core)
    ensures Present(w, Captured(name, core))
  {
  }

  lemma {:induction false} FreePromoted(w: World, c: Captured)
    requires Free(w, c.name) && Present(w, c)
    ensures c in w.ledger.promoted
  {
    hide Core;
    assert c == Captured(c.name, c.core);
  }

  /** A continuation that loses whatever the new capture displaces: the new one is read and set
      aside. */
  function Displacing(name: string): seq<Act> {
    [Interrupt, ReadCapture(name), CaptureTurn(name, BuildRejected(false), false, 0.0), Advance]
  }

  lemma {:induction false} Displaced(env: Env, w: World, name: string, payload: Fields, c: Captured)
    requires c.name == name && c.core != Core(payload) && c !in w.ledger.promoted
    ensures !Present(Exec(env, Step(env, w, EnqueueCapture(name, payload)), Displacing(name)), c)
  {
    hide Core, Step, PendingRecord, AdvanceStep, CaptureTurnStep;
    var w1 := Step(env, w, EnqueueCapture(name, payload));
    EnqueuedPending(env, w, name, payload);
    StepsDisplacing(env, w1, name);
    SetAsideDisplaces(env, Interrupted(w1), name, c);
  }

  lemma {:induction false} SetAsideDisplaces(env: Env, w: World, name: string, c: Captured)
    requires w.job == Idle && Path(Pending, name) in w.disk && IsObject(w.disk[Path(Pending, name)])
    requires c.name == name && c.core != Core(w.disk[Path(Pending, name)].value.fields) && c !in w.ledger.promoted
    ensures !Present(AdvanceStep(env, CaptureTurnStep(env, ReadStep(w, name), name, BuildRejected(false), false, 0.0)),
                     c)
  {
    hide Core, FailedPending;
    FailedPendingKeepsCore(w, name, InvalidSourceData);
  }

  lemma {:induction false} EnqueuedPending(env: Env, w: World, name: string, payload: Fields)
    ensures var w' := Step(env, w, EnqueueCapture(name, payload));
      && w'.disk == w.disk[Path(Pending, name) := Doc(Obj(PendingRecord(payload)))]
      && w'.ledger.promoted == w.ledger.promoted && Core(PendingRecord(payload)) == Core(payload)
  {
  }

  lemma {:induction false} StepsDisplacing(env: Env, w: World, name: string)
    ensures Exec(env, w, Displacing(name))
         == AdvanceStep(env,
                        CaptureTurnStep(env, ReadStep(Interrupted(w), name), name, BuildRejected(false), false, 0.0))
  {
    hide AdvanceStep, CaptureTurnStep, ReadStep, Interrupted;
    var acts := Displacing(name);
    assert acts[..3][..2] == acts[..2] && acts[..2][..1] == acts[..1] && acts[..1][..0] == [];
    assert Exec(env, w, acts[..1]) == Interrupted(w);
    assert Exec(env, w, acts[..2]) == ReadStep(Interrupted(w), name);
    assert Exec(env, w, acts[..3])
        == CaptureTurnStep(env, ReadStep(Interrupted(w), name), name, BuildRejected(false), false, 0.0);
  }

  // ------------------------------------------------- enqueuing while the worker is busy

  /** If the capture is anywhere, then in its pending file. */
  predicate OnlyPending(w: World, c: Captured) {
    && !HoldsAt(w, FailedPendingPath(c.name), c.core) && c !in w.ledger.promoted
    && (c.name in w.popped ==> Core(w.popped[c.name]) != c.core)
    && (w.job.Promoting? ==> w.job.capture != c)
    && (w.job.Moving? && w.job.src == Path(Pending, c.name) ==> Core(w.job.doc) != c.core)
    && (w.job.Moving? && w.job.src != Path(Pending, c.name) ==> w.job.dst != FailedPendingPath(c.name))
  }

  lemma {:induction false} MovesElsewhere(w: World, name: string)
    requires Safe(w) && w.job.Moving? && w.job.src != Path(Pending, name)
    ensures w.job.dst != FailedPendingPath(name)
  {
    hide RequestKept, CaptureKept, KnownCapture, Core;
    if w.job.src.dir == Inflight {
      AcceptedIsNoCapture(w, w.job.src.name);
      FailedPathDiffers(name, w.job.src.name);
    } else {
      FailedPathDiffers(name, w.job.src.name);
    }
  }

  lemma {:induction false} AdvanceOnlyPending(env: Env, w: World, c: Captured)
    requires OnlyPending(w, c)
    ensures OnlyPending(AdvanceStep(env, w), c) && AdvanceStep(env, w).popped == w.popped
  {
    hide Core, Envelope;
  }

  lemma {:induction false} SettleOnlyPending(env: Env, w: World, now: real, c: Captured)
    requires Safe(w) && OnlyPending(w, c)
    ensures OnlyPending(SettleStep(env, w, now), c) && SettleStep(env, w, now).popped == w.popped
  {
    hide Safe, Core, Due, Stamped, FailedEnvelope, WithDelivery, RequestKept, CaptureKept;
    if w.job.Claimed? && Path(Inflight, w.job.name) in w.disk {
      InflightCarries(w, w.job.name);
      AcceptedIsNoCapture(w, w.job.name);
      FailedPathDiffers(c.name, w.job.name);
    }
  }

  /** One act that brings the job under way closer to its end. */
  function Onward(w: World): Act {
    if w.job.Claimed? then Settle(0.0) else Advance
  }

  lemma {:induction false} OnwardStep(env: Env, w: World)
    requires JobSound(w) && w.job != Idle
    ensures Left(Step(env, w, Onward(w)).job) < Left(w.job)
  {
    hide Due, Stamped, FailedEnvelope, WithDelivery, Accept, Core;
  }

  /** A job that moves the capture's file away is done when the file is gone. */
  lemma {:induction false} OnwardBusy(env: Env, w: World, name: string)
    requires JobSound(w) && !Elsewhere(w, name)
    ensures var w' := Step(env, w, Onward(w)); !Elsewhere(w', name) || Path(Pending, name) !in w'.disk
  {
    hide Accept, Core;
  }

  lemma {:induction false} OnwardOnlyPending(env: Env, w: World, c: Captured)
    requires Safe(w) && w.job != Idle && OnlyPending(w, c)
    ensures var w' := Step(env, w, Onward(w)); OnlyPending(w', c) && w'.popped == w.popped && Safe(w')
  {
    hide Safe, OnlyPending, SettleStep, AdvanceStep;
    StepSafe(env, w, Onward(w));
    AdvanceOnlyPending(env, w, c);
    SettleOnlyPending(env, w, 0.0, c);
  }

  /** The job under way is brought to its end; a job on the capture drops its pending file. */
  lemma {:induction false} Finish(env: Env, w: World, c: Captured) returns (rest: seq<Act>)
    requires Safe(w) && OnlyPending(w, c)
    ensures !EnqueuedIn(rest, c.name)
    ensures var w' := Exec(env, w, rest);
      && Safe(w') && OnlyPending(w', c) && w'.job == Idle && w'.popped == w.popped
      && (!Elsewhere(w, c.name) ==> Path(Pending, c.name) !in w'.disk)
    decreases Left(w.job)
  {
    hide Safe, OnlyPending, Step, Elsewhere;
    JobIsSound(w);
    if w.job == Idle {
      rest := [];
      IdleElsewhere(w, c.name);
    } else {
      var act := Onward(w);
      var w1 := Step(env, w, act);
      OnwardStep(env, w);
      OnwardOnlyPending(env, w, c);
      if !Elsewhere(w, c.name) {
        OnwardBusy(env, w, c.name);
      }
      if w1.job == Idle {
        IdleElsewhere(w1, c.name);
        rest := [act];
        ExecFirst(env, w, act, []);
      } else {
        var more := Finish(env, w1, c);
        rest := [act] + more;
        ExecFirst(env, w, act, more);
        if !Elsewhere(w, c.name) && Elsewhere(w1, c.name) {
          OnwardEnds(env, w, c.name);
        }
      }
    }
  }

  lemma {:induction false} IdleElsewhere(w: World, name: string)
    requires w.job == Idle
    ensures Elsewhere(w, name)
  {
  }

  lemma {:induction false} OnwardEnds(env: Env, w: World, name: string)
    requires JobSound(w) && !Elsewhere(w, name) && Elsewhere(Step(env, w, Onward(w)), name)
    ensures Step(env, w, Onward(w)).job == Idle
  {
    hide Accept, Core;
  }

  /** The worker read this capture before: promoting what it read drops the file as it is now. */
  function Dropped(name: string): seq<Act> {
    [CaptureTurn(name, Built("0", map[]), false, 0.0), Advance, Advance]
  }

  lemma {:induction false} DropsPending(env: Env, w: World, c: Captured)
    requires OnlyPending(w, c) && w.job == Idle && c.name in w.popped
    ensures !Present(Exec(env, w, Dropped(c.name)), c)
  {
    hide Core, Envelope, GivesUp;
    var turn, acts := CaptureTurn(c.name, Built("0", map[]), false, 0.0), Dropped(c.name);
    ExecFirst(env, w, turn, [Advance, Advance]);
    assert acts == [turn] + [Advance, Advance];
    var w1 := CaptureTurnStep(env, w, c.name, Built("0", map[]), false, 0.0);
    assert w1.job == Promoting(Captured(c.name, Core(w.popped[c.name])), "0", map[], false);
    AdvanceTwice(env, w1);
    AdvanceOnlyPending(env, w1, c);
    AdvanceOnlyPending(env, AdvanceStep(env, w1), c);
  }

  lemma {:induction false} AdvanceTwice(env: Env, w: World)
    requires w.job.Promoting? && !w.job.copied
    ensures var w' := Exec(env, w, [Advance, Advance]);
      w' == AdvanceStep(env, AdvanceStep(env, w)) && Path(Pending, w.job.capture.name) !in w'.disk
  {
    ExecFirst(env, w, Advance, [Advance]);
    assert [Advance, Advance] == [Advance] + [Advance];
    ExecFirst(env, AdvanceStep(env, w), Advance, []);
    assert [Advance] + [] == [Advance];
  }

  lemma {:induction false} EnqueuedInConcat(a: seq<Act>, b: seq<Act>, name: string)
    requires !EnqueuedIn(a, name) && !EnqueuedIn(b, name)
    ensures !EnqueuedIn(a + b, name)
  {
    hide EnqueuesCapture;
  }

  /** While the worker handles a capture, a new one enqueued under its name can be dropped with
      the old file. */
  lemma {:induction false} BusyLoses(env: Env, w: World, name: string, payload: Fields) returns (rest: seq<Act>)
    requires Safe(w) && Busy(w, name) && Captured(name, Core(payload)) !in w.ledger.captures
    ensures !EnqueuedIn(rest, name)
    ensures !Present(Exec(env, Step(env, w, EnqueueCapture(name, payload)), rest), Captured(name, Core(payload)))
  {
    hide Safe, Core, Step, RequestKept, OnlyPending;
    var c := Captured(name, Core(payload));
    var w' := Step(env, w, EnqueueCapture(name, payload));
    StepSafe(env, w, EnqueueCapture(name, payload));
    NewIsOnlyPending(env, w, name, payload);
    rest := Finish(env, w', c);
    var done := Exec(env, w', rest);
    if name in w.popped {
      DropsPending(env, done, c);
      ExecConcat(env, w', rest, Dropped(name));
      EnqueuedInConcat(rest, Dropped(name), name);
      rest := rest + Dropped(name);
    } else {
      GoneFromPending(done, c);
    }
  }

  lemma {:induction false} GoneFromPending(w: World, c: Captured)
    requires OnlyPending(w, c) && Path(Pending, c.name) !in w.disk
    ensures !Present(w, c)
  {
    hide Core;
  }

  lemma {:induction false} NewIsOnlyPending(env: Env, w: World, name: string, payload: Fields)
    requires Safe(w) && Captured(name, Core(payload)) !in w.ledger.captures
    ensures var w' := Step(env, w, EnqueueCapture(name, payload));
      OnlyPending(w', Captured(name, Core(payload))) && w'.popped == w.popped && w'.job == w.job
  {
    hide Core, RequestKept, PendingRecord;
    assert CaptureKept(w, name);
    if w.job.Moving? && w.job.src != Path(Pending, name) {
      MovesElsewhere(w, name);
    }
    if Captured(name, Core(payload)) in w.ledger.promoted {
      PromotedKnown(w, Captured(name, Core(payload)));
    }
  }

  lemma {:induction false} PromotedKnown(w: World, c: Captured)
    requires Safe(w) && c in w.ledger.promoted
    ensures c in w.ledger.captures
  {
  }

  /** At any moment of any run: enqueuing something new under a name keeps every capture of that
      name, itself included, exactly when the worker is not handling the name and what stands
      under it in pending and failed was promoted already. In particular a capture whose file
      is still pending can be lost, and so can one that was set aside. */
  lemma {:induction false} ReenqueueKeepsIff(env: Env, acts: seq<Act>, name: string, payload: Fields)
    requires Captured(name, Core(payload)) !in Exec(env, FRESH, acts).ledger.captures
    ensures var w := Exec(env, FRESH, acts); KeepsAll(env, w, name, payload) <==> Free(w, name)
  {
    hide Safe, Core, Step, Displacing, RequestKept, Busy;
    var w := Exec(env, FRESH, acts);
    RunsAreSafe(env, acts);
    if Free(w, name) {
      FreeKeepsAll(env, w, name, payload);
    } else if Busy(w, name) {
      var rest := BusyLoses(env, w, name, payload);
      assert !EnqueuedIn(rest, name);
    } else {
      var p := if Spent(w, Path(Pending, name), name) then FailedPendingPath(name) else Path(Pending, name);
      CaptureFileKnown(w, name);
      var c := Captured(name, Core(w.disk[p].value.fields));
      assert Present(w, c);
      Displaced(env, w, name, payload, c);
      DisplacingEnqueuesNothing(name);
    }
  }

  lemma {:induction false} CaptureFileKnown(w: World, name: string)
    requires Safe(w)
    ensures Path(Pending, name) in w.disk ==> KnownFile(w, name, w.disk[Path(Pending, name)])
    ensures FailedPendingPath(name) in w.disk ==> KnownFile(w, name, w.disk[FailedPendingPath(name)])
  {
    assert CaptureKept(w, name);
  }

  lemma {:induction false} DisplacingEnqueuesNothing(name: string)
    ensures !EnqueuedIn(Displacing(name), name)
  {
  }

  /** The enqueue itself loses a capture at once exactly when the pending file it replaces was
      the only place of that capture. */
  lemma {:induction false} OverwriteLosesIff(env: Env, w: World, name: string, payload: Fields, c: Captured)
    requires Present(w, c)
    ensures !Present(Step(env, w, EnqueueCapture(name, payload)), c)
      <==> && c.name == name && Path(Pending, name) in w.disk && c.core != Core(payload)
           && !HoldsAt(w, FailedPendingPath(name), c.core) && c !in w.ledger.promoted
  {
    assert Core(PendingRecord(payload)) == Core(payload);
    hide Core, PendingRecord;
    FailedPathDiffers(c.name, name);
  }
}
