/** The pending worker: promotes deferred captures once their final event can be read back.
    What the resolver and the RawRound builder gave is an input, one result per item name. */
module PendingCapture {
  import opened Options
  import opened JsonValue
  import opened Disks
  import opened SpoolPlans
  import opened SpoolLimits
  import opened PendingQueue
  import opened FileSpools

  datatype Resolved =
    | ResolverRaised(locked: bool)
    | NoEvents
    | Unfinished
    | BuildRejected(digest: bool)
    | Built(key: string, request: Fields)

  /** No final event could be read back. */
  predicate Unresolved(r: Resolved) {
    r.ResolverRaised? || r.NoEvents? || r.Unfinished?
  }

  function UnresolvedReason(r: Resolved): Reason {
    if r == ResolverRaised(true) then StateDbLocked
    else if r.Unfinished? then FinalMessageNotCommitted
    else SourceRangeNotFound
  }

  datatype PendingConfig = PendingConfig(maxAttempts: nat, parseInt: string -> Option<int>)

  const BACKOFF: seq<real> := [1.0, 3.0, 10.0, 30.0, 120.0]

  /** `_attempt_number`: anything that is not a number, or is negative, counts as zero. */
  function AttemptNumber(delivery: Fields, parseInt: string -> Option<int>): nat {
    var n := if "attempts" in delivery then ToInt(delivery["attempts"], parseInt) else Some(0);
    if n.None? || n.value < 0 then 0 else n.value
  }

  function DeliveryOrFresh(o: Fields): Fields {
    if HasDelivery(o) then DeliveryOf(o) else FreshDelivery().fields
  }

  /** The number of this attempt. */
  function ThisAttempt(o: Fields, parseInt: string -> Option<int>): nat {
    AttemptNumber(DeliveryOrFresh(o), parseInt) + 1
  }

  /** The capture with this attempt counted. */
  function Counted(o: Fields, parseInt: string -> Option<int>): Fields {
    o["delivery" := Obj(DeliveryOrFresh(o)["attempts" := Num(ThisAttempt(o, parseInt) as real)])]
  }

  function Deadline(o: Fields, parse: string -> Option<real>): Option<real> {
    ToFloat(Get(DeliveryOf(o), "deadline_at"), parse)
  }

  function BackoffIndex(attempts: int): (i: nat)
    ensures i < |BACKOFF|
  {
    if attempts < 1 then 0 else if attempts - 1 < |BACKOFF| - 1 then attempts - 1 else |BACKOFF| - 1
  }

  /** The capture as written back for a later try. */
  function Postponed(o: Fields, attempts: int, reason: Reason, now: real): Fields {
    o["delivery" := Obj(DeliveryOf(o)["last_error" := Str(ReasonText(reason))]
                                     ["next_attempt_at" := Num(now + BACKOFF[BackoffIndex(attempts)])])]
  }

  predicate GivesUp(cfg: Config, pc: PendingConfig, o: Fields, attempts: int, untilDeadline: bool, now: real) {
    || (Deadline(o, cfg.parse).Some? && now >= Deadline(o, cfg.parse).value)
    || (!untilDeadline && attempts >= pc.maxAttempts)
  }

  /** `_retry_pending` on values. */
  ghost function RetryPendingPlan(cfg: Config, pc: PendingConfig, d: Disk, name: string, o: Fields, attempts: int,
                                  reason: Reason, untilDeadline: bool, now: real): Plan {
    if GivesUp(cfg, pc, o, attempts, untilDeadline, now) then FailPendingPlan(cfg, d, name, reason)
    else WritePlan(cfg, d, Path(Pending, name), Postponed(o, attempts, reason, now), {})
  }

  datatype Turn = Turn(plan: Plan, promoted: nat)

  /** One capture's turn in `run_once`. */
  ghost function TurnPlan(cfg: Config, pc: PendingConfig, d: Disk, item: Item, resolved: Resolved, now: real): Turn {
    var name := item.name;
    var o := Counted(item.payload, pc.parseInt);
    var attempts := ThisAttempt(item.payload, pc.parseInt);
    if Unresolved(resolved) then
      Turn(RetryPendingPlan(cfg, pc, d, name, o, attempts, UnresolvedReason(resolved), true, now), 0)
    else if resolved.BuildRejected? then
      Turn(FailPendingPlan(cfg, d, name, if resolved.digest then DigestMismatch else InvalidSourceData), 0)
    else
      var ready := WritePlan(cfg, d, Path(Ready, resolved.key), Envelope(resolved.request), {Path(Pending, name)});
      if ready.fault.Some? then
        Turn(RetryPendingPlan(cfg, pc, d, name, o, attempts, ReadyQueueUnavailable, false, now), 0)
      else
        Turn(Plan(ready.prims + [Unlink(Path(Pending, name))], None), 1)
  }

  ghost function TurnAll(cfg: Config, pc: PendingConfig, d: Disk, items: seq<Item>, resolve: string -> Resolved,
                         now: real): Turn
    decreases |items|
  {
    if items == [] then Turn(Plan([], None), 0)
    else
      var first := TurnPlan(cfg, pc, d, items[0], resolve(items[0].name), now);
      if first.plan.fault.Some? then first
      else ThenTurn(first, TurnAll(cfg, pc, Run(d, first.plan.prims), items[1..], resolve, now))
  }

  function ThenTurn(first: Turn, rest: Turn): Turn {
    Turn(ThenPlan(first.plan, rest.plan), first.promoted + rest.promoted)
  }

  lemma {:induction false} ThenTurnAssociative(a: Turn, b: Turn, c: Turn)
    requires a.plan.fault.None? && b.plan.fault.None?
    ensures ThenTurn(a, ThenTurn(b, c)) == ThenTurn(ThenTurn(a, b), c)
  {
    assert a.plan.prims + (b.plan.prims + c.plan.prims) == a.plan.prims + b.plan.prims + c.plan.prims;
  }

  class PendingCaptureWorker {
    const spool: FileSpool
    const pc: PendingConfig

    constructor (spool: FileSpool, maxAttempts: int, parseInt: string -> Option<int>)
      ensures this.spool == spool && pc == PendingConfig(AtLeastOne(maxAttempts), parseInt)
    {
      this.spool := spool;
      pc := PendingConfig(AtLeastOne(maxAttempts), parseInt);
    }

    method RetryPending(name: string, pending: Fields, attempts: int, reason: Reason, untilDeadline: bool, now: real)
      returns (fault: Option<Fault>)
      modifies spool
      ensures var d := old(spool.disk);
        var plan := RetryPendingPlan(spool.cfg, pc, d, name, pending, attempts, reason, untilDeadline, now);
        spool.Performed(plan.prims) && fault == plan.fault
    {
      hide Run, States, WritePlan, FailPendingPlan, Postponed, ToFloat;
      var delivery: Fields := map[];
      if Get(pending, "delivery").Obj? {
        delivery := pending["delivery"].fields;
      }
      var deadline := ToFloat(Get(delivery, "deadline_at"), spool.cfg.parse);
      if deadline.Some? && now >= deadline.value {
        fault := spool.FailPending(name, reason);
        return;
      }
      if !untilDeadline && attempts >= pc.maxAttempts {
        fault := spool.FailPending(name, reason);
        return;
      }
      fault := Postpone(name, pending, delivery, attempts, reason, now);
    }

    /** Notes the reason and the next due time, and writes the capture back. */
    method Postpone(name: string, pending: Fields, delivery: Fields, attempts: int, reason: Reason, now: real)
      returns (fault: Option<Fault>)
      requires delivery == DeliveryOf(pending)
      modifies spool
      ensures var postponed := Postponed(pending, attempts, reason, now);
        var plan := WritePlan(spool.cfg, old(spool.disk), Path(Pending, name), postponed, {});
        spool.Performed(plan.prims) && fault == plan.fault
    {
      hide Run, States, WritePlan;
      var noted := delivery["last_error" := Str(ReasonText(reason))];
      noted := noted["next_attempt_at" := Num(now + BACKOFF[BackoffIndex(attempts)])];
      fault := spool.RetryPending(name, pending["delivery" := Obj(noted)]);
    }

    method TakeTurn(item: Item, resolved: Resolved, now: real) returns (promoted: nat, fault: Option<Fault>)
      modifies spool
      ensures var did := TurnPlan(spool.cfg, pc, old(spool.disk), item, resolved, now);
        spool.Performed(did.plan.prims) && fault == did.plan.fault && promoted == did.promoted
    {
      hide Run, States, RetryPendingPlan, FailPendingPlan, WriteFault;
      promoted := 0;
      var name, pending := item.name, item.payload;
      if !Get(pending, "delivery").Obj? {
        pending := pending["delivery" := FreshDelivery()];
      }
      var delivery := pending["delivery"].fields;
      var attempts: int := AttemptNumber(delivery, pc.parseInt) + 1;
      delivery := delivery["attempts" := Num(attempts as real)];
      pending := pending["delivery" := Obj(delivery)];
      assert pending == Counted(item.payload, pc.parseInt);
      if Unresolved(resolved) {
        fault := RetryPending(name, pending, attempts, UnresolvedReason(resolved), true, now);
        return;
      }
      if resolved.BuildRejected? {
        fault := spool.FailPending(name, if resolved.digest then DigestMismatch else InvalidSourceData);
        return;
      }
      ghost var d0 := spool.disk;
      var unavailable := spool.EnqueueReady(resolved.key, resolved.request, {Path(Pending, name)});
      if unavailable.Some? {
        RunNothing(d0);
        assert spool.disk == d0 && spool.trace == old(spool.trace);
        fault := RetryPending(name, pending, attempts, ReadyQueueUnavailable, false, now);
        return;
      }
      RunConcat(d0, [Put(Path(Ready, resolved.key), Doc(Obj(Envelope(resolved.request))))],
                [Unlink(Path(Pending, name))]);
      spool.CompletePending(name);
      promoted := 1;
      fault := None;
    }

    /** Works through what `pop_pending` handed out, as it left the disk. `seen` tells apart the
        disks `pop_pending` left behind from those of the turns. */
    method RunOnce(resolve: string -> Resolved, now: real)
      returns (promoted: nat, fault: Option<Fault>, ghost items: seq<Item>, ghost popped: Disk, ghost seen: nat)
      modifies spool
      ensures fault.None? ==>
        exists due :: IsDueList(old(spool.disk), now, spool.cfg.parse, due) && items == First(ItemsOf(due), 10)
      ensures old(spool.trace) <= spool.trace && |old(spool.trace)| <= seen <= |spool.trace|
      ensures forall i :: |old(spool.trace)| <= i < seen ==> OnlyBadMoved(old(spool.disk), spool.trace[i])
      ensures OnlyBadMoved(old(spool.disk), popped)
      ensures var did := TurnAll(spool.cfg, pc, popped, items, resolve, now);
        && spool.disk == Run(popped, did.plan.prims) && spool.trace[seen..] == States(popped, did.plan.prims)
        && promoted == did.promoted && (did.plan.fault.Some? ==> fault == did.plan.fault)
      ensures Within(spool.cfg, old(spool.disk)) ==> spool.WithinSince(|old(spool.trace)|)
    {
      hide Run, States, TurnAll, TurnPlan, IsDueList, OnlyBadMoved, ItemsOf, First, Within, QueueCount;
      var got;
      got, fault := spool.PopPending(10, now);
      items, popped, promoted, seen := got, spool.disk, 0, |spool.trace|;
      RunNothing(popped);
      NoTurns(spool.cfg, pc, popped, resolve, now);
      if fault.Some? {
        return;
      }
      promoted, fault := TakeTurns(got, resolve, now);
      if Within(spool.cfg, old(spool.disk)) {
        TurnAllKeeps(spool.cfg, pc, popped, items, resolve, now);
      }
    }

    /** The loop over the captures handed out. */
    method TakeTurns(got: seq<Item>, resolve: string -> Resolved, now: real)
      returns (promoted: nat, fault: Option<Fault>)
      modifies spool
      ensures var did := TurnAll(spool.cfg, pc, old(spool.disk), got, resolve, now);
        spool.Performed(did.plan.prims) && promoted == did.promoted && fault == did.plan.fault
    {
      hide Run, States, TurnPlan;
      promoted, fault := 0, None;
      ghost var d0 := spool.disk;
      ghost var all := TurnAll(spool.cfg, pc, d0, got, resolve, now);
      ghost var done := Turn(Plan([], None), 0);
      RunNothing(d0);
      var i := 0;
      while i < |got|
        invariant 0 <= i <= |got|
        invariant fault.None?
        invariant done.plan.fault.None? && promoted == done.promoted
        invariant spool.Performed(done.plan.prims)
        invariant all == ThenTurn(done, TurnAll(spool.cfg, pc, spool.disk, got[i..], resolve, now))
      {
        ghost var before, tail := spool.disk, got[i..];
        assert tail[0] == got[i] && tail[1..] == got[i + 1..];
        ghost var step := TurnPlan(spool.cfg, pc, before, got[i], resolve(got[i].name), now);
        var one;
        one, fault := TakeTurn(got[i], resolve(got[i].name), now);
        RunConcat(d0, done.plan.prims, step.plan.prims);
        promoted := promoted + one;
        if fault.Some? {
          return;
        }
        ThenTurnAssociative(done, step, TurnAll(spool.cfg, pc, spool.disk, tail[1..], resolve, now));
        done := ThenTurn(done, step);
        i := i + 1;
      }
      assert all == done;
    }
  }

  lemma {:induction false} NoTurns(cfg: Config, pc: PendingConfig, d: Disk, resolve: string -> Resolved, now: real)
    ensures TurnAll(cfg, pc, d, [], resolve, now) == Turn(Plan([], None), 0)
  {
  }

  // ------------------------------------------------------------------------- queue limits

  lemma {:induction false} PromotionKeeps(cfg: Config, d: Disk, name: string, key: string, request: Fields)
    requires Within(cfg, d)
    ensures var ready := WritePlan(cfg, d, Path(Ready, key), Envelope(request), {Path(Pending, name)});
      ready.fault.None? ==> Keeps(cfg, d, ready.prims + [Unlink(Path(Pending, name))])
  {
    hide WriteFault, Run, States, Within;
    var p, dest := Path(Pending, name), Path(Ready, key);
    MoveWithin(cfg, d, p, dest, Envelope(request));
    if WriteFault(cfg, d, dest, Envelope(request), {p}).None? {
      var put := Put(dest, Doc(Obj(Envelope(request))));
      assert [put] + [Unlink(p)] == [put, Unlink(p)];
    }
  }

  /** One turn keeps the queue limits, however it ends. */
  lemma {:induction false} TurnKeeps(cfg: Config, pc: PendingConfig, d: Disk, item: Item, resolved: Resolved, now: real)
    requires Within(cfg, d)
    ensures Keeps(cfg, d, TurnPlan(cfg, pc, d, item, resolved, now).plan.prims)
  {
    hide Keeps, Within, FailPendingPlan, WritePlan, GivesUp, Counted, Postponed, ThisAttempt;
    var o := Counted(item.payload, pc.parseInt);
    var attempts := ThisAttempt(item.payload, pc.parseInt);
    forall reason ensures Keeps(cfg, d, FailPendingPlan(cfg, d, item.name, reason).prims) {
      FailPendingKeeps(cfg, d, item.name, reason);
    }
    forall reason: Reason
      ensures Keeps(cfg, d, WritePlan(cfg, d, Path(Pending, item.name), Postponed(o, attempts, reason, now), {}).prims)
    {
      WriteKeeps(cfg, d, Path(Pending, item.name), Postponed(o, attempts, reason, now));
    }
    if resolved.Built? {
      PromotionKeeps(cfg, d, item.name, resolved.key, resolved.request);
    }
  }

  /** A whole run of the pending worker keeps the queue limits, whatever the resolver gave and
      however it ends. */
  lemma {:induction false} TurnAllKeeps(cfg: Config, pc: PendingConfig, d: Disk, items: seq<Item>,
                                        resolve: string -> Resolved, now: real)
    requires Within(cfg, d)
    ensures Keeps(cfg, d, TurnAll(cfg, pc, d, items, resolve, now).plan.prims)
    decreases |items|
  {
    hide Run, States, Within, TurnPlan, QueueCount;
    RunNothing(d);
    if items != [] {
      var first := TurnPlan(cfg, pc, d, items[0], resolve(items[0].name), now);
      TurnKeeps(cfg, pc, d, items[0], resolve(items[0].name), now);
      if first.plan.fault.None? {
        var d1 := Run(d, first.plan.prims);
        TurnAllKeeps(cfg, pc, d1, items[1..], resolve, now);
        KeepsConcat(cfg, d, first.plan.prims, TurnAll(cfg, pc, d1, items[1..], resolve, now).plan.prims);
      }
    }
  }

  /** An unresolved capture is set aside exactly when it carries a deadline that has passed;
      otherwise it stays in the pending directory with a later due time. */
  lemma {:induction false} UnresolvedSetAsideIff(cfg: Config, pc: PendingConfig, d: Disk, item: Item,
                                                 resolved: Resolved, now: real)
    requires Unresolved(resolved)
    ensures var plan := TurnPlan(cfg, pc, d, item, resolved, now).plan;
      var deadline := Deadline(item.payload, cfg.parse);
      && ((deadline.Some? && now >= deadline.value) ==>
            plan == FailPendingPlan(cfg, d, item.name, UnresolvedReason(resolved)))
      && (!(deadline.Some? && now >= deadline.value) ==>
            exists o :: plan == WritePlan(cfg, d, Path(Pending, item.name), o, {})
              && NextAt(o, cfg.parse) > now && o - {"delivery"} == item.payload - {"delivery"}
              && Deadline(o, cfg.parse) == deadline)
  {
    var o := Counted(item.payload, pc.parseInt);
    var attempts := ThisAttempt(item.payload, pc.parseInt);
    assert Deadline(o, cfg.parse) == Deadline(item.payload, cfg.parse);
    var after := Postponed(o, attempts, UnresolvedReason(resolved), now);
    assert after - {"delivery"} == item.payload - {"delivery"};
    assert Deadline(after, cfg.parse) == Deadline(item.payload, cfg.parse);
    assert NextAt(after, cfg.parse) == now + BACKOFF[BackoffIndex(attempts)];
  }
}
