/** What the two workers make of one item, read off the members of the envelope or capture they
    hold: where it ends, with which reason, count and due time. */
module WorkerFates {
  import opened Options
  import opened StringOrder
  import opened JsonValue
  import opened Disks
  import opened SpoolPlans
  import opened FileSpools
  import opened PendingQueue
  import opened Delivery
  import opened PendingCapture
  import opened Members
  import opened QueueFates

  /** Python's `int` reads the value as `n`: a number is cut off toward zero. */
  ghost predicate CutsTo(j: Json, n: int, parse: string -> Option<int>) {
    match j
    case Num(v) => if v >= 0.0 then n as real <= v < (n + 1) as real else (n - 1) as real < v <= n as real
    case Bool(b) => n == (if b then 1 else 0)
    case Str(s) => parse(s) == Some(n)
    case _ => false
  }

  /** The envelope counts `n` attempts; without a count it is none. */
  ghost predicate Counts(o: Fields, n: int, parse: string -> Option<int>) {
    if "delivery" in o && o["delivery"].Obj? && "attempts" in o["delivery"].fields then
      CutsTo(o["delivery"].fields["attempts"], n, parse)
    else n == 0
  }

  lemma {:induction false} ToIntCuts(j: Json, parse: string -> Option<int>)
    ensures forall n :: CutsTo(j, n, parse) <==> ToInt(j, parse) == Some(n)
  {
    if j.Num? {
      forall n ensures CutsTo(j, n, parse) <==> Truncate(j.v) == n {
        if j.v >= 0.0 {
          assert n as real <= j.v < (n + 1) as real <==> j.v.Floor == n;
        } else {
          assert -n as real <= -j.v < (-n + 1) as real <==> (-j.v).Floor == -n;
        }
      }
    }
  }

  lemma {:induction false} StoredCounts(o: Fields, parse: string -> Option<int>)
    ensures forall n :: Counts(o, n, parse) <==> StoredAttempts(o, parse) == Some(n)
  {
    if HasDelivery(o) && "attempts" in DeliveryOf(o) {
      ToIntCuts(DeliveryOf(o)["attempts"], parse);
    }
  }

  /** The envelope has left the inflight directory for `failed`, with the reason in its delivery
      part. */
  ghost predicate GivenUp(d: Disk, d': Disk, name: string, o: Fields, reason: string) {
    exists r: Fields ::
      && d' == d[Path(Failed, name) := Doc(Obj(r))] - {Path(Inflight, name)}
      && Redelivered(o, r, {"failure_reason"}) && Says(r["delivery"].fields, "failure_reason", Str(reason))
  }

  /** The envelope is back in the ready directory: its request, its delivery part with the new
      count and due time, and nothing else. */
  ghost predicate TriedAgainLater(d: Disk, d': Disk, name: string, o: Fields, attempts: int, at: real) {
    exists r: Fields ::
      && d' == d[Path(Ready, name) := Doc(Obj(r))] - {Path(Inflight, name)}
      && r.Keys == {"request", "delivery"} && "request" in o && r["request"] == o["request"] && r["delivery"].Obj?
      && AlikeBut(if "delivery" in o && o["delivery"].Obj? then o["delivery"].fields else map[],
                  r["delivery"].fields, {"attempts", "next_attempt_at"})
      && Says(r["delivery"].fields, "attempts", Num(attempts as real))
      && Says(r["delivery"].fields, "next_attempt_at", Num(at))
  }

  lemma {:induction false} FailGivesUp(cfg: Config, d: Disk, name: string, o: Fields, reason: Reason)
    requires Path(Inflight, name) in d && d[Path(Inflight, name)] == Doc(Obj(o))
    ensures var plan := FailPlan(cfg, d, name, reason);
      if plan.fault.Some? then plan.prims == []
      else GivenUp(d, Run(d, plan.prims), name, o, ReasonText(reason))
  {
    hide WriteFault, ReasonText;
    MoveStates(d, Path(Inflight, name), Path(Failed, name), Doc(Obj(Blamed(o, reason))));
    assert Redelivered(o, Blamed(o, reason), {"failure_reason"});
  }

  lemma {:induction false} RetryTriesAgain(cfg: Config, d: Disk, name: string, o: Fields, attempts: int, at: real)
    requires "request" in o
    ensures var plan := RetryPlan(cfg, d, name, Retried(o, attempts, at));
      if plan.fault.Some? then plan.prims == []
      else TriedAgainLater(d, Run(d, plan.prims), name, o, attempts, at)
  {
    hide WriteFault;
    MoveStates(d, Path(Inflight, name), Path(Ready, name), Doc(Obj(Retried(o, attempts, at))));
  }

  /** One claimed envelope, by its members and the reply. */
  lemma {:induction false} ProcessFates(cfg: Config, rc: Retrying, d: Disk, name: string, o: Fields, reply: Reply,
                                        now: real)
    requires Path(Inflight, name) in d && d[Path(Inflight, name)] == Doc(Obj(o))
    ensures var did := ProcessPlan(cfg, rc, d, Item(name, o), reply, now);
      var d' := Run(d, did.plan.prims);
      && (did.plan.fault.Some? ==> d' == d)
      && (if !("request" in o && o["request"].Obj?) then
            !did.submitted && (did.plan.fault.None? ==> GivenUp(d, d', name, o, "invalid_request_envelope"))
          else if forall n: int :: !Counts(o, n, rc.parseInt) then
            !did.submitted && did.plan.fault == Some(NotANumber)
          else
            forall n: int :: Counts(o, n, rc.parseInt) ==>
              && (did.submitted <==> n < rc.maxAttempts)
              && (did.plan.fault.None? ==>
                    if n >= rc.maxAttempts then GivenUp(d, d', name, o, "max_attempts_exceeded")
                    else
                      match reply
                      case Accepted => d' == d - {Path(Inflight, name)}
                      case Conflict => GivenUp(d, d', name, o, "source_round_conflict")
                      case NetworkOrUnauthorized =>
                        TriedAgainLater(d, d', name, o, n + 1, now + Delay(rc, n + 1))
                      case OtherError => GivenUp(d, d', name, o, "delivery_error")))
  {
    hide FailPlan, RetryPlan, Retried, Delay, GivenUp, TriedAgainLater, StoredAttempts, Counts, Run;
    StoredCounts(o, rc.parseInt);
    var stored := StoredAttempts(o, rc.parseInt);
    RunNothing(d);
    RunOne(d, Unlink(Path(Inflight, name)));
    forall reason: Reason
      ensures var plan := FailPlan(cfg, d, name, reason);
        if plan.fault.Some? then plan.prims == [] else GivenUp(d, Run(d, plan.prims), name, o, ReasonText(reason))
    {
      FailGivesUp(cfg, d, name, o, reason);
    }
    if "request" in o && stored.Some? {
      RetryTriesAgain(cfg, d, name, o, stored.value + 1, now + Delay(rc, stored.value + 1));
    }
  }

  /** The delay is the base at first and doubles up to the cap. */
  lemma {:induction false} DelayDoubles(rc: Retrying, n: nat)
    requires rc.cap >= 0.0 && n >= 1
    ensures Delay(rc, 1) == (if rc.cap < rc.base then rc.cap else rc.base)
    ensures rc.base >= 0.0 ==>
      Delay(rc, n + 1) == (if rc.cap < 2.0 * Delay(rc, n) then rc.cap else 2.0 * Delay(rc, n))
  {
    var p := Power2(n - 1);
    assert Power2(n) == 2.0 * p && rc.base * Power2(n) == 2.0 * (rc.base * p);
  }

  // ---------------------------------------------------------------------- the pending worker

  /** The capture's delivery part counts `n` attempts; what is no number, or negative, is none. */
  ghost predicate CountsSoFar(o: Fields, n: nat, parse: string -> Option<int>) {
    if exists k: nat :: Counts(o, k, parse) then Counts(o, n, parse) else n == 0
  }

  ghost predicate DeadlinePassed(cfg: Config, o: Fields, now: real) {
    exists t :: Reads(o, "deadline_at", t, cfg.parse) && now >= t
  }

  /** The waiting time after so many attempts. */
  function Wait(attempts: nat): real {
    if attempts <= 1 then 1.0 else if attempts == 2 then 3.0 else if attempts == 3 then 10.0
    else if attempts == 4 then 30.0 else 120.0
  }

  /** Nothing but the pending file has changed: it is the capture with this attempt counted, the
      reason noted, and a due time. */
  ghost predicate WrittenBack(d: Disk, d': Disk, name: string, o: Fields, attempts: nat, reason: string, now: real) {
    exists r: Fields ::
      && d' == d[Path(Pending, name) := Doc(Obj(r))]
      && Redelivered(o, r, {"attempts", "last_error", "next_attempt_at"})
      && Says(r["delivery"].fields, "attempts", Num(attempts as real))
      && Says(r["delivery"].fields, "last_error", Str(reason))
      && Says(r["delivery"].fields, "next_attempt_at", Num(now + Wait(attempts)))
  }

  /** What lies in the pending directory under the name is in `failed`, with the reason. */
  ghost predicate SetAsideFor(d: Disk, d': Disk, name: string, reason: string) {
    exists r: Fields ::
      && d' == d[Path(Failed, "pending-" + name) := Doc(Obj(r))] - {Path(Pending, name)}
      && Says(r, "failure_reason", Str(reason))
      && var p := Path(Pending, name);
         AlikeBut(if p in d && Readable(d[p]) then d[p].value.fields else map[], r, {"failure_reason"})
  }

  /** The request is in the ready directory, never tried and due at once. */
  ghost predicate Promoted(d: Disk, d': Disk, name: string, key: string, request: Fields) {
    d' == d[Path(Ready, key) := Doc(Obj(map[
            "request" := Obj(request),
            "delivery" := Obj(map["attempts" := Num(0.0), "next_attempt_at" := Num(0.0)])]))]
          - {Path(Pending, name)}
  }

  lemma {:induction false} FailSetsAside(cfg: Config, d: Disk, name: string, reason: Reason)
    ensures var plan := FailPendingPlan(cfg, d, name, reason);
      if plan.fault.Some? then plan.prims == [] else SetAsideFor(d, Run(d, plan.prims), name, ReasonText(reason))
  {
    hide WriteFault, ReasonText;
    MoveStates(d, Path(Pending, name), FailedPendingPath(name), Doc(Obj(FailedPending(d, name, reason))));
  }

  lemma {:induction false} PostponeWritesBack(cfg: Config, parseInt: string -> Option<int>, d: Disk, name: string,
                                              o: Fields, reason: Reason, now: real)
    ensures var n := ThisAttempt(o, parseInt);
      var plan := WritePlan(cfg, d, Path(Pending, name), Postponed(Counted(o, parseInt), n, reason, now), {});
      if plan.fault.Some? then plan.prims == []
      else WrittenBack(d, Run(d, plan.prims), name, o, n, ReasonText(reason), now)
  {
    hide WriteFault, ReasonText, ThisAttempt;
    var n := ThisAttempt(o, parseInt);
    var r := Postponed(Counted(o, parseInt), n, reason, now);
    RunOne(d, Put(Path(Pending, name), Doc(Obj(r))));
    assert Redelivered(o, r, {"attempts", "last_error", "next_attempt_at"});
    assert BACKOFF[BackoffIndex(n)] == Wait(n);
  }

  lemma {:induction false} AttemptCounts(o: Fields, n: nat, parse: string -> Option<int>)
    requires CountsSoFar(o, n, parse)
    ensures ThisAttempt(o, parse) == n + 1
  {
    var delivery := DeliveryOrFresh(o);
    FreshCount(parse);
    if "attempts" in delivery {
      ToIntCuts(delivery["attempts"], parse);
      if HasDelivery(o) {
        assert forall k: nat :: Counts(o, k, parse) <==> CutsTo(delivery["attempts"], k, parse);
      }
    }
    assert HasDelivery(o) || Counts(o, 0, parse);
    assert "attempts" in delivery || Counts(o, 0, parse);
  }

  lemma {:induction false} FreshCount(parse: string -> Option<int>)
    ensures AttemptNumber(FreshDelivery().fields, parse) == 0
  {
    assert Truncate(0.0) == 0;
  }

  lemma {:induction false} DeadlineReads(cfg: Config, parseInt: string -> Option<int>, o: Fields, now: real)
    ensures var at := Deadline(Counted(o, parseInt), cfg.parse);
      (at.Some? && now >= at.value) <==> DeadlinePassed(cfg, o, now)
  {
    hide ThisAttempt;
    var at := Deadline(Counted(o, parseInt), cfg.parse);
    assert forall t :: Reads(o, "deadline_at", t, cfg.parse) <==> at == Some(t);
  }

  /** One capture's turn, by the members of the capture the worker read and what the resolver
      and the builder gave. */
  lemma {:induction false} TurnFates(cfg: Config, pc: PendingConfig, d: Disk, name: string, o: Fields,
                                     resolved: Resolved, now: real, n: nat)
    requires CountsSoFar(o, n, pc.parseInt)
    ensures var turn := TurnPlan(cfg, pc, d, Item(name, o), resolved, now);
      var d', late := Run(d, turn.plan.prims), DeadlinePassed(cfg, o, now);
      && (turn.plan.fault.Some? ==> d' == d && turn.promoted == 0)
      && (turn.plan.fault.None? ==>
            match resolved
            case ResolverRaised(locked) =>
              var reason := if locked then "state_db_locked" else "source_range_not_found";
              && turn.promoted == 0
              && (if late then SetAsideFor(d, d', name, reason) else WrittenBack(d, d', name, o, n + 1, reason, now))
            case NoEvents =>
              && turn.promoted == 0
              && (if late then SetAsideFor(d, d', name, "source_range_not_found")
                  else WrittenBack(d, d', name, o, n + 1, "source_range_not_found", now))
            case Unfinished =>
              && turn.promoted == 0
              && (if late then SetAsideFor(d, d', name, "final_message_not_committed")
                  else WrittenBack(d, d', name, o, n + 1, "final_message_not_committed", now))
            case BuildRejected(digest) =>
              && turn.promoted == 0
              && SetAsideFor(d, d', name, if digest then "digest_mismatch" else "invalid_source_data")
            case Built(key, request) =>
              if Room(cfg, d, Path(Ready, key), Envelope(request), {Path(Pending, name)}) then
                turn.promoted == 1 && Promoted(d, d', name, key, request)
              else if late || n + 1 >= pc.maxAttempts then
                turn.promoted == 0 && SetAsideFor(d, d', name, "ready_queue_unavailable")
              else turn.promoted == 0 && WrittenBack(d, d', name, o, n + 1, "ready_queue_unavailable", now))
  {
    hide Run, WritePlan, FailPendingPlan, RetryPendingPlan, Counted, ThisAttempt, SetAsideFor, WrittenBack;
    hide DeadlinePassed, Room, CountsSoFar;
    AttemptCounts(o, n, pc.parseInt);
    RunNothing(d);
    match resolved {
      case BuildRejected(digest) =>
        FailSetsAside(cfg, d, name, if digest then DigestMismatch else InvalidSourceData);
      case Built(key, request) =>
        WriteAllowedIff(cfg, d, Path(Ready, key), Envelope(request), {Path(Pending, name)});
        PromotePromotes(cfg, d, name, key, request);
        RetryFates(cfg, pc, d, name, o, n, ReadyQueueUnavailable, false, now);
      case _ =>
        RetryFates(cfg, pc, d, name, o, n, UnresolvedReason(resolved), true, now);
    }
  }

  lemma {:induction false} RetryFates(cfg: Config, pc: PendingConfig, d: Disk, name: string, o: Fields, n: nat,
                                      reason: Reason, untilDeadline: bool, now: real)
    requires CountsSoFar(o, n, pc.parseInt)
    ensures var counted := Counted(o, pc.parseInt);
      var plan := RetryPendingPlan(cfg, pc, d, name, counted, n + 1, reason, untilDeadline, now);
      var d' := Run(d, plan.prims);
      if plan.fault.Some? then plan.prims == []
      else if DeadlinePassed(cfg, o, now) || (!untilDeadline && n + 1 >= pc.maxAttempts) then
        SetAsideFor(d, d', name, ReasonText(reason))
      else WrittenBack(d, d', name, o, n + 1, ReasonText(reason), now)
  {
    hide Run, WritePlan, FailPendingPlan, Postponed, Counted, ThisAttempt, SetAsideFor, WrittenBack, Deadline;
    hide DeadlinePassed, CountsSoFar;
    AttemptCounts(o, n, pc.parseInt);
    DeadlineReads(cfg, pc.parseInt, o, now);
    FailSetsAside(cfg, d, name, reason);
    PostponeWritesBack(cfg, pc.parseInt, d, name, o, reason, now);
  }

  lemma {:induction false} PromotePromotes(cfg: Config, d: Disk, name: string, key: string, request: Fields)
    ensures var ready := WritePlan(cfg, d, Path(Ready, key), Envelope(request), {Path(Pending, name)});
      ready.fault.None? ==> Promoted(d, Run(d, ready.prims + [Unlink(Path(Pending, name))]), name, key, request)
  {
    hide WriteFault;
    var put, drop := Put(Path(Ready, key), Doc(Obj(Envelope(request)))), Unlink(Path(Pending, name));
    MoveStates(d, Path(Pending, name), Path(Ready, key), Doc(Obj(Envelope(request))));
    assert [put] + [drop] == [put, drop];
  }

  // --------------------------------------------------------------------------- due captures

  /** The due time of a capture: what `float` reads, and zero for anything else. */
  ghost predicate DueFrom(o: Fields, t: real, parse: string -> Option<real>) {
    Reads(o, "next_attempt_at", t, parse) || (t == 0.0 && forall u :: !Reads(o, "next_attempt_at", u, parse))
  }

  lemma {:induction false} DueFromOnce(o: Fields, parse: string -> Option<real>)
    ensures DueFrom(o, NextAt(o, parse), parse)
    ensures forall t :: DueFrom(o, t, parse) ==> t == NextAt(o, parse)
  {
    if HasDelivery(o) && "next_attempt_at" in DeliveryOf(o) {
      var at := ToFloat(DeliveryOf(o)["next_attempt_at"], parse);
      assert forall t :: Reads(o, "next_attempt_at", t, parse) <==> at == Some(t);
    } else {
      assert forall t :: !Reads(o, "next_attempt_at", t, parse);
      assert NextAt(o, parse) == 0.0;
    }
  }

  /** The list of due captures, by their members: each readable capture whose due time has come,
      once, earlier ones first and those of one time by name. */
  lemma {:induction false} DueListFates(d: Disk, now: real, parse: string -> Option<real>, es: seq<Entry>)
    requires IsDueList(d, now, parse, es)
    ensures forall i :: 0 <= i < |es| ==> FoundAs(d, es[i].name, es[i].payload, es[i].at, parse)
    ensures forall name, o, t :: FoundAs(d, name, o, t, parse) ==>
      (t <= now <==> exists i :: 0 <= i < |es| && es[i].name == name)
    ensures forall i, j :: 0 <= i < j < |es| ==>
      es[i].at < es[j].at || (es[i].at == es[j].at && Leq(es[i].name, es[j].name) && es[i].name != es[j].name)
  {
    hide NextAt, Leq, DueFrom;
    forall i | 0 <= i < |es| ensures FoundAs(d, es[i].name, es[i].payload, es[i].at, parse) {
      assert es[i] in es;
      DueFromOnce(es[i].payload, parse);
    }
    forall name, o, t | FoundAs(d, name, o, t, parse)
      ensures t <= now <==> exists i :: 0 <= i < |es| && es[i].name == name
    {
      DueFromOnce(o, parse);
      if t <= now {
        assert IsDue(d, name, now, parse) && EntryOf(d, name, parse) in es;
      }
      forall i | 0 <= i < |es| && es[i].name == name ensures t <= now {
        assert es[i] in es && IsDue(d, name, now, parse);
      }
    }
  }

  /** The capture lies under this name and is due at this time. */
  ghost predicate FoundAs(d: Disk, name: string, o: Fields, t: real, parse: string -> Option<real>) {
    Path(Pending, name) in d && d[Path(Pending, name)] == Doc(Obj(o)) && DueFrom(o, t, parse)
  }

  /** A capture just stored: everything it said but its delivery part, which says that it has
      never been tried and is due from time zero. */
  lemma {:induction false} StoredCapture(cfg: Config, d: Disk, key: string, payload: Fields)
    requires WritePlan(cfg, d, Path(Pending, key), PendingRecord(payload), {}).fault.None?
    ensures var d' := Run(d, WritePlan(cfg, d, Path(Pending, key), PendingRecord(payload), {}).prims);
      exists r: Fields ::
        && d' == d[Path(Pending, key) := Doc(Obj(r))] && AlikeBut(payload, r, {"delivery"})
        && Says(r, "delivery", Obj(map["attempts" := Num(0.0), "next_attempt_at" := Num(0.0)]))
  {
    hide WriteFault;
    RunOne(d, Put(Path(Pending, key), Doc(Obj(PendingRecord(payload)))));
  }
}
