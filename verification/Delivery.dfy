/** The delivery worker: claims ready envelopes and submits each one's request. What the
    client answered is an input, one reply per item name. */
module Delivery {
  import opened Options
  import opened JsonValue
  import opened Disks
  import opened SpoolPlans
  import opened SpoolLimits
  import opened FileSpools

  datatype Reply = Accepted | Conflict | NetworkOrUnauthorized | OtherError

  datatype Retrying = Retrying(maxAttempts: nat, base: real, cap: real, parseInt: string -> Option<int>)

  /** 2 ** n, as a real. */
  function Power2(n: int): real
    decreases if n < 0 then -n else n
  {
    if n == 0 then 1.0 else if n > 0 then 2.0 * Power2(n - 1) else Power2(n + 1) / 2.0
  }

  function Min(a: real, b: real): real {
    if b < a then b else a
  }

  /** Back-off after the given number of attempts. */
  function Delay(rc: Retrying, attempts: int): real {
    Min(rc.cap, rc.base * Power2(attempts - 1))
  }

  /** `int(delivery.get("attempts", 0))`. */
  function StoredAttempts(o: Fields, parseInt: string -> Option<int>): Option<int> {
    if "attempts" in DeliveryOf(o) then ToInt(DeliveryOf(o)["attempts"], parseInt) else Some(0)
  }

  /** The envelope written back for another try: the request unchanged, everything else of the
      envelope dropped. */
  function Retried(o: Fields, attempts: int, at: real): Fields {
    map["request" := Get(o, "request"),
        "delivery" := Obj(DeliveryOf(o)["attempts" := Num(attempts as real)]["next_attempt_at" := Num(at)])]
  }

  datatype Attempt = Attempt(plan: Plan, submitted: bool)

  /** `_process` on values: what happens to one claimed item. */
  ghost function ProcessPlan(cfg: Config, rc: Retrying, d: Disk, item: Item, reply: Reply, now: real): Attempt {
    var name, o := item.name, item.payload;
    var stored := StoredAttempts(o, rc.parseInt);
    if !Get(o, "request").Obj? then Attempt(FailPlan(cfg, d, name, InvalidRequestEnvelope), false)
    else if stored.None? then Attempt(Plan([], Some(NotANumber)), false)
    else if stored.value + 1 > rc.maxAttempts then Attempt(FailPlan(cfg, d, name, MaxAttemptsExceeded), false)
    else
      var plan :=
        match reply
        case Accepted => Plan([Unlink(Path(Inflight, name))], None)
        case Conflict => FailPlan(cfg, d, name, SourceRoundConflict)
        case NetworkOrUnauthorized =>
          RetryPlan(cfg, d, name, Retried(o, stored.value + 1, now + Delay(rc, stored.value + 1)))
        case OtherError => FailPlan(cfg, d, name, DeliveryError);
      Attempt(plan, true)
  }

  datatype Sending = Sending(plan: Plan, sent: seq<Item>)

  /** The items in turn; a fault ends the call and leaves the rest claimed. */
  ghost function ProcessAll(cfg: Config, rc: Retrying, d: Disk, items: seq<Item>, replies: string -> Reply,
                            now: real): Sending
    decreases |items|
  {
    if items == [] then Sending(Plan([], None), [])
    else
      var first := SendingOf(ProcessPlan(cfg, rc, d, items[0], replies(items[0].name), now), items[0]);
      if first.plan.fault.Some? then first
      else ThenSending(first, ProcessAll(cfg, rc, Run(d, first.plan.prims), items[1..], replies, now))
  }

  class DeliveryWorker {
    const spool: FileSpool
    const rc: Retrying
    /** Envelopes whose request was handed to the client, in order. */
    ghost var sent: seq<Item>

    constructor (spool: FileSpool, maxAttempts: int, base: real, cap: real, parseInt: string -> Option<int>)
      ensures this.spool == spool && rc.maxAttempts == AtLeastOne(maxAttempts) && rc.parseInt == parseInt
      ensures rc.base == (if base < 0.01 then 0.01 else base) && rc.base <= rc.cap
      ensures cap >= rc.base ==> rc.cap == cap
      ensures sent == []
    {
      this.spool := spool;
      var floor := if base < 0.01 then 0.01 else base;
      rc := Retrying(AtLeastOne(maxAttempts), floor, if cap < floor then floor else cap, parseInt);
      sent := [];
    }

    method Process(item: Item, reply: Reply, now: real) returns (fault: Option<Fault>)
      modifies spool, this`sent
      ensures var did := ProcessPlan(spool.cfg, rc, old(spool.disk), item, reply, now);
        && spool.Performed(did.plan.prims) && fault == did.plan.fault
        && sent == old(sent) + if did.submitted then [item] else []
    {
      hide Run, States, FailPlan, RetryPlan, Power2;
      RunNothing(spool.disk);
      var name, envelope := item.name, item.payload;
      if !Get(envelope, "request").Obj? {
        fault := spool.Fail(name, InvalidRequestEnvelope);
        return;
      }
      var delivery: Fields := map[];
      if Get(envelope, "delivery").Obj? {
        delivery := envelope["delivery"].fields;
      }
      var stored := if "attempts" in delivery then ToInt(delivery["attempts"], rc.parseInt) else Some(0);
      if stored.None? {
        assert spool.trace == old(spool.trace) + [];
        return Some(NotANumber);
      }
      var attempts := stored.value + 1;
      delivery := delivery["attempts" := Num(attempts as real)];
      if attempts > rc.maxAttempts {
        fault := spool.Fail(name, MaxAttemptsExceeded);
        return;
      }
      sent := sent + [item];
      match reply
      case Accepted =>
        spool.Complete(name);
        fault := None;
      case Conflict =>
        fault := spool.Fail(name, SourceRoundConflict);
      case NetworkOrUnauthorized =>
        var delay := Min(rc.cap, rc.base * Power2(attempts - 1));
        delivery := delivery["next_attempt_at" := Num(now + delay)];
        var mutable: Fields := map["request" := envelope["request"], "delivery" := Obj(delivery)];
        assert delay == Delay(rc, attempts) && envelope["request"] == Get(envelope, "request");
        assert delivery
            == DeliveryOf(envelope)["attempts" := Num(attempts as real)]["next_attempt_at" := Num(now + delay)];
        assert mutable == Retried(envelope, attempts, now + Delay(rc, attempts));
        fault := spool.Retry(name, mutable);
      case OtherError =>
        fault := spool.Fail(name, DeliveryError);
    }

    method ProcessItems(items: seq<Item>, replies: string -> Reply, now: real) returns (fault: Option<Fault>)
      modifies spool, this`sent
      ensures var did := ProcessAll(spool.cfg, rc, old(spool.disk), items, replies, now);
        spool.Performed(did.plan.prims) && fault == did.plan.fault && sent == old(sent) + did.sent
    {
      hide Run, States, ProcessPlan, ThenSending, ProcessAll;
      ghost var d0 := spool.disk;
      ghost var all := ProcessAll(spool.cfg, rc, d0, items, replies, now);
      ghost var done := Sending(Plan([], None), []);
      RunNothing(d0);
      NothingSent(all);
      assert items[0..] == items;
      var i := 0;
      while i < |items|
        invariant 0 <= i <= |items|
        invariant done.plan.fault.None? && spool.Performed(done.plan.prims)
        invariant sent == old(sent) + done.sent
        invariant all == ThenSending(done, ProcessAll(spool.cfg, rc, spool.disk, items[i..], replies, now))
      {
        ghost var before := spool.disk;
        ghost var step := SendingOf(ProcessPlan(spool.cfg, rc, before, items[i], replies(items[i].name), now),
                                    items[i]);
        SendOne(spool.cfg, rc, d0, done, before, items[i..], replies, now);
        assert items[i..][1..] == items[i + 1..];
        fault := Process(items[i], replies(items[i].name), now);
        if fault.Some? {
          return;
        }
        done := ThenSending(done, step);
        i := i + 1;
      }
      fault := None;
      assert items[|items|..] == [];
      AllSent(spool.cfg, rc, spool.disk, done, replies, now);
    }

    method RunOnce(limit: int, replies: string -> Reply, now: real) returns (processed: bool, fault: Option<Fault>)
      modifies spool, this`sent
      ensures var did := RunOncePlan(spool.cfg, rc, old(spool.disk), limit, replies, now);
        spool.Performed(did.plan.prims) && fault == did.plan.fault && sent == old(sent) + did.sent
      ensures processed <==> PopReadyPlan(spool.cfg, old(spool.disk), limit, now).items != []
    {
      hide Run, States, ProcessAll, PopReadyPlan;
      var items;
      items, fault := spool.PopReady(limit, now);
      ghost var claims := PopReadyPlan(spool.cfg, old(spool.disk), limit, now);
      processed := items != [];
      if fault.None? {
        ghost var d1 := spool.disk;
        fault := ProcessItems(items, replies, now);
        RunConcat(old(spool.disk), claims.prims, ProcessAll(spool.cfg, rc, d1, items, replies, now).plan.prims);
      }
    }
  }

  function SendingOf(a: Attempt, item: Item): Sending {
    Sending(a.plan, if a.submitted then [item] else [])
  }

  function ThenSending(first: Sending, rest: Sending): Sending {
    Sending(ThenPlan(first.plan, rest.plan), first.sent + rest.sent)
  }

  lemma {:induction false} NothingSent(rest: Sending)
    ensures ThenSending(Sending(Plan([], None), []), rest) == rest
  {
  }

  lemma {:induction false} AllSent(cfg: Config, rc: Retrying, d: Disk, done: Sending, replies: string -> Reply,
                                   now: real)
    requires done.plan.fault.None?
    ensures ThenSending(done, ProcessAll(cfg, rc, d, [], replies, now)) == done
  {
  }

  /** One item, seen from the whole loop. */
  lemma {:induction false} SendOne(cfg: Config, rc: Retrying, d: Disk, done: Sending, before: Disk, items: seq<Item>,
                                   replies: string -> Reply, now: real)
    requires items != [] && done.plan.fault.None? && before == Run(d, done.plan.prims)
    ensures var step := SendingOf(ProcessPlan(cfg, rc, before, items[0], replies(items[0].name), now), items[0]);
      var all := ThenSending(done, ProcessAll(cfg, rc, before, items, replies, now));
      var next := ThenSending(done, step);
      && Run(d, done.plan.prims + step.plan.prims) == Run(before, step.plan.prims)
      && States(d, done.plan.prims + step.plan.prims) == States(d, done.plan.prims) + States(before, step.plan.prims)
      && next.plan.prims == done.plan.prims + step.plan.prims && next.plan.fault == step.plan.fault
      && next.sent == done.sent + step.sent
      && (step.plan.fault.Some? ==> all == next)
      && (step.plan.fault.None? ==>
            all == ThenSending(next, ProcessAll(cfg, rc, Run(before, step.plan.prims), items[1..], replies, now)))
  {
    hide Run, States, ProcessPlan;
    var step := SendingOf(ProcessPlan(cfg, rc, before, items[0], replies(items[0].name), now), items[0]);
    RunConcat(d, done.plan.prims, step.plan.prims);
    if step.plan.fault.None? {
      ThenSendingAssociative(done, step, ProcessAll(cfg, rc, Run(before, step.plan.prims), items[1..], replies, now));
    }
  }

  lemma {:induction false} ThenSendingAssociative(a: Sending, b: Sending, c: Sending)
    requires a.plan.fault.None? && b.plan.fault.None?
    ensures ThenSending(a, ThenSending(b, c)) == ThenSending(ThenSending(a, b), c)
  {
    assert a.plan.prims + (b.plan.prims + c.plan.prims) == a.plan.prims + b.plan.prims + c.plan.prims;
    assert a.sent + (b.sent + c.sent) == a.sent + b.sent + c.sent;
  }

  /** `run_once` on values. */
  ghost function RunOncePlan(cfg: Config, rc: Retrying, d: Disk, limit: int, replies: string -> Reply,
                             now: real): Sending
  {
    var claims := PopReadyPlan(cfg, d, limit, now);
    var claimed := Sending(Plan(claims.prims, claims.fault), []);
    if claims.fault.Some? then claimed
    else ThenSending(claimed, ProcessAll(cfg, rc, Run(d, claims.prims), claims.items, replies, now))
  }

  /** Delivery keeps the queue limits, whatever the replies and however it ends. */
  lemma {:induction false} ProcessAllKeeps(cfg: Config, rc: Retrying, d: Disk, items: seq<Item>,
                                           replies: string -> Reply, now: real)
    requires Within(cfg, d)
    ensures Keeps(cfg, d, ProcessAll(cfg, rc, d, items, replies, now).plan.prims)
    decreases |items|
  {
    hide Run, States, Within, FailPlan, RetryPlan, Power2, QueueCount;
    RunNothing(d);
    if items != [] {
      var name, o := items[0].name, items[0].payload;
      var first := ProcessPlan(cfg, rc, d, items[0], replies(name), now);
      forall reason ensures Keeps(cfg, d, FailPlan(cfg, d, name, reason).prims) {
        FailKeeps(cfg, d, name, reason);
      }
      forall payload ensures Keeps(cfg, d, RetryPlan(cfg, d, name, payload).prims) {
        RetryKeeps(cfg, d, name, payload);
      }
      UnlinkKeeps(cfg, d, Path(Inflight, name));
      if first.plan.fault.None? {
        var d1 := Run(d, first.plan.prims);
        ProcessAllKeeps(cfg, rc, d1, items[1..], replies, now);
        KeepsConcat(cfg, d, first.plan.prims, ProcessAll(cfg, rc, d1, items[1..], replies, now).plan.prims);
      }
    }
  }

  lemma {:induction false} RunOnceKeeps(cfg: Config, rc: Retrying, d: Disk, limit: int, replies: string -> Reply,
                                        now: real)
    requires Within(cfg, d)
    ensures Keeps(cfg, d, RunOncePlan(cfg, rc, d, limit, replies, now).plan.prims)
  {
    hide Run, States, Within, PopReadyPlan, ProcessAll;
    var claims := PopReadyPlan(cfg, d, limit, now);
    PopReadyKeeps(cfg, d, limit, now);
    if claims.fault.None? {
      ProcessAllKeeps(cfg, rc, Run(d, claims.prims), claims.items, replies, now);
      KeepsConcat(cfg, d, claims.prims,
        ProcessAll(cfg, rc, Run(d, claims.prims), claims.items, replies, now).plan.prims);
    }
  }

  lemma {:induction false} UnlinkKeeps(cfg: Config, d: Disk, p: Path)
    requires Within(cfg, d)
    ensures Keeps(cfg, d, [Unlink(p)])
  {
    RunOne(d, Unlink(p));
    UnlinkShrinks(cfg, d, p);
  }

  // ------------------------------------------------------------------------------ back-off

  lemma {:induction false} Power2Grows(a: nat, b: nat)
    requires a <= b
    ensures 1.0 <= Power2(a) <= Power2(b)
    decreases b
  {
    if b > 0 {
      if a == b {
        Power2Grows(a - 1, b - 1);
      } else {
        Power2Grows(a, b - 1);
      }
    }
  }

  /** Delays never shrink from one attempt to the next and stay within [base, cap]. */
  lemma {:induction false} DelaysGrowWithinBounds(rc: Retrying, a: nat, b: nat)
    requires 0.0 < rc.base <= rc.cap && 1 <= a <= b
    ensures rc.base <= Delay(rc, a) <= Delay(rc, b) <= rc.cap
  {
    Power2Grows(a - 1, b - 1);
    Scale(rc.base, 1.0, Power2(a - 1));
    Scale(rc.base, Power2(a - 1), Power2(b - 1));
  }

  lemma {:induction false} Scale(k: real, x: real, y: real)
    requires k > 0.0 && x <= y
    ensures k * x <= k * y
  {
  }
}
