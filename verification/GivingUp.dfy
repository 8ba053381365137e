/** What becomes of a request while the network stays down: over every run, whatever else goes
    on in it, the request is never acknowledged, submitted at most max_attempts times, and
    exactly that often when it reaches the failed directory. */
module GivingUp {
  import opened Options
  import opened JsonValue
  import opened Disks
  import opened SpoolPlans
  import opened Delivery
  import opened PendingCapture
  import opened Protocol
  import opened Budget

  // ------------------------------------------------------------------------ polls of an item

  /** One poll of the item: it is claimed, and put back when it is not due; else it is submitted,
      without getting through. */
  function Cycle(env: Env, w: World, name: string, now: real): World {
    var held := SettleStep(env, ClaimStep(w, name), now);
    AdvanceStep(env, AdvanceStep(env, SubmitStep(env, held, name, NetworkOrUnauthorized, now)))
  }

  /** The item waits in the ready directory with `a` attempts behind it, due from `at` on. */
  predicate Waiting(env: Env, w: World, name: string, a: nat, at: real) {
    && w.job == Idle && name !in w.held && Path(Inflight, name) !in w.disk && Path(Failed, name) !in w.disk
    && Path(Ready, name) in w.disk && IsObject(w.disk[Path(Ready, name)])
    && var o := w.disk[Path(Ready, name)].value.fields;
      && Get(o, "request").Obj? && HasDelivery(o) && StoredAttempts(o, env.rc.parseInt) == Some(a)
      && Get(DeliveryOf(o), "next_attempt_at") == Num(at)
  }

  lemma {:induction false} WithDeliverySame(o: Fields)
    requires HasDelivery(o)
    ensures WithDelivery(o) == o
  {
  }

  lemma {:induction false} DueFrom(cfg: Config, o: Fields, at: real, now: real)
    requires HasDelivery(o) && Get(DeliveryOf(o), "next_attempt_at") == Num(at)
    ensures Due(cfg, o, now) <==> at <= now
  {
  }

  lemma {:induction false} StampKeeps(env: Env, o: Fields, now: real)
    requires HasDelivery(o)
    ensures var s := Stamped(env.cfg, o, now);
      Get(s, "request") == Get(o, "request") && HasDelivery(s)
      && StoredAttempts(s, env.rc.parseInt) == StoredAttempts(o, env.rc.parseInt)
  {
  }

  lemma {:induction false} RetriedWaits(env: Env, o: Fields, a: nat, at: real)
    requires Get(o, "request").Obj?
    ensures var r := Retried(o, a, at);
      && Get(r, "request") == Get(o, "request") && HasDelivery(r) && StoredAttempts(r, env.rc.parseInt) == Some(a)
      && Get(DeliveryOf(r), "next_attempt_at") == Num(at)
  {
    FloorOfInt(a);
  }

  /** Claimed, found due and handed out. */
  lemma {:induction false} TakenUp(env: Env, w: World, name: string, a: nat, at: real, now: real)
    requires Waiting(env, w, name, a, at) && at <= now
    ensures var o := w.disk[Path(Ready, name)].value.fields;
      var held := SettleStep(env, ClaimStep(w, name), now);
      && held.job == Idle && name in held.held && held.books.sent == w.books.sent
      && held.disk == (w.disk - {Path(Ready, name)})[Path(Inflight, name) := Doc(Obj(Stamped(env.cfg, o, now)))]
  {
    hide StoredAttempts, Stamped, WithDelivery, Due;
    var o := w.disk[Path(Ready, name)].value.fields;
    WithDeliverySame(o);
    DueFrom(env.cfg, o, at, now);
  }

  /** One more attempt: one more submission, and the item waits again, for longer. */
  lemma {:induction false} CycleRetries(env: Env, w: World, name: string, a: nat, at: real, now: real)
    requires Waiting(env, w, name, a, at) && at <= now && a < env.rc.maxAttempts
    ensures var w' := Cycle(env, w, name, now);
      && Waiting(env, w', name, a + 1, now + Delay(env.rc, a + 1))
      && Submissions(w'.books.sent, name) == Submissions(w.books.sent, name) + 1
  {
    hide StoredAttempts, Stamped, Delay, Retried, SettleStep, ClaimStep, HasDelivery, DeliveryOf;
    var o := w.disk[Path(Ready, name)].value.fields;
    var s := Stamped(env.cfg, o, now);
    var held := SettleStep(env, ClaimStep(w, name), now);
    TakenUp(env, w, name, a, at, now);
    StampKeeps(env, o, now);
    RetriedWaits(env, s, a + 1, now + Delay(env.rc, a + 1));
    var sub := SubmitStep(env, held, name, NetworkOrUnauthorized, now);
    SubmissionsAppend(held.books.sent, Submission(name, s["request"].fields), name);
    assert sub.job == BackToReady(name, Retried(s, a + 1, now + Delay(env.rc, a + 1)), true);
  }

  /** With max_attempts behind it the item is set aside without another submission. */
  lemma {:induction false} CycleGivesUp(env: Env, w: World, name: string, at: real, now: real)
    requires Waiting(env, w, name, env.rc.maxAttempts, at) && at <= now
    ensures var w' := Cycle(env, w, name, now);
      && w'.job == Idle && Path(Failed, name) in w'.disk && Path(Ready, name) !in w'.disk
      && Path(Inflight, name) !in w'.disk
      && w'.books.sent == w.books.sent
      && w'.disk[Path(Failed, name)]
         == Doc(Obj(Blamed(Stamped(env.cfg, w.disk[Path(Ready, name)].value.fields, now), MaxAttemptsExceeded)))
  {
    hide StoredAttempts, Stamped, Delay, Retried, SettleStep, ClaimStep, Blamed;
    var o := w.disk[Path(Ready, name)].value.fields;
    TakenUp(env, w, name, env.rc.maxAttempts, at, now);
    StampKeeps(env, o, now);
  }

  /** A poll that comes too early leaves the item waiting as it was. */
  lemma {:induction false} EarlyPoll(env: Env, w: World, name: string, a: nat, at: real, now: real)
    requires Waiting(env, w, name, a, at) && now < at
    ensures var w' := Cycle(env, w, name, now);
      Waiting(env, w', name, a, at) && w'.books.sent == w.books.sent
  {
    hide StoredAttempts, Stamped, Delay, Retried, WithDelivery, Due;
    var o := w.disk[Path(Ready, name)].value.fields;
    WithDeliverySame(o);
    DueFrom(env.cfg, o, at, now);
    var back := SettleStep(env, ClaimStep(w, name), now);
    assert back.job == BackToReady(name, o, false);
  }

  /** The item was set aside. */
  predicate SetAside(w: World, name: string) {
    && w.job == Idle && name !in w.held && Path(Failed, name) in w.disk
    && Path(Ready, name) !in w.disk && Path(Inflight, name) !in w.disk
  }

  /** Polling an item that was set aside does nothing. */
  lemma {:induction false} IdlePoll(env: Env, w: World, name: string, now: real)
    requires SetAside(w, name)
    ensures Cycle(env, w, name, now) == w
  {
  }

  /** One poll after the other. */
  function Polls(env: Env, w: World, name: string, times: seq<real>): World {
    if times == [] then w else Cycle(env, Polls(env, w, name, times[..|times| - 1]), name, times[|times| - 1])
  }

  /** How many of these polls find the item due, and when it is due next. */
  datatype Progress = Progress(duePolls: nat, at: real)

  function ProgressAfter(env: Env, times: seq<real>): Progress {
    if times == [] then Progress(0, 0.0)
    else
      var before, now := ProgressAfter(env, times[..|times| - 1]), times[|times| - 1];
      if before.at <= now then Progress(before.duePolls + 1, now + Delay(env.rc, before.duePolls + 1)) else before
  }

  /** Under any schedule of polls the number of those that find the item due decides: each of
      the first max_attempts is one submission, and the next one sets the item aside. */
  lemma {:induction false} PollsDecide(env: Env, w: World, name: string, times: seq<real>)
    requires Waiting(env, w, name, 0, 0.0)
    ensures var w', p := Polls(env, w, name, times), ProgressAfter(env, times);
      if p.duePolls <= env.rc.maxAttempts then
        Waiting(env, w', name, p.duePolls, p.at)
        && Submissions(w'.books.sent, name) == Submissions(w.books.sent, name) + p.duePolls
      else
        SetAside(w', name)
        && Submissions(w'.books.sent, name) == Submissions(w.books.sent, name) + env.rc.maxAttempts
    decreases |times|
  {
    hide Waiting, Cycle, Delay, Submissions, SetAside;
    if times != [] {
      var before, now := times[..|times| - 1], times[|times| - 1];
      PollsDecide(env, w, name, before);
      var wb, b := Polls(env, w, name, before), ProgressAfter(env, before);
      if b.duePolls > env.rc.maxAttempts {
        IdlePoll(env, wb, name, now);
      } else if now < b.at {
        EarlyPoll(env, wb, name, b.duePolls, b.at, now);
      } else if b.duePolls < env.rc.maxAttempts {
        CycleRetries(env, wb, name, b.duePolls, b.at, now);
      } else {
        CycleGivesUp(env, wb, name, b.at, now);
        GivenUp(env, wb, name, b.at, now);
      }
    }
  }

  lemma {:induction false} GivenUp(env: Env, w: World, name: string, at: real, now: real)
    requires Waiting(env, w, name, env.rc.maxAttempts, at) && at <= now
    ensures SetAside(Cycle(env, w, name, now), name)
  {
    hide StoredAttempts, Stamped, Delay, Retried, SettleStep, ClaimStep, Blamed;
    var o := w.disk[Path(Ready, name)].value.fields;
    TakenUp(env, w, name, env.rc.maxAttempts, at, now);
    StampKeeps(env, o, now);
  }

  /** A cycle is a run of the protocol. */
  lemma {:induction false} CycleIsARun(env: Env, w: World, name: string, now: real)
    ensures Cycle(env, w, name, now)
         == Exec(env, w, [Claim(name), Settle(now), Submit(name, NetworkOrUnauthorized, now), Advance, Advance])
  {
    hide ClaimStep, SettleStep, SubmitStep, AdvanceStep;
    var acts := [Claim(name), Settle(now), Submit(name, NetworkOrUnauthorized, now), Advance, Advance];
    assert acts[..4][..3] == acts[..3] && acts[..3][..2] == acts[..2];
    assert acts[..2][..1] == acts[..1] && acts[..1][..0] == [];
    assert Exec(env, w, acts[..1]) == ClaimStep(w, name);
    assert Exec(env, w, acts[..2]) == SettleStep(env, ClaimStep(w, name), now);
    assert Exec(env, w, acts[..3]) == SubmitStep(env, Exec(env, w, acts[..2]), name, NetworkOrUnauthorized, now);
    assert Exec(env, w, acts[..4]) == AdvanceStep(env, Exec(env, w, acts[..3]));
  }

  /** A freshly enqueued request waits with no attempt behind it. */
  lemma {:induction false} EnqueuedWaits(env: Env, w: World, name: string, request: Fields)
    requires w.job == Idle && name !in w.held && Path(Inflight, name) !in w.disk && Path(Failed, name) !in w.disk
    ensures Waiting(env, Accept(env, w, name, request), name, 0, 0.0)
  {
    FloorOfInt(0);
  }

  // ------------------------------------------------------------------------------- any run

  /** What the job under way does to the item, with the attempts a copy for another try records. */
  datatype Doing =
    | Nothing
    | Looking
    | SendingBack(attempts: Option<int>, copied: bool)
    | Quarantining(copied: bool)
    | Unlinking

  /** Where the item is. */
  datatype Stage = Stage(
    enqueues: nat,
    spent: nat,
    acked: bool,
    ready: Copy,
    inflight: Copy,
    failed: bool,
    held: bool,
    doing: Doing)

  function DoingTo(env: Env, w: World, name: string): Doing {
    match w.job
    case Claimed(n) => if n == name then Looking else Nothing
    case Dropping(n) => if n == name then Unlinking else Nothing
    case Moving(src, dst, doc, copied, _) =>
      if src != Path(Inflight, name) then Nothing
      else if dst == Path(Ready, name) then SendingBack(AttemptsIn(env, Doc(Obj(doc))), copied)
      else Quarantining(copied)
    case _ => Nothing
  }

  function StageOf(env: Env, w: World, name: string): Stage {
    Stage(CountOf(w.books.enqueues, name), Spent(w, name), name in w.ledger.acked,
          CopyAt(env, w, Path(Ready, name), 0), CopyAt(env, w, Path(Inflight, name), 0),
          Path(Failed, name) in w.disk && !PendingName(name), name in w.held, DoingTo(env, w, name))
  }

  /** An item enqueued once is in one place, the attempts it records are its submissions, and it
      is set aside with max_attempts of them only. */
  predicate OnCourse(max: nat, s: Stage) {
    var here, there := Copy(Some(s.spent), 0), s.inflight;
    if s.enqueues == 0 then s == Stage(0, 0, false, NoCopy, NoCopy, false, false, Nothing)
    else if s.enqueues == 1 then
      s.spent <= max && (
        || s == Stage(1, s.spent, false, here, NoCopy, false, false, Nothing)
        || s == Stage(1, s.spent, false, NoCopy, here, false, false, Looking)
        || s == Stage(1, s.spent, false, NoCopy, here, false, true, Nothing)
        || (there.Copy? && s == Stage(1, s.spent, false, NoCopy, there, false, false,
                                      SendingBack(Some(s.spent), false)))
        || (there.Copy? && s == Stage(1, s.spent, false, here, there, false, false, SendingBack(Some(s.spent), true)))
        || (there.Copy? && s == Stage(1, max, false, NoCopy, there, false, false, Quarantining(false)))
        || (there.Copy? && s == Stage(1, max, false, NoCopy, there, true, false, Quarantining(true)))
        || s == Stage(1, max, false, NoCopy, NoCopy, true, false, Nothing))
    else true
  }

  ghost predicate Going(env: Env, w: World, name: string) {
    OnCourse(env.rc.maxAttempts, StageOf(env, w, name))
  }

  lemma {:induction false} GoingMeans(env: Env, w: World, name: string)
    ensures Going(env, w, name) <==> OnCourse(env.rc.maxAttempts, StageOf(env, w, name))
  {
  }

  lemma {:induction false} AcceptGoing(env: Env, w: World, w': World, n: string, request: Fields, name: string)
    requires Going(env, w, name) && Accepting(env, w, w', n, request) && !PendingName(n)
    ensures Going(env, w', name)
  {
    hide AttemptsIn, Submissions, Envelope, Times;
    FreshAttempts(env, request);
    var s := StageOf(env, w, name);
    assert StageOf(env, w', name)
        == if n == name then s.(enqueues := s.enqueues + 1, ready := Copy(Some(0), 0)) else s;
  }

  lemma {:induction false} RecoverGoing(env: Env, w: World, n: string, name: string)
    requires Going(env, w, name)
    ensures Going(env, RecoverStep(w, n), name)
  {
    hide AttemptsIn, Submissions, FailedEnvelope, Unclaimed;
    var w' := RecoverStep(w, n);
    var s := StageOf(env, w, name);
    if n == name && Path(Inflight, n) in w.disk && n !in w.held && w.job == Idle {
      assert s.inflight.Copy? && !s.held && s.doing == Nothing;
      assert StageOf(env, w', name).enqueues == s.enqueues;
    } else {
      assert StageOf(env, w', name) == s;
    }
  }

  lemma {:induction false} ClaimGoing(env: Env, w: World, n: string, name: string)
    requires Going(env, w, name)
    ensures Going(env, ClaimStep(w, n), name)
  {
    hide AttemptsIn, Submissions;
    var w' := ClaimStep(w, n);
    var s := StageOf(env, w, name);
    if n == name && Path(Ready, n) in w.disk && n !in w.held && w.job == Idle {
      assert StageOf(env, w', name) == s.(ready := NoCopy, inflight := s.ready, doing := Looking);
    } else {
      assert StageOf(env, w', name) == s;
    }
  }

  lemma {:induction false} SettleGoing(env: Env, w: World, now: real, name: string)
    requires Safe(w) && Going(env, w, name)
    ensures Going(env, SettleStep(env, w, now), name)
  {
    hide AttemptsIn, Submissions, SettleStep, Safe, StageOf;
    var w' := SettleStep(env, w, now);
    SettleStage(env, w, now, name);
    GoingMeans(env, w, name);
    GoingMeans(env, w', name);
  }

  lemma {:induction false} SettleStage(env: Env, w: World, now: real, name: string)
    requires Safe(w)
    ensures var s, s' := StageOf(env, w, name), StageOf(env, SettleStep(env, w, now), name);
      || s' == s
      || (s.doing == Looking && s.inflight.Copy?
          && (s' == s.(held := true, doing := Nothing) || s' == s.(doing := SendingBack(s.inflight.attempts, false))))
  {
    hide AttemptsIn, Submissions, Due, Stamped, WithDelivery, FailedEnvelope, Safe;
    var w' := SettleStep(env, w, now);
    if w.job == Claimed(name) && Path(Inflight, name) in w.disk {
      InflightCarries(w, name);
      var o := w.disk[Path(Inflight, name)].value.fields;
      SameAttempts(env, o, now);
      SameAttempts(env, WithDelivery(o), now);
    } else {
      assert StageOf(env, w', name) == StageOf(env, w, name);
    }
  }

  lemma {:induction false} SubmitElsewhere(env: Env, w: World, n: string, reply: Reply, now: real, name: string)
    requires n != name && SubmitStep(env, w, n, reply, now).books.interruptions == w.books.interruptions
    ensures StageOf(env, SubmitStep(env, w, n, reply, now), name) == StageOf(env, w, name)
  {
    hide AttemptsIn, Submissions, SubmitStep, CopyAt, DoingTo;
    var w' := SubmitStep(env, w, n, reply, now);
    SubmitFrame(env, w, n, reply, now);
    SubmitJob(env, w, n, reply, now, name);
    SameCopies(env, w, w', name);
    if w'.books.sent != w.books.sent {
      SubmissionsAppend(w.books.sent, w'.books.sent[|w.books.sent|], name);
    }
  }

  /** What submitting one item leaves alone. */
  lemma {:induction false} SubmitFrame(env: Env, w: World, n: string, reply: Reply, now: real)
    ensures var w' := SubmitStep(env, w, n, reply, now);
      && w'.disk == w.disk && w'.books.enqueues == w.books.enqueues
      && (w'.books.interruptions == w.books.interruptions ==> w'.held == w.held || w'.held == w.held - {n})
      && (w'.ledger.acked == w.ledger.acked || w'.ledger.acked == w.ledger.acked + {n})
      && (w'.books.sent == w.books.sent
          || exists request :: w'.books.sent == w.books.sent + [Submission(n, request)])
  {
    hide StoredAttempts, ReplyJob, Quarantine;
  }

  lemma {:induction false} SubmitJob(env: Env, w: World, n: string, reply: Reply, now: real, name: string)
    requires n != name && SubmitStep(env, w, n, reply, now).books.interruptions == w.books.interruptions
    ensures DoingTo(env, SubmitStep(env, w, n, reply, now), name) == DoingTo(env, w, name)
  {
    hide AttemptsIn, StoredAttempts, Delay, Retried, FailedEnvelope;
  }

  lemma {:induction false} SameCopies(env: Env, w: World, w': World, name: string)
    requires w'.disk == w.disk
    ensures CopyAt(env, w', Path(Ready, name), 0) == CopyAt(env, w, Path(Ready, name), 0)
    ensures CopyAt(env, w', Path(Inflight, name), 0) == CopyAt(env, w, Path(Inflight, name), 0)
  {
    hide AttemptsIn;
  }

  lemma {:induction false} SubmitGoing(env: Env, w: World, name: string, now: real)
    requires Safe(w) && Going(env, w, name)
    requires SubmitStep(env, w, name, NetworkOrUnauthorized, now).books.interruptions == w.books.interruptions
    ensures Going(env, SubmitStep(env, w, name, NetworkOrUnauthorized, now), name)
  {
    hide Submissions, StoredAttempts, Delay, Retried, FailedEnvelope, Safe;
    var w' := SubmitStep(env, w, name, NetworkOrUnauthorized, now);
    var p, s := Path(Inflight, name), StageOf(env, w, name);
    if name in w.held && w.job == Idle && p in w.disk && IsObject(w.disk[p]) {
      InflightCarries(w, name);
      var o := w.disk[p].value.fields;
      var stored := StoredAttempts(o, env.rc.parseInt);
      if stored.value + 1 > env.rc.maxAttempts {
        assert StageOf(env, w', name) == s.(held := false, doing := Quarantining(false));
      } else if s.enqueues == 1 {
        RetriedAttempts(env, o, stored.value + 1, now + Delay(env.rc, stored.value + 1));
        SubmissionsAppend(w.books.sent, Submission(name, o["request"].fields), name);
        assert StageOf(env, w', name)
            == s.(spent := s.spent + 1, held := false, doing := SendingBack(Some(stored.value + 1), false));
      }
    }
  }

  lemma {:induction false} AdvanceGoing(env: Env, w: World, name: string)
    requires Safe(w) && Going(env, w, name)
    ensures Going(env, AdvanceStep(env, w), name)
  {
    hide AttemptsIn, Submissions, Safe, Accept, OnCourse;
    JobIsSound(w);
    var w' := AdvanceStep(env, w);
    if w.job.Promoting? && !w.job.copied {
      PromotionAccepts(env, w);
      AcceptGoing(env, w, w', w.job.key, w.job.request, name);
    } else {
      MoveGoing(env, w, name);
    }
  }

  lemma {:induction false} MoveGoing(env: Env, w: World, name: string)
    requires Safe(w) && Going(env, w, name) && !(w.job.Promoting? && !w.job.copied)
    ensures Going(env, AdvanceStep(env, w), name)
  {
    hide AttemptsIn, Submissions, AdvanceStep, StageOf, Safe;
    JobIsSound(w);
    if LeavesInflight(w, name) {
      AcceptedIsNoCapture(w, name);
    }
    MoveStage(env, w, name);
    GoingMeans(env, w, name);
    GoingMeans(env, AdvanceStep(env, w), name);
  }

  /** What one step of a job does to the item. */
  function Moved(s: Stage): Stage {
    match s.doing
    case SendingBack(attempts, copied) =>
      if copied then s.(inflight := NoCopy, doing := Nothing)
      else s.(ready := Copy(attempts, 0), doing := SendingBack(attempts, true))
    case Quarantining(copied) =>
      if copied then s.(inflight := NoCopy, doing := Nothing) else s.(failed := true, doing := Quarantining(true))
    case _ => s
  }

  lemma {:induction false} MoveStage(env: Env, w: World, name: string)
    requires JobSound(w) && !(w.job.Promoting? && !w.job.copied) && (LeavesInflight(w, name) ==> !PendingName(name))
    ensures var s, s' := StageOf(env, w, name), StageOf(env, AdvanceStep(env, w), name);
      s' == Moved(s) || (s.doing == Unlinking && s'.enqueues == s.enqueues)
  {
    hide AttemptsIn, Submissions;
    if LeavesInflight(w, name) {
      MoveOwnStage(env, w, name);
    } else if w.job != Dropping(name) {
      FailedPathDiffers(if w.job.Moving? then w.job.src.name else "", name);
    }
  }

  lemma {:induction false} MoveOwnStage(env: Env, w: World, name: string)
    requires JobSound(w) && LeavesInflight(w, name) && !PendingName(name)
    ensures var s, s' := StageOf(env, w, name), StageOf(env, AdvanceStep(env, w), name);
      s' == Moved(s)
  {
    hide AttemptsIn, Submissions;
  }

  lemma {:induction false} StepGoing(env: Env, w: World, act: Act, name: string)
    requires Safe(w) && Going(env, w, name) && Step(env, w, act).books.interruptions == 0
    requires act.Submit? && act.name == name ==> act.reply == NetworkOrUnauthorized
    ensures Going(env, Step(env, w, act), name)
  {
    hide Safe, Going, RecoverStep, ClaimStep, SettleStep, SubmitStep, ReadStep, CaptureTurnStep, AdvanceStep, Accept,
         PendingName;
    match act
    case EnqueueRequest(n, request) =>
      if !PendingName(n) {
        EnqueueAccepts(env, w, n, request);
        AcceptGoing(env, w, Accept(env, w, n, request), n, request, name);
      }
    case Recover(n) => RecoverGoing(env, w, n, name);
    case Claim(n) => ClaimGoing(env, w, n, name);
    case Settle(now) => SettleGoing(env, w, now, name);
    case Submit(n, reply, now) =>
      SubmitInterruptions(env, w, n, reply, now);
      if n == name {
        SubmitGoing(env, w, name, now);
      } else {
        SubmitElsewhere(env, w, n, reply, now, name);
        GoingMeans(env, w, name);
        GoingMeans(env, Step(env, w, act), name);
      }
    case Advance => AdvanceGoing(env, w, name);
    case Interrupt =>
    case _ =>
      CaptureStage(env, w, act, name);
      GoingMeans(env, w, name);
      GoingMeans(env, Step(env, w, act), name);
  }

  lemma {:induction false} SubmitInterruptions(env: Env, w: World, n: string, reply: Reply, now: real)
    ensures SubmitStep(env, w, n, reply, now).books.interruptions >= w.books.interruptions
  {
    hide StoredAttempts, Delay, Retried, FailedEnvelope;
  }

  /** What happens to captures does not touch a request, until one is promoted. */
  lemma {:induction false} CaptureStage(env: Env, w: World, act: Act, name: string)
    requires act.EnqueueCapture? || act.ReadCapture? || act.CaptureTurn?
    ensures StageOf(env, Step(env, w, act), name) == StageOf(env, w, name)
  {
    hide AttemptsIn, Submissions, GivesUp, Counted, Postponed, ThisAttempt, FailedPending, Core, PendingRecord;
  }

  /** The network stays down for this item. */
  predicate NetworkDown(acts: seq<Act>, name: string) {
    forall k :: 0 <= k < |acts| && acts[k].Submit? && acts[k].name == name ==> acts[k].reply == NetworkOrUnauthorized
  }

  lemma {:induction false} InterruptionsGrow(env: Env, w: World, act: Act)
    ensures Step(env, w, act).books.interruptions >= w.books.interruptions
  {
    hide AttemptsIn, StoredAttempts, Delay, Retried, FailedEnvelope, GivesUp, Counted, Postponed, ThisAttempt,
         FailedPending, Due, Stamped, WithDelivery, Core, Unclaimed, Times, Envelope;
  }

  lemma {:induction false} RunsGoing(env: Env, acts: seq<Act>, name: string)
    requires Exec(env, FRESH, acts).books.interruptions == 0 && NetworkDown(acts, name)
    ensures Going(env, Exec(env, FRESH, acts), name)
    decreases |acts|
  {
    hide Step, Safe, OnCourse;
    if acts == [] {
      BlankGoing(env, name);
    } else {
      var before, act := acts[..|acts| - 1], acts[|acts| - 1];
      InterruptionsGrow(env, Exec(env, FRESH, before), act);
      RunsGoing(env, before, name);
      RunsAreSafe(env, before);
      StepGoing(env, Exec(env, FRESH, before), act, name);
    }
  }

  lemma {:induction false} BlankGoing(env: Env, name: string)
    ensures Going(env, FRESH, name)
  {
  }

  /** While the network stays down for a request that was enqueued once, in any run without
      interruptions and whatever else happens in it: it is never acknowledged; it is submitted
      at most max_attempts times, exactly that often once it reaches the failed directory; and
      until then it is queued, with its submissions as its recorded attempts. */
  lemma {:induction false} FailsAfterMaxAttempts(env: Env, acts: seq<Act>, name: string)
    requires Exec(env, FRESH, acts).books.interruptions == 0 && NetworkDown(acts, name)
    requires CountOf(Exec(env, FRESH, acts).books.enqueues, name) == 1
    ensures var w := Exec(env, FRESH, acts);
      var submissions := Submissions(w.books.sent, name);
      && name !in w.ledger.acked && submissions <= env.rc.maxAttempts
      && (Path(Failed, name) in w.disk ==> submissions == env.rc.maxAttempts)
      && (Path(Failed, name) !in w.disk ==> Path(Ready, name) in w.disk || Path(Inflight, name) in w.disk)
      && (Path(Ready, name) in w.disk ==> AttemptsIn(env, w.disk[Path(Ready, name)]) == Some(submissions))
  {
    hide AttemptsIn, Submissions;
    RunsGoing(env, acts, name);
    EnqueuedIsAccepted(env, acts, name);
    RunsAreSafe(env, acts);
    AcceptedIsNoCapture(Exec(env, FRESH, acts), name);
  }

  lemma {:induction false} EnqueuedIsAccepted(env: Env, acts: seq<Act>, name: string)
    ensures var w := Exec(env, FRESH, acts);
      CountOf(w.books.enqueues, name) > 0 ==> name in w.ledger.accepted
    decreases |acts|
  {
    hide Step;
    if acts != [] {
      EnqueuedIsAccepted(env, acts[..|acts| - 1], name);
      StepAccepts(env, Exec(env, FRESH, acts[..|acts| - 1]), acts[|acts| - 1], name);
    }
  }

  lemma {:induction false} StepAccepts(env: Env, w: World, act: Act, name: string)
    requires CountOf(w.books.enqueues, name) > 0 ==> name in w.ledger.accepted
    ensures var w' := Step(env, w, act); CountOf(w'.books.enqueues, name) > 0 ==> name in w'.ledger.accepted
  {
    hide AttemptsIn, StoredAttempts, Delay, Retried, FailedEnvelope, GivesUp, Counted, Postponed, ThisAttempt,
         FailedPending, Due, Stamped, WithDelivery, Core, Unclaimed, Times, Envelope;
  }
}
