/** How often a request can be submitted: at most max_attempts times for each time it was
    enqueued, plus once for each interruption. */
module Budget {
  import opened Options
  import opened JsonValue
  import opened Disks
  import opened SpoolPlans
  import opened Delivery
  import opened PendingCapture
  import opened Protocol

  function AttemptsIn(env: Env, f: File): Option<int> {
    if IsObject(f) then StoredAttempts(f.value.fields, env.rc.parseInt) else None
  }

  /** One submission may be ahead of what the inflight file records. */
  function Lag(w: World, name: string): nat {
    if w.job == Dropping(name) || (w.job.Moving? && w.job.submitted && w.job.src == Path(Inflight, name)) then 1
    else 0
  }

  function Spent(w: World, name: string): nat {
    Submissions(w.books.sent, name)
  }

  datatype Copy = NoCopy | Copy(attempts: Option<int>, base: nat)

  /** All the numbers that matter for one request name. */
  datatype Meter = Meter(
    spent: nat,
    quota: nat,
    interruptions: nat,
    acked: bool,
    ready: Copy,
    inflight: Copy,
    lag: nat,
    held: bool,
    claimed: bool,
    moving: bool,
    retry: Copy)

  function CopyAt(env: Env, w: World, p: Path, base: nat): Copy {
    if p in w.disk then Copy(AttemptsIn(env, w.disk[p]), base) else NoCopy
  }

  predicate LeavesInflight(w: World, name: string) {
    w.job.Moving? && w.job.src == Path(Inflight, name)
  }

  /** The copy a move is about to write back to the ready directory. */
  function RetryCopy(env: Env, w: World, name: string): Copy {
    if LeavesInflight(w, name) && w.job.dst == Path(Ready, name) && !w.job.copied then
      Copy(AttemptsIn(env, Doc(Obj(w.job.doc))), CountOf(w.books.baseInflight, name))
    else NoCopy
  }

  function Reading(env: Env, w: World, name: string): Meter {
    Meter(Spent(w, name), Quota(env, w, name), w.books.interruptions, name in w.ledger.acked,
          CopyAt(env, w, Path(Ready, name), CountOf(w.books.baseReady, name)),
          CopyAt(env, w, Path(Inflight, name), CountOf(w.books.baseInflight, name)),
          Lag(w, name), name in w.held, w.job == Claimed(name), LeavesInflight(w, name), RetryCopy(env, w, name))
  }

  /** A queued copy records attempts that account for the submissions so far, and leaves room
      for max_attempts within the quota. */
  predicate CopyAccounts(max: nat, m: Meter, c: Copy, lag: nat) {
    c.Copy? ==>
      && c.attempts.Some? && c.attempts.value >= 0
      && m.spent <= c.attempts.value + c.base + m.interruptions + lag
      && c.base + max <= m.quota
  }

  predicate Balanced(max: nat, m: Meter) {
    && m.spent <= m.quota + m.interruptions
    && (m.acked ==> m.spent > 0)
    && CopyAccounts(max, m, m.ready, 0)
    && CopyAccounts(max, m, m.inflight, m.lag)
    && CopyAccounts(max, m, m.retry, 0)
    && ((m.held || m.claimed) && m.inflight.Copy? && m.ready.Copy? ==> m.inflight.base + max <= m.ready.base)
    && (m.claimed || m.moving ==> !m.held)
  }

  predicate Accounted(env: Env, w: World, name: string) {
    Balanced(env.rc.maxAttempts, Reading(env, w, name))
  }

  ghost predicate AllAccounted(env: Env, w: World) {
    forall name {:trigger Accounted(env, w, name)} :: Accounted(env, w, name)
  }

  lemma {:induction false} SubmissionsAppend(sent: seq<Submission>, s: Submission, name: string)
    ensures Submissions(sent + [s], name) == Submissions(sent, name) + if s.name == name then 1 else 0
  {
    assert (sent + [s])[..|sent|] == sent;
  }

  lemma {:induction false} FloorOfInt(n: nat)
    ensures Truncate(n as real) == n
  {
  }

  lemma {:induction false} FreshAttempts(env: Env, request: Fields)
    ensures AttemptsIn(env, Doc(Obj(Envelope(request)))) == Some(0)
  {
    FloorOfInt(0);
  }

  lemma {:induction false} SameAttempts(env: Env, o: Fields, now: real)
    ensures AttemptsIn(env, Doc(Obj(Unclaimed(o)))) == AttemptsIn(env, Doc(Obj(o)))
    ensures AttemptsIn(env, Doc(Obj(WithDelivery(o)))) == AttemptsIn(env, Doc(Obj(o)))
    ensures AttemptsIn(env, Doc(Obj(Stamped(env.cfg, o, now)))) == AttemptsIn(env, Doc(Obj(o)))
  {
  }

  lemma {:induction false} RetriedAttempts(env: Env, o: Fields, attempts: nat, at: real)
    ensures AttemptsIn(env, Doc(Obj(Retried(o, attempts, at)))) == Some(attempts)
  {
    FloorOfInt(attempts);
  }

  /** Enqueuing opens a new allowance: the fresh copy starts at what was granted before. */
  lemma {:induction false} AcceptAccounted(env: Env, w: World, w': World, name: string, request: Fields)
    requires AllAccounted(env, w) && Accepting(env, w, w', name, request)
    ensures AllAccounted(env, w')
  {
    hide AttemptsIn, Submissions, Accounted, Times, Reading, Accept;
    forall n ensures Accounted(env, w', n) {
      AccountedMeans(env, w, n);
      AccountedMeans(env, w', n);
      if n == name {
        AcceptReading(env, w, w', name, request);
      } else {
        AcceptReadingElsewhere(env, w, w', name, request, n);
      }
    }
  }

  lemma {:induction false} AcceptReading(env: Env, w: World, w': World, name: string, request: Fields)
    requires Accepting(env, w, w', name, request)
    ensures var m := Reading(env, w, name);
      Reading(env, w', name) == m.(quota := m.quota + env.rc.maxAttempts, ready := Copy(Some(0), m.quota))
  {
    hide AttemptsIn, Submissions;
    FreshAttempts(env, request);
  }

  lemma {:induction false} AcceptReadingElsewhere(env: Env, w: World, w': World, name: string, request: Fields,
                                                  n: string)
    requires Accepting(env, w, w', name, request) && n != name
    ensures Reading(env, w', n) == Reading(env, w, n)
  {
    hide AttemptsIn, Submissions, Times;
  }

  /** `w'` is `w` with a request accepted, as far as the accounts go. */
  predicate Accepting(env: Env, w: World, w': World, name: string, request: Fields) {
    var a := Accept(env, w, name, request);
    && w'.disk == a.disk && w'.books.baseReady == a.books.baseReady && w'.books.enqueues == a.books.enqueues
    && w'.books.baseInflight == w.books.baseInflight && w'.books.sent == w.books.sent
    && w'.ledger.acked == w.ledger.acked
    && w'.books.interruptions == w.books.interruptions && w'.held == w.held
    && (w'.job == w.job || (w.job.Promoting? && w'.job.Promoting?))
  }

  lemma {:induction false} AccountedMeans(env: Env, w: World, name: string)
    ensures Accounted(env, w, name) <==> Balanced(env.rc.maxAttempts, Reading(env, w, name))
  {
  }

  /** Starting to move an inflight file away; a copy going back to ready keeps its attempts. */
  lemma {:induction false} MoveStartAccounted(env: Env, w: World, w': World, name: string)
    requires AllAccounted(env, w) && (w.job == Idle || w.job == Claimed(name)) && name !in w'.held
    requires w'.disk == w.disk && w'.books.sent == w.books.sent && w'.books.enqueues == w.books.enqueues
    requires w'.ledger.acked == w.ledger.acked
    requires w'.books.baseReady == w.books.baseReady && w'.books.baseInflight == w.books.baseInflight
    requires w'.books.interruptions == w.books.interruptions
    requires forall n :: n != name ==> (n in w'.held <==> n in w.held)
    requires w'.job.Moving? && w'.job.src == Path(Inflight, name) && !w'.job.copied && !w'.job.submitted
    requires w'.job.dst == Path(Ready, name) ==>
      Path(Inflight, name) in w.disk
      && AttemptsIn(env, Doc(Obj(w'.job.doc))) == AttemptsIn(env, w.disk[Path(Inflight, name)])
    ensures AllAccounted(env, w')
  {
    hide AttemptsIn, Submissions, Times, Accounted;
    forall n ensures Accounted(env, w', n) {
      var m := Reading(env, w, n);
      AccountedMeans(env, w, n);
      AccountedMeans(env, w', n);
      assert Reading(env, w', n) == if n != name then m
        else m.(held := false, claimed := false, moving := true,
                retry := if w'.job.dst == Path(Ready, name) then m.inflight else NoCopy);
    }
  }

  lemma {:induction false} RecoverAccounted(env: Env, w: World, name: string)
    requires AllAccounted(env, w)
    ensures AllAccounted(env, RecoverStep(w, name))
  {
    hide AttemptsIn, AllAccounted, Unclaimed, FailedEnvelope, BadFileReason;
    var p := Path(Inflight, name);
    if p in w.disk && name !in w.held && w.job == Idle {
      if IsObject(w.disk[p]) {
        SameAttempts(env, w.disk[p].value.fields, 0.0);
      }
      MoveStartAccounted(env, w, RecoverStep(w, name), name);
    }
  }

  lemma {:induction false} ClaimAccounted(env: Env, w: World, name: string)
    requires AllAccounted(env, w)
    ensures AllAccounted(env, ClaimStep(w, name))
  {
    hide AttemptsIn, Submissions, Times, Accounted;
    var w' := ClaimStep(w, name);
    if Path(Ready, name) in w.disk && name !in w.held && w.job == Idle {
      forall n ensures Accounted(env, w', n) {
        var m := Reading(env, w, n);
        AccountedMeans(env, w, n);
        AccountedMeans(env, w', n);
        assert Reading(env, w', n) == if n != name then m
          else m.(ready := NoCopy, inflight := m.ready, claimed := true);
      }
    }
  }

  lemma {:induction false} StampAccounted(env: Env, w: World, w': World, name: string, f: File)
    requires AllAccounted(env, w) && w.job == Claimed(name) && Path(Inflight, name) in w.disk
    requires w' == w.(disk := w.disk[Path(Inflight, name) := f], job := Idle, held := w.held + {name})
    requires AttemptsIn(env, f) == AttemptsIn(env, w.disk[Path(Inflight, name)])
    ensures AllAccounted(env, w')
  {
    hide AttemptsIn, Submissions, Times, Accounted;
    forall n ensures Accounted(env, w', n) {
      var m := Reading(env, w, n);
      AccountedMeans(env, w, n);
      AccountedMeans(env, w', n);
      assert Reading(env, w', n) == if n != name then m else m.(claimed := false, held := true);
    }
  }

  lemma {:induction false} SettleAccounted(env: Env, w: World, now: real)
    requires AllAccounted(env, w)
    ensures AllAccounted(env, SettleStep(env, w, now))
  {
    hide AttemptsIn, AllAccounted, Due, Stamped, WithDelivery, FailedEnvelope, BadFileReason;
    var w' := SettleStep(env, w, now);
    if w.job.Claimed? && Path(Inflight, w.job.name) in w.disk {
      var name := w.job.name;
      var p := Path(Inflight, name);
      ClaimedNotHeld(env, w, name);
      if IsObject(w.disk[p]) {
        var o := w.disk[p].value.fields;
        SameAttempts(env, o, now);
        SameAttempts(env, WithDelivery(o), now);
        if Due(env.cfg, WithDelivery(o), now) {
          StampAccounted(env, w, w', name, Doc(Obj(Stamped(env.cfg, WithDelivery(o), now))));
        } else {
          MoveStartAccounted(env, w, w', name);
        }
      } else {
        MoveStartAccounted(env, w, w', name);
      }
    }
  }

  lemma {:induction false} ClaimedNotHeld(env: Env, w: World, name: string)
    requires AllAccounted(env, w) && w.job == Claimed(name)
    ensures name !in w.held
  {
    assert Accounted(env, w, name);
  }

  /** One more submission: the allowance of the submitted copy covers it. */
  lemma {:induction false} SubmittedAccounted(env: Env, w: World, w': World, name: string, a: int, s: Submission)
    requires AllAccounted(env, w) && w.job == Idle && name in w.held && s.name == name
    requires CopyAt(env, w, Path(Inflight, name), 0) == Copy(Some(a - 1), 0) && a <= env.rc.maxAttempts
    requires w'.disk == w.disk && w'.books.sent == w.books.sent + [s] && w'.books.enqueues == w.books.enqueues
    requires w'.ledger.acked == w.ledger.acked || w'.ledger.acked == w.ledger.acked + {name}
    requires w'.books.baseReady == w.books.baseReady && w'.books.baseInflight == w.books.baseInflight
    requires w'.books.interruptions == w.books.interruptions
    requires w'.held == w.held - {name}
    requires w'.job == Dropping(name)
          || (w'.job.Moving? && w'.job.src == Path(Inflight, name) && !w'.job.copied && w'.job.submitted
              && (w'.job.dst == Path(Ready, name) ==> AttemptsIn(env, Doc(Obj(w'.job.doc))) == Some(a)))
    ensures AllAccounted(env, w')
  {
    hide AttemptsIn, Submissions, Times, Accounted;
    forall n ensures Accounted(env, w', n) {
      var m := Reading(env, w, n);
      AccountedMeans(env, w, n);
      AccountedMeans(env, w', n);
      SubmissionsAppend(w.books.sent, s, n);
      assert Reading(env, w', n) ==
        if n != name then m
        else m.(spent := m.spent + 1, acked := name in w'.ledger.acked, lag := 1, held := false,
                moving := w'.job.Moving?,
                retry := if w'.job.Moving? && w'.job.dst == Path(Ready, name) then Copy(Some(a), m.inflight.base)
                         else NoCopy);
    }
  }

  lemma {:induction false} HeldAttempts(env: Env, w: World, name: string)
    requires AllAccounted(env, w) && Path(Inflight, name) in w.disk
    ensures var a := AttemptsIn(env, w.disk[Path(Inflight, name)]); a.Some? && a.value >= 0
  {
    assert Accounted(env, w, name);
  }

  lemma {:induction false} SubmitAccounted(env: Env, w: World, name: string, reply: Reply, now: real)
    requires AllAccounted(env, w)
    ensures AllAccounted(env, SubmitStep(env, w, name, reply, now))
  {
    hide AllAccounted, StoredAttempts, FailedEnvelope, Delay, Retried;
    var w' := SubmitStep(env, w, name, reply, now);
    var p := Path(Inflight, name);
    if name in w.held && w.job == Idle && p in w.disk && IsObject(w.disk[p]) {
      var o := w.disk[p].value.fields;
      HeldAttempts(env, w, name);
      var a := StoredAttempts(o, env.rc.parseInt).value + 1;
      RetriedAttempts(env, o, a, now + Delay(env.rc, a));
      if Get(o, "request").Obj? && a <= env.rc.maxAttempts {
        SubmittedAccounted(env, w, w', name, a, Submission(name, o["request"].fields));
      } else {
        MoveStartAccounted(env, w, w', name);
      }
    }
  }

  lemma {:induction false} CopyAccounted(env: Env, w: World)
    requires AllAccounted(env, w) && JobSound(w) && w.job.Moving? && !w.job.copied
    ensures AllAccounted(env, AdvanceStep(env, w))
  {
    hide AttemptsIn, Submissions, Times, Accounted;
    var w' := AdvanceStep(env, w);
    forall n ensures Accounted(env, w', n) {
      var m := Reading(env, w, n);
      AccountedMeans(env, w, n);
      AccountedMeans(env, w', n);
      assert Reading(env, w', n) ==
        if m.retry.Copy? then m.(ready := m.retry, retry := NoCopy) else m;
    }
  }

  lemma {:induction false} DropAccounted(env: Env, w: World)
    requires AllAccounted(env, w) && JobSound(w) && Left(w.job) == 1
    ensures AllAccounted(env, AdvanceStep(env, w))
  {
    hide AttemptsIn, Submissions, Times, Accounted;
    var w' := AdvanceStep(env, w);
    forall n ensures Accounted(env, w', n) {
      var m := Reading(env, w, n);
      AccountedMeans(env, w, n);
      AccountedMeans(env, w', n);
      var dropped := w.job == Dropping(n) || LeavesInflight(w, n);
      assert Reading(env, w', n) ==
        if dropped then m.(inflight := NoCopy, lag := 0, moving := false) else m;
    }
  }

  lemma {:induction false} AdvanceAccounted(env: Env, w: World)
    requires AllAccounted(env, w) && JobSound(w)
    ensures AllAccounted(env, AdvanceStep(env, w))
  {
    hide Accounted, JobSound, Accept;
    if w.job.Moving? && !w.job.copied {
      CopyAccounted(env, w);
    } else if w.job.Promoting? && !w.job.copied {
      PromotionAccepts(env, w);
      AcceptAccounted(env, w, AdvanceStep(env, w), w.job.key, w.job.request);
    } else if Left(w.job) == 1 {
      DropAccounted(env, w);
    }
  }

  lemma {:induction false} EnqueueAccepts(env: Env, w: World, name: string, request: Fields)
    ensures Accepting(env, w, Accept(env, w, name, request), name, request)
  {
  }

  lemma {:induction false} PromotionAccepts(env: Env, w: World)
    requires w.job.Promoting? && !w.job.copied
    ensures Accepting(env, w, AdvanceStep(env, w), w.job.key, w.job.request)
  {
  }

  /** Steps that touch neither the ready and inflight directories nor the books. */
  lemma {:induction false} OtherAccounted(env: Env, w: World, w': World)
    requires AllAccounted(env, w)
    requires w'.books.sent == w.books.sent && w'.books.enqueues == w.books.enqueues
    requires w'.books.interruptions == w.books.interruptions && w'.held == w.held
    requires w'.ledger.acked == w.ledger.acked && w'.books.baseReady == w.books.baseReady
    requires w'.books.baseInflight == w.books.baseInflight
    requires forall p: Path {:trigger SameFile(w, w', p)} :: p.dir == Ready || p.dir == Inflight ==> SameFile(w, w', p)
    requires w'.job == w.job || (w.job == Idle && (w'.job.Promoting? || (w'.job.Moving? && w'.job.src.dir == Pending)))
    ensures AllAccounted(env, w')
  {
    hide AttemptsIn, Submissions, Times, Accounted;
    forall n ensures Accounted(env, w', n) {
      AccountedMeans(env, w, n);
      AccountedMeans(env, w', n);
      assert SameFile(w, w', Path(Ready, n)) && SameFile(w, w', Path(Inflight, n));
      assert Reading(env, w', n) == Reading(env, w, n);
    }
  }

  predicate SameFile(w: World, w': World, p: Path) {
    (p in w.disk <==> p in w'.disk) && (p in w.disk ==> w.disk[p] == w'.disk[p])
  }

  lemma {:induction false} CaptureTurnAccounted(env: Env, w: World, name: string, resolved: Resolved,
                                                readyBlocked: bool, now: real)
    requires AllAccounted(env, w)
    ensures AllAccounted(env, CaptureTurnStep(env, w, name, resolved, readyBlocked, now))
  {
    hide Accounted, AllAccounted, GivesUp, Counted, Postponed, FailedPending, Unresolved, ThisAttempt;
    OtherAccounted(env, w, CaptureTurnStep(env, w, name, resolved, readyBlocked, now));
  }

  lemma {:induction false} InterruptAccounted(env: Env, w: World)
    requires AllAccounted(env, w)
    ensures AllAccounted(env, Step(env, w, Interrupt))
  {
    hide AttemptsIn, Submissions, Times, Accounted;
    var w' := Step(env, w, Interrupt);
    forall n ensures Accounted(env, w', n) {
      var m := Reading(env, w, n);
      AccountedMeans(env, w, n);
      AccountedMeans(env, w', n);
      assert Reading(env, w', n)
          == m.(interruptions := m.interruptions + 1, lag := 0, held := false, claimed := false, moving := false,
                retry := NoCopy);
    }
  }

  lemma {:induction false} StepAccounted(env: Env, w: World, act: Act)
    requires AllAccounted(env, w) && JobSound(w)
    ensures AllAccounted(env, Step(env, w, act))
  {
    hide AllAccounted, JobSound, RecoverStep, ClaimStep, SettleStep, SubmitStep, CaptureTurnStep, AdvanceStep, Accept,
         PendingName;
    match act
    case EnqueueRequest(name, request) =>
      if !PendingName(name) {
        EnqueueAccepts(env, w, name, request);
        AcceptAccounted(env, w, Accept(env, w, name, request), name, request);
      }
    case EnqueueCapture(name, payload) => OtherAccounted(env, w, Step(env, w, act));
    case Recover(name) => RecoverAccounted(env, w, name);
    case Claim(name) => ClaimAccounted(env, w, name);
    case Settle(now) => SettleAccounted(env, w, now);
    case Submit(name, reply, now) => SubmitAccounted(env, w, name, reply, now);
    case ReadCapture(name) => OtherAccounted(env, w, Step(env, w, act));
    case CaptureTurn(name, resolved, readyBlocked, now) =>
      CaptureTurnAccounted(env, w, name, resolved, readyBlocked, now);
    case Advance => AdvanceAccounted(env, w);
    case Interrupt => InterruptAccounted(env, w);
  }

  lemma {:induction false} RunsAreAccounted(env: Env, acts: seq<Act>)
    ensures AllAccounted(env, Exec(env, FRESH, acts))
    decreases |acts|
  {
    if acts == [] {
      forall n ensures Accounted(env, FRESH, n) {
      }
    } else {
      var before := acts[..|acts| - 1];
      RunsAreAccounted(env, before);
      RunsAreSafe(env, before);
      KeptIsAllKept(Exec(env, FRESH, before));
      StepAccounted(env, Exec(env, FRESH, before), acts[|acts| - 1]);
    }
  }

  lemma {:induction false} TimesIsProduct(n: nat, max: nat)
    ensures Times(n, max) == n * max
  {
    if n > 0 {
      TimesIsProduct(n - 1, max);
    }
  }

  /** Over every run: submissions are at most max_attempts per enqueue, plus one for each
      crash or exception that interrupted the worker. */
  lemma {:induction false} SubmissionsBounded(env: Env, acts: seq<Act>, name: string)
    ensures var w := Exec(env, FRESH, acts);
      Submissions(w.books.sent, name) <= CountOf(w.books.enqueues, name) * env.rc.maxAttempts + w.books.interruptions
  {
    RunsAreAccounted(env, acts);
    var w := Exec(env, FRESH, acts);
    assert Accounted(env, w, name);
    TimesIsProduct(CountOf(w.books.enqueues, name), env.rc.maxAttempts);
  }

  /** What counts as acknowledged was submitted. */
  lemma {:induction false} AcknowledgedWasSubmitted(env: Env, acts: seq<Act>, name: string)
    ensures var w := Exec(env, FRESH, acts); name in w.ledger.acked ==> Submissions(w.books.sent, name) > 0
  {
    RunsAreAccounted(env, acts);
    assert Accounted(env, Exec(env, FRESH, acts), name);
  }
}
