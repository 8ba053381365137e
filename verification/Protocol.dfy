/** The spool as a protocol: hooks enqueue at any moment and under any name, one worker claims,
    submits, retries, quarantines, reads captures and promotes them, and the process can be
    interrupted between any two file primitives. Each step changes the disk by at most one
    primitive. An interruption is a crash or an exception that leaves the worker's loop: it
    keeps the disk and forgets the worker's memory. */
module Protocol {
  import opened Options
  import opened JsonValue
  import opened Disks
  import opened SpoolPlans
  import opened Delivery
  import opened PendingCapture

  datatype Env = Env(cfg: Config, rc: Retrying, pc: PendingConfig)

  /** A capture as it was enqueued: the name of its file, and what must not change of it. */
  datatype Captured = Captured(name: string, core: Fields)

  datatype Job =
    | Idle
      // renamed into the inflight directory, not looked at yet
    | Claimed(name: string)
      // copy under `dst`, then unlink `src`; `submitted` when the copy records an attempt
    | Moving(src: Path, dst: Path, doc: Fields, copied: bool, submitted: bool)
      // delivered; the inflight file is still to be unlinked
    | Dropping(name: string)
      // put the capture's request into the ready directory, then unlink the pending file
    | Promoting(capture: Captured, key: string, request: Fields, copied: bool)

  datatype Submission = Submission(name: string, request: Fields)

  /** What was put into the spool, and what became of it: the requests that went into the ready
      directory under each name, the captures, and under which ready name each was promoted. */
  datatype Ledger = Ledger(
    accepted: map<string, set<Fields>>,
    captures: set<Captured>,
    promoted: map<Captured, string>,
    acked: set<string>)

  /** Submissions, and what the attempt counts are measured against. */
  datatype Books = Books(
    sent: seq<Submission>,
    enqueues: map<string, nat>,
    baseReady: map<string, nat>,
    baseInflight: map<string, nat>,
    interruptions: nat)

  /** The disk, the worker's memory (claimed items, captures as they were read), and the
      history the properties speak of. */
  datatype World = World(disk: Disk, job: Job, held: set<string>, popped: map<string, Fields>,
                         ledger: Ledger, books: Books)

  const FRESH := World(map[], Idle, {}, map[], Ledger(map[], {}, map[], {}), Books([], map[], map[], map[], 0))

  datatype Act =
    | EnqueueRequest(name: string, request: Fields)
    | EnqueueCapture(name: string, payload: Fields)
    | Recover(name: string)
    | Claim(name: string)
    | Settle(now: real)
    | Submit(name: string, reply: Reply, now: real)
    | ReadCapture(name: string)
    | CaptureTurn(name: string, resolved: Resolved, readyBlocked: bool, now: real)
    | Advance
    | Interrupt

  function CountOf(m: map<string, nat>, name: string): nat {
    if name in m then m[name] else 0
  }

  /** `n` times `max`. */
  function Times(n: nat, max: nat): nat {
    if n == 0 then 0 else Times(n - 1, max) + max
  }

  function Quota(env: Env, w: World, name: string): nat {
    Times(CountOf(w.books.enqueues, name), env.rc.maxAttempts)
  }

  function Submissions(sent: seq<Submission>, name: string): nat {
    if sent == [] then 0
    else Submissions(sent[..|sent| - 1], name) + if sent[|sent| - 1].name == name then 1 else 0
  }

  /** File names that quarantined captures use. */
  predicate PendingName(name: string) {
    "pending-" <= name
  }

  /** Everything of a capture that deferral and promotion must not change. */
  function Core(o: Fields): Fields {
    o - {"delivery", "failure_reason"}
  }

  /** The requests that went into the ready directory under `name`. */
  function AcceptedAs(w: World, name: string): set<Fields> {
    if name in w.ledger.accepted then w.ledger.accepted[name] else {}
  }

  // -------------------------------------------------------------------------------- steps

  /** A request lands in the ready directory under `name`, whatever was there before. */
  function Accept(env: Env, w: World, name: string, request: Fields): World {
    w.(disk := w.disk[Path(Ready, name) := Doc(Obj(Envelope(request)))],
       ledger := w.ledger.(accepted := w.ledger.accepted[name := AcceptedAs(w, name) + {request}]),
       books := w.books.(baseReady := w.books.baseReady[name := Quota(env, w, name)],
                         enqueues := w.books.enqueues[name := CountOf(w.books.enqueues, name) + 1]))
  }

  function Quarantine(w: World, name: string, reason: Reason, submitted: bool): Job {
    var source := FailSource(w.disk, name);
    Moving(source, Path(Failed, name), FailedEnvelope(w.disk, source, reason), false, submitted)
  }

  function BackToReady(name: string, doc: Fields, submitted: bool): Job {
    Moving(Path(Inflight, name), Path(Ready, name), doc, false, submitted)
  }

  function SetAsideCapture(w: World, name: string, reason: Reason): World {
    w.(job := Moving(Path(Pending, name), FailedPendingPath(name), FailedPending(w.disk, name, reason), false, false))
  }

  /** The worker's memory is gone, the disk is not. */
  function Interrupted(w: World): World {
    w.(job := Idle, held := {}, popped := map[], books := w.books.(interruptions := w.books.interruptions + 1))
  }

  function RecoverStep(w: World, name: string): World {
    var p := Path(Inflight, name);
    if p !in w.disk || name in w.held || w.job != Idle then w
    else if !IsObject(w.disk[p]) then w.(job := Quarantine(w, name, BadFileReason(w.disk, p), false))
    else w.(job := BackToReady(name, Unclaimed(w.disk[p].value.fields), false))
  }

  function ClaimStep(w: World, name: string): World {
    if Path(Ready, name) !in w.disk || name in w.held || w.job != Idle then w
    else
      w.(disk := Apply(w.disk, ClaimPrim(name)), job := Claimed(name),
         books := w.books.(baseInflight := w.books.baseInflight[name := CountOf(w.books.baseReady, name)]))
  }

  function SettleStep(env: Env, w: World, now: real): World {
    if !w.job.Claimed? || Path(Inflight, w.job.name) !in w.disk then w
    else
      var name := w.job.name;
      var p := Path(Inflight, name);
      if !IsObject(w.disk[p]) then w.(job := Quarantine(w, name, BadFileReason(w.disk, p), false))
      else
        var o := WithDelivery(w.disk[p].value.fields);
        if !Due(env.cfg, o, now) then w.(job := BackToReady(name, o, false))
        else w.(disk := w.disk[p := Doc(Obj(Stamped(env.cfg, o, now)))], job := Idle, held := w.held + {name})
  }

  /** The job a submission leads to. */
  function ReplyJob(env: Env, w: World, name: string, o: Fields, attempts: int, reply: Reply, now: real): Job {
    match reply
    case Accepted => Dropping(name)
    case Conflict => Quarantine(w, name, SourceRoundConflict, true)
    case NetworkOrUnauthorized => BackToReady(name, Retried(o, attempts, now + Delay(env.rc, attempts)), true)
    case OtherError => Quarantine(w, name, DeliveryError, true)
  }

  function SubmitStep(env: Env, w: World, name: string, reply: Reply, now: real): World {
    var p := Path(Inflight, name);
    if name !in w.held || w.job != Idle || p !in w.disk || !IsObject(w.disk[p]) then w
    else
      var o := w.disk[p].value.fields;
      var stored := StoredAttempts(o, env.rc.parseInt);
      if !Get(o, "request").Obj? then
        w.(held := w.held - {name}, job := Quarantine(w, name, InvalidRequestEnvelope, false))
      else if stored.None? then
        Interrupted(w)
      else if stored.value + 1 > env.rc.maxAttempts then
        w.(held := w.held - {name}, job := Quarantine(w, name, MaxAttemptsExceeded, false))
      else
        w.(held := w.held - {name},
           books := w.books.(sent := w.books.sent + [Submission(name, o["request"].fields)]),
           ledger := if reply.Accepted? then w.ledger.(acked := w.ledger.acked + {name}) else w.ledger,
           job := ReplyJob(env, w, name, o, stored.value + 1, reply, now))
  }

  /** A capture is read; its file stays where it is. */
  function ReadStep(w: World, name: string): World {
    var p := Path(Pending, name);
    if w.job != Idle || p !in w.disk || !IsObject(w.disk[p]) then w
    else w.(popped := w.popped[name := w.disk[p].value.fields])
  }

  /** What was read is written back, or the file as it is now is set aside. */
  function PostponeOrGiveUp(env: Env, w: World, name: string, raw: Fields, reason: Reason, untilDeadline: bool,
                            now: real): World {
    var o := Counted(raw, env.pc.parseInt);
    var attempts := ThisAttempt(raw, env.pc.parseInt);
    if GivesUp(env.cfg, env.pc, o, attempts, untilDeadline, now) then SetAsideCapture(w, name, reason)
    else w.(disk := w.disk[Path(Pending, name) := Doc(Obj(Postponed(o, attempts, reason, now)))])
  }

  /** The turn of a capture that was read. The key of a promoted one is a digest, so it does
      not look like the name of a quarantined capture. */
  function CaptureTurnStep(env: Env, w: World, name: string, resolved: Resolved, readyBlocked: bool, now: real): World {
    if w.job != Idle || name !in w.popped then w
    else
      var o := w.popped[name];
      var taken := w.(popped := w.popped - {name});
      if Unresolved(resolved) then PostponeOrGiveUp(env, taken, name, o, UnresolvedReason(resolved), true, now)
      else if resolved.BuildRejected? then
        SetAsideCapture(taken, name, if resolved.digest then DigestMismatch else InvalidSourceData)
      else if readyBlocked then PostponeOrGiveUp(env, taken, name, o, ReadyQueueUnavailable, false, now)
      else if PendingName(resolved.key) then w
      else taken.(job := Promoting(Captured(name, Core(o)), resolved.key, resolved.request, false))
  }

  /** At most how many steps the job under way still takes. */
  function Left(job: Job): nat {
    match job
    case Idle => 0
    case Claimed(_) => 3
    case Moving(_, _, _, copied, _) => if copied then 1 else 2
    case Dropping(_) => 1
    case Promoting(_, _, _, copied) => if copied then 1 else 2
  }

  /** The next primitive of the job under way. */
  function AdvanceStep(env: Env, w: World): World {
    match w.job
    case Moving(src, dst, doc, copied, submitted) =>
      if copied then w.(disk := w.disk - {src}, job := Idle)
      else
        w.(disk := w.disk[dst := Doc(Obj(doc))], job := Moving(src, dst, doc, true, submitted),
           books := if dst.dir == Ready then
             w.books.(baseReady := w.books.baseReady[dst.name := CountOf(w.books.baseInflight, dst.name)])
             else w.books)
    case Dropping(name) => w.(disk := w.disk - {Path(Inflight, name)}, job := Idle)
    case Promoting(capture, key, request, copied) =>
      if copied then w.(disk := w.disk - {Path(Pending, capture.name)}, job := Idle)
      else
        var accepted := Accept(env, w, key, request);
        accepted.(ledger := accepted.ledger.(promoted := w.ledger.promoted[capture := key]),
                  job := Promoting(capture, key, request, true))
    case _ => w
  }

  /** One step; an act that is not possible in `w` changes nothing. */
  function Step(env: Env, w: World, act: Act): World {
    match act
    case EnqueueRequest(name, request) => if PendingName(name) then w else Accept(env, w, name, request)
    case EnqueueCapture(name, payload) =>
      w.(disk := w.disk[Path(Pending, name) := Doc(Obj(PendingRecord(payload)))],
         ledger := w.ledger.(captures := w.ledger.captures + {Captured(name, Core(payload))}))
    case Recover(name) => RecoverStep(w, name)
    case Claim(name) => ClaimStep(w, name)
    case Settle(now) => SettleStep(env, w, now)
    case Submit(name, reply, now) => SubmitStep(env, w, name, reply, now)
    case ReadCapture(name) => ReadStep(w, name)
    case CaptureTurn(name, resolved, readyBlocked, now) => CaptureTurnStep(env, w, name, resolved, readyBlocked, now)
    case Advance => AdvanceStep(env, w)
    case Interrupt => Interrupted(w)
  }

  function Exec(env: Env, w: World, acts: seq<Act>): World
    decreases |acts|
  {
    if acts == [] then w else Step(env, Exec(env, w, acts[..|acts| - 1]), acts[|acts| - 1])
  }

  lemma {:induction false} ExecFirst(env: Env, w: World, act: Act, rest: seq<Act>)
    ensures Exec(env, w, [act] + rest) == Exec(env, Step(env, w, act), rest)
    decreases |rest|
  {
    hide Step;
    var all := [act] + rest;
    if rest == [] {
      assert all == [act] && [act][..0] == [];
    } else {
      assert all[..|all| - 1] == [act] + rest[..|rest| - 1];
      ExecFirst(env, w, act, rest[..|rest| - 1]);
    }
  }

  lemma {:induction false} ExecConcat(env: Env, w: World, a: seq<Act>, b: seq<Act>)
    ensures Exec(env, w, a + b) == Exec(env, Exec(env, w, a), b)
    decreases |b|
  {
    hide Step;
    if b == [] {
      assert a + b == a;
    } else {
      assert (a + b)[..|a + b| - 1] == a + b[..|b| - 1];
      ExecConcat(env, w, a, b[..|b| - 1]);
    }
  }

  // --------------------------------------------------------------------------- invariants

  /** An envelope around one of these requests. */
  predicate Carries(f: File, requests: set<Fields>) {
    IsObject(f) && CarriesOne(f.value.fields, requests)
  }

  predicate CarriesOne(o: Fields, requests: set<Fields>) {
    Get(o, "request").Obj? && Get(o, "request").fields in requests
  }

  /** Where an accepted request can be. */
  predicate Somewhere(w: World, name: string) {
    Path(Ready, name) in w.disk || Path(Inflight, name) in w.disk || Path(Failed, name) in w.disk
  }

  predicate Holds(f: File, core: Fields) {
    IsObject(f) && Core(f.value.fields) == core
  }

  /** What was captured under this name, unchanged. */
  predicate KnownCapture(w: World, name: string, o: Fields) {
    Captured(name, Core(o)) in w.ledger.captures
  }

  predicate KnownFile(w: World, name: string, f: File) {
    IsObject(f) && KnownCapture(w, name, f.value.fields)
  }

  /** Every file under this request name carries a request accepted under it, and some accepted
      request is on disk or was acknowledged. */
  predicate RequestKept(w: World, name: string) {
    && (Path(Ready, name) in w.disk ==> Carries(w.disk[Path(Ready, name)], AcceptedAs(w, name)))
    && (Path(Inflight, name) in w.disk ==> Carries(w.disk[Path(Inflight, name)], AcceptedAs(w, name)))
    && (Path(Failed, name) in w.disk && !PendingName(name) ==> Carries(w.disk[Path(Failed, name)], AcceptedAs(w, name)))
    && (name in w.ledger.accepted ==> !PendingName(name) && (name in w.ledger.acked || Somewhere(w, name)))
  }

  predicate HasNoDeadline(o: Fields) {
    "deadline_at" !in DeliveryOf(o)
  }

  /** Every file under this capture name, and what was read from it, is a capture of that name,
      without a deadline while it is pending. */
  predicate CaptureKept(w: World, name: string) {
    && (Path(Pending, name) in w.disk ==>
          KnownFile(w, name, w.disk[Path(Pending, name)]) && HasNoDeadline(w.disk[Path(Pending, name)].value.fields))
    && (FailedPendingPath(name) in w.disk ==> KnownFile(w, name, w.disk[FailedPendingPath(name)]))
    && (name in w.popped ==>
          Path(Pending, name) in w.disk && KnownCapture(w, name, w.popped[name]) && HasNoDeadline(w.popped[name]))
  }

  /** A promoted capture was enqueued, and its request accepted under the name noted for it. */
  predicate PromotedRight(w: World) {
    forall c :: c in w.ledger.promoted ==> c in w.ledger.captures && w.ledger.promoted[c] in w.ledger.accepted
  }

  /** What may be under way. */
  predicate JobSound(w: World) {
    match w.job
    case Idle => true
    case Claimed(name) => Path(Inflight, name) in w.disk
    case Dropping(name) => name in w.ledger.acked
    case Moving(src, dst, doc, copied, submitted) =>
      if src.dir == Inflight then
        && src.name in w.ledger.accepted && CarriesOne(doc, AcceptedAs(w, src.name))
        && (dst == Path(Ready, src.name) || dst == Path(Failed, src.name))
        && (copied ==> dst in w.disk)
      else
        && src.dir == Pending && src in w.disk && src.name !in w.popped && !submitted
        && dst == FailedPendingPath(src.name) && KnownCapture(w, src.name, doc)
        && (copied ==> dst in w.disk && Holds(w.disk[dst], Core(doc)))
    case Promoting(capture, key, request, copied) =>
      && Path(Pending, capture.name) in w.disk && capture.name !in w.popped
      && capture in w.ledger.captures && !PendingName(key)
      && (copied ==> capture in w.ledger.promoted)
  }

  /** Every submission carried a request accepted under its name. */
  predicate SentFaithful(w: World) {
    forall i :: 0 <= i < |w.books.sent| ==> w.books.sent[i].request in AcceptedAs(w, w.books.sent[i].name)
  }

  ghost predicate Safe(w: World) {
    && (forall name {:trigger RequestKept(w, name)} :: RequestKept(w, name))
    && (forall name {:trigger CaptureKept(w, name)} :: CaptureKept(w, name))
    && JobSound(w) && SentFaithful(w) && PromotedRight(w)
  }

  lemma {:induction false} FailedPathDiffers(capture: string, name: string)
    ensures PendingName("pending-" + capture)
    ensures FailedPendingPath(capture) == FailedPendingPath(name) ==> capture == name
    ensures FailedPendingPath(capture) == Path(Failed, name) ==> PendingName(name)
  {
    assert capture == ("pending-" + capture)[8..] && name == ("pending-" + name)[8..];
  }

  ghost predicate AllKept(w: World) {
    && (forall name {:trigger RequestKept(w, name)} :: RequestKept(w, name))
    && (forall name {:trigger CaptureKept(w, name)} :: CaptureKept(w, name))
  }

  /** The parts of the state that say what must be kept are the same; the worker may have
      forgotten captures it read. */
  predicate SameLedger(w: World, w': World) {
    && w'.ledger.accepted == w.ledger.accepted && w'.ledger.captures == w.ledger.captures
    && w'.ledger.promoted == w.ledger.promoted && w.ledger.acked <= w'.ledger.acked
    && forall n :: n in w'.popped ==> n in w.popped && w'.popped[n] == w.popped[n]
  }

  lemma {:induction false} SameDiskKept(w: World, w': World)
    requires AllKept(w) && SameLedger(w, w') && w'.disk == w.disk
    ensures AllKept(w')
  {
    forall n ensures RequestKept(w', n) && CaptureKept(w', n) {
      assert RequestKept(w, n) && CaptureKept(w, n);
    }
  }

  lemma {:induction false} RequestFileKept(w: World, w': World, p: Path, f: File)
    requires AllKept(w) && SameLedger(w, w') && w'.disk == w.disk[p := f]
    requires p.dir != Pending && p.name in w.ledger.accepted && Carries(f, AcceptedAs(w, p.name))
    ensures AllKept(w')
  {
    assert RequestKept(w, p.name);
    forall n ensures RequestKept(w', n) && CaptureKept(w', n) {
      assert RequestKept(w, n) && CaptureKept(w, n);
      FailedPathDiffers(n, p.name);
    }
  }

  lemma {:induction false} CaptureFileKept(w: World, w': World, c: string, p: Path, f: File)
    requires AllKept(w) && SameLedger(w, w') && w'.disk == w.disk[p := f]
    requires p == Path(Pending, c) || p == FailedPendingPath(c)
    requires KnownFile(w, c, f)
    requires p.dir == Pending ==> HasNoDeadline(f.value.fields)
    ensures AllKept(w')
  {
    forall n ensures RequestKept(w', n) && CaptureKept(w', n) {
      assert RequestKept(w, n) && CaptureKept(w, n);
      FailedPathDiffers(c, n);
    }
  }

  /** Dropping an inflight file loses nothing when another copy is in place or the request was
      acknowledged. */
  lemma {:induction false} UnlinkKept(w: World, w': World, p: Path)
    requires AllKept(w) && SameLedger(w, w') && w'.disk == w.disk - {p}
    requires p.dir == Inflight ==>
      p.name in w.ledger.acked || Path(Ready, p.name) in w.disk || Path(Failed, p.name) in w.disk
    requires p.dir == Pending ==> p.name !in w'.popped
    requires p.dir == Inflight || p.dir == Pending
    ensures AllKept(w')
  {
    forall n ensures RequestKept(w', n) && CaptureKept(w', n) {
      assert RequestKept(w, n) && CaptureKept(w, n);
    }
  }

  lemma {:induction false} AcceptSafe(env: Env, w: World, name: string, request: Fields)
    requires Safe(w) && !PendingName(name)
    ensures Safe(Accept(env, w, name, request))
  {
    var w' := Accept(env, w, name, request);
    forall n ensures RequestKept(w', n) && CaptureKept(w', n) {
      assert RequestKept(w, n) && CaptureKept(w, n);
      FailedPathDiffers(n, name);
    }
  }

  lemma {:induction false} EnqueueCaptureSafe(env: Env, w: World, name: string, payload: Fields)
    requires Safe(w)
    ensures Safe(Step(env, w, EnqueueCapture(name, payload)))
  {
    var w' := Step(env, w, EnqueueCapture(name, payload));
    assert Core(PendingRecord(payload)) == Core(payload);
    forall n ensures RequestKept(w', n) && CaptureKept(w', n) {
      assert RequestKept(w, n) && CaptureKept(w, n);
      FailedPathDiffers(name, n);
    }
  }

  lemma {:induction false} SettleSafe(env: Env, w: World, now: real)
    requires Safe(w)
    ensures Safe(SettleStep(env, w, now))
  {
    hide Due, RequestKept, CaptureKept, AllKept;
    if w.job.Claimed? {
      var name := w.job.name;
      var p := Path(Inflight, name);
      InflightCarries(w, name);
      var o := WithDelivery(w.disk[p].value.fields);
      var w' := SettleStep(env, w, now);
      KeptIsAllKept(w);
      if Due(env.cfg, o, now) {
        RequestFileKept(w, w', p, Doc(Obj(Stamped(env.cfg, o, now))));
      } else {
        SameDiskKept(w, w');
      }
      KeptIsAllKept(w');
    }
  }

  lemma {:induction false} KeptIsAllKept(w: World)
    ensures Safe(w) <==> AllKept(w) && JobSound(w) && SentFaithful(w) && PromotedRight(w)
  {
  }

  lemma {:induction false} InflightCarries(w: World, name: string)
    requires Safe(w) && Path(Inflight, name) in w.disk
    ensures name in w.ledger.accepted && Carries(w.disk[Path(Inflight, name)], AcceptedAs(w, name))
  {
    assert RequestKept(w, name);
  }

  lemma {:induction false} PendingHolds(w: World, name: string)
    requires Safe(w) && Path(Pending, name) in w.disk
    ensures KnownFile(w, name, w.disk[Path(Pending, name)]) && HasNoDeadline(w.disk[Path(Pending, name)].value.fields)
  {
    assert CaptureKept(w, name);
  }

  lemma {:induction false} ClaimSafe(w: World, name: string)
    requires Safe(w)
    ensures Safe(ClaimStep(w, name))
  {
    var w' := ClaimStep(w, name);
    assert RequestKept(w, name);
    forall n ensures RequestKept(w', n) && CaptureKept(w', n) {
      assert RequestKept(w, n) && CaptureKept(w, n);
    }
  }

  lemma {:induction false} RecoverSafe(w: World, name: string)
    requires Safe(w)
    ensures Safe(RecoverStep(w, name))
  {
    hide RequestKept, CaptureKept, AllKept;
    var w' := RecoverStep(w, name);
    if Path(Inflight, name) in w.disk {
      InflightCarries(w, name);
    }
    KeptIsAllKept(w);
    SameDiskKept(w, w');
    KeptIsAllKept(w');
  }

  lemma {:induction false} IdleSound(w: World)
    requires w.job == Idle
    ensures JobSound(w)
  {
  }

  /** The job of setting an inflight item aside, or sending it back, keeps its request. */
  lemma {:induction false} QuarantineSound(w: World, w': World, name: string, reason: Reason, submitted: bool)
    requires Safe(w) && Path(Inflight, name) in w.disk && SameLedger(w, w')
    requires w'.job == Quarantine(w, name, reason, submitted)
    ensures JobSound(w')
  {
    InflightCarries(w, name);
  }

  lemma {:induction false} ReplyJobSound(env: Env, w: World, w': World, name: string, o: Fields, attempts: int,
                                         reply: Reply, now: real)
    requires Safe(w) && Path(Inflight, name) in w.disk && w.disk[Path(Inflight, name)] == Doc(Obj(o))
    requires SameLedger(w, w') && w'.job == ReplyJob(env, w, name, o, attempts, reply, now)
    requires reply.Accepted? ==> name in w'.ledger.acked
    ensures JobSound(w')
  {
    InflightCarries(w, name);
    if reply.Conflict? {
      QuarantineSound(w, w', name, SourceRoundConflict, true);
    } else if reply.OtherError? {
      QuarantineSound(w, w', name, DeliveryError, true);
    }
  }

  lemma {:induction false} SubmitSentFaithful(env: Env, w: World, name: string, reply: Reply, now: real)
    requires Safe(w)
    ensures SentFaithful(SubmitStep(env, w, name, reply, now))
  {
    hide Delay, StoredAttempts, Quarantine, ReplyJob, RequestKept, CaptureKept;
    if Path(Inflight, name) in w.disk {
      InflightCarries(w, name);
    }
  }

  lemma {:induction false} SubmitSafe(env: Env, w: World, name: string, reply: Reply, now: real)
    requires Safe(w)
    ensures Safe(SubmitStep(env, w, name, reply, now))
  {
    hide Delay, StoredAttempts, RequestKept, CaptureKept, AllKept, JobSound, SentFaithful, Quarantine, ReplyJob;
    var w' := SubmitStep(env, w, name, reply, now);
    SubmitSentFaithful(env, w, name, reply, now);
    var p := Path(Inflight, name);
    if name in w.held && w.job == Idle && p in w.disk && IsObject(w.disk[p]) {
      var o := w.disk[p].value.fields;
      var stored := StoredAttempts(o, env.rc.parseInt);
      InflightCarries(w, name);
      if stored.Some? {
        if stored.value + 1 > env.rc.maxAttempts {
          QuarantineSound(w, w', name, MaxAttemptsExceeded, false);
        } else {
          ReplyJobSound(env, w, w', name, o, stored.value + 1, reply, now);
        }
      } else {
        IdleSound(w');
      }
      KeptIsAllKept(w);
      SameDiskKept(w, w');
      KeptIsAllKept(w');
    }
  }

  lemma {:induction false} PostponedKeepsCore(o: Fields, parseInt: string -> Option<int>, attempts: int, reason: Reason,
                                              now: real)
    ensures Core(Postponed(Counted(o, parseInt), attempts, reason, now)) == Core(o)
    ensures HasNoDeadline(o) ==> HasNoDeadline(Postponed(Counted(o, parseInt), attempts, reason, now))
  {
  }

  /** A file set aside holds what the pending file held. */
  lemma {:induction false} FailedPendingKeepsCore(w: World, name: string, reason: Reason)
    requires Path(Pending, name) in w.disk && IsObject(w.disk[Path(Pending, name)])
    ensures Core(FailedPending(w.disk, name, reason)) == Core(w.disk[Path(Pending, name)].value.fields)
  {
  }

  lemma {:induction false} PostponeSafe(env: Env, w: World, name: string, o: Fields, reason: Reason,
                                        untilDeadline: bool, now: real)
    requires Safe(w) && w.job == Idle && Path(Pending, name) in w.disk && name !in w.popped
    requires KnownCapture(w, name, o) && HasNoDeadline(o)
    ensures Safe(PostponeOrGiveUp(env, w, name, o, reason, untilDeadline, now))
  {
    hide RequestKept, CaptureKept, AllKept, Counted, Postponed, ThisAttempt, GivesUp, SetAsideCapture, Core;
    var w' := PostponeOrGiveUp(env, w, name, o, reason, untilDeadline, now);
    var attempts := ThisAttempt(o, env.pc.parseInt);
    var counted := Counted(o, env.pc.parseInt);
    PostponedKeepsCore(o, env.pc.parseInt, attempts, reason, now);
    SetAsideSafe(w, name, reason);
    KeptIsAllKept(w);
    if !GivesUp(env.cfg, env.pc, counted, attempts, untilDeadline, now) {
      CaptureFileKept(w, w', name, Path(Pending, name), Doc(Obj(Postponed(counted, attempts, reason, now))));
      KeptIsAllKept(w');
    }
  }

  lemma {:induction false} SetAsideSafe(w: World, name: string, reason: Reason)
    requires Safe(w) && w.job == Idle && Path(Pending, name) in w.disk && name !in w.popped
    ensures Safe(SetAsideCapture(w, name, reason))
  {
    hide RequestKept, CaptureKept, AllKept, Core;
    var w' := SetAsideCapture(w, name, reason);
    PendingHolds(w, name);
    FailedPendingKeepsCore(w, name, reason);
    KeptIsAllKept(w);
    SameDiskKept(w, w');
    KeptIsAllKept(w');
  }

  lemma {:induction false} ReadSafe(w: World, name: string)
    requires Safe(w)
    ensures Safe(ReadStep(w, name))
  {
    var w' := ReadStep(w, name);
    assert CaptureKept(w, name);
    forall n ensures RequestKept(w', n) && CaptureKept(w', n) {
      assert RequestKept(w, n) && CaptureKept(w, n);
    }
  }

  /** What was read is a capture of that name, whatever has been enqueued since. */
  lemma {:induction false} PoppedHolds(w: World, name: string)
    requires Safe(w) && name in w.popped
    ensures Path(Pending, name) in w.disk && KnownCapture(w, name, w.popped[name]) && HasNoDeadline(w.popped[name])
  {
    assert CaptureKept(w, name);
  }

  lemma {:induction false} TakenSafe(w: World, w': World, name: string)
    requires Safe(w) && w.job == Idle && w' == w.(popped := w.popped - {name})
    ensures Safe(w')
  {
    hide RequestKept, CaptureKept, AllKept;
    KeptIsAllKept(w);
    SameDiskKept(w, w');
    KeptIsAllKept(w');
  }

  lemma {:induction false} PromotingSafe(w: World, w': World)
    requires Safe(w) && w.job == Idle && w'.job.Promoting? && w' == w.(job := w'.job)
    requires JobSound(w')
    ensures Safe(w')
  {
    hide RequestKept, CaptureKept, AllKept;
    KeptIsAllKept(w);
    SameDiskKept(w, w');
    KeptIsAllKept(w');
  }

  lemma {:induction false} CaptureTurnSafe(env: Env, w: World, name: string, resolved: Resolved, readyBlocked: bool,
                                           now: real)
    requires Safe(w)
    ensures Safe(CaptureTurnStep(env, w, name, resolved, readyBlocked, now))
  {
    hide PostponeOrGiveUp, SetAsideCapture, RequestKept, CaptureKept, AllKept, Safe, Core;
    if w.job == Idle && name in w.popped {
      var o := w.popped[name];
      var taken := w.(popped := w.popped - {name});
      PoppedHolds(w, name);
      TakenSafe(w, taken, name);
      if Unresolved(resolved) {
        PostponeSafe(env, taken, name, o, UnresolvedReason(resolved), true, now);
      } else if resolved.BuildRejected? {
        SetAsideSafe(taken, name, if resolved.digest then DigestMismatch else InvalidSourceData);
      } else if readyBlocked {
        PostponeSafe(env, taken, name, o, ReadyQueueUnavailable, false, now);
      } else if !PendingName(resolved.key) {
        PromotingSafe(taken, CaptureTurnStep(env, w, name, resolved, readyBlocked, now));
      }
    }
  }

  lemma {:induction false} PromoteSafe(env: Env, w: World)
    requires Safe(w) && w.job.Promoting? && !w.job.copied
    ensures Safe(AdvanceStep(env, w))
  {
    var w' := AdvanceStep(env, w);
    var mid := Accept(env, w, w.job.key, w.job.request);
    AcceptSafe(env, w, w.job.key, w.job.request);
    forall n ensures RequestKept(w', n) && CaptureKept(w', n) {
      assert RequestKept(mid, n) && CaptureKept(mid, n);
    }
  }

  lemma {:induction false} CopySafe(env: Env, w: World)
    requires Safe(w) && w.job.Moving? && !w.job.copied
    ensures Safe(AdvanceStep(env, w))
  {
    hide RequestKept, CaptureKept, AllKept, Core;
    var w' := AdvanceStep(env, w);
    var src, dst, doc := w.job.src, w.job.dst, w.job.doc;
    KeptIsAllKept(w);
    if src.dir == Inflight {
      RequestFileKept(w, w', dst, Doc(Obj(doc)));
    } else {
      CaptureFileKept(w, w', src.name, dst, Doc(Obj(doc)));
    }
    KeptIsAllKept(w');
  }

  lemma {:induction false} DropSafe(env: Env, w: World)
    requires Safe(w) && (w.job.Dropping? || (w.job.Moving? && w.job.copied) || (w.job.Promoting? && w.job.copied))
    ensures Safe(AdvanceStep(env, w))
  {
    hide RequestKept, CaptureKept, AllKept;
    var w' := AdvanceStep(env, w);
    KeptIsAllKept(w);
    UnlinkKept(w, w',
      if w.job.Dropping? then Path(Inflight, w.job.name)
      else if w.job.Promoting? then Path(Pending, w.job.capture.name)
      else w.job.src);
    KeptIsAllKept(w');
  }

  lemma {:induction false} AdvanceSafe(env: Env, w: World)
    requires Safe(w)
    ensures Safe(AdvanceStep(env, w))
  {
    hide Safe, Accept, JobSound;
    if w.job.Moving? && !w.job.copied {
      CopySafe(env, w);
    } else if w.job.Promoting? && !w.job.copied {
      PromoteSafe(env, w);
    } else if w.job.Moving? || w.job.Dropping? || w.job.Promoting? {
      DropSafe(env, w);
    }
  }

  lemma {:induction false} StepSafe(env: Env, w: World, act: Act)
    requires Safe(w)
    ensures Safe(Step(env, w, act))
  {
    hide Safe, RecoverStep, ClaimStep, SettleStep, SubmitStep, ReadStep, CaptureTurnStep, AdvanceStep, Accept,
         PendingName;
    match act
    case EnqueueRequest(name, request) =>
      if !PendingName(name) {
        AcceptSafe(env, w, name, request);
      }
    case EnqueueCapture(name, payload) => EnqueueCaptureSafe(env, w, name, payload);
    case Recover(name) => RecoverSafe(w, name);
    case Claim(name) => ClaimSafe(w, name);
    case Settle(now) => SettleSafe(env, w, now);
    case Submit(name, reply, now) => SubmitSafe(env, w, name, reply, now);
    case ReadCapture(name) => ReadSafe(w, name);
    case CaptureTurn(name, resolved, readyBlocked, now) =>
      CaptureTurnSafe(env, w, name, resolved, readyBlocked, now);
    case Advance => AdvanceSafe(env, w);
    case Interrupt => InterruptSafe(w);
  }

  lemma {:induction false} InterruptSafe(w: World)
    requires Safe(w)
    ensures Safe(Interrupted(w))
  {
    var w' := Interrupted(w);
    KeptIsAllKept(w);
    SameDiskKept(w, w');
    KeptIsAllKept(w');
  }

  /** From an empty spool, over every run: every file is faithful, some request of every name
      that went into the ready directory is on disk unless that name was acknowledged, and
      every submission carries a request accepted under its name. */
  lemma {:induction false} RunsAreSafe(env: Env, acts: seq<Act>)
    ensures Safe(Exec(env, FRESH, acts))
    decreases |acts|
  {
    if acts == [] {
      forall n ensures RequestKept(FRESH, n) && CaptureKept(FRESH, n) {
      }
    } else {
      RunsAreSafe(env, acts[..|acts| - 1]);
      StepSafe(env, Exec(env, FRESH, acts[..|acts| - 1]), acts[|acts| - 1]);
    }
  }

  lemma {:induction false} JobIsSound(w: World)
    requires Safe(w)
    ensures JobSound(w)
  {
  }

  lemma {:induction false} AcceptedIsNoCapture(w: World, name: string)
    requires Safe(w) && name in w.ledger.accepted
    ensures !PendingName(name)
  {
    assert RequestKept(w, name);
  }

  // -------------------------------------------------------------------- what a run promises

  /** Nothing else was ever put into the ready directory under this name. */
  predicate Sole(w: World, name: string, request: Fields) {
    AcceptedAs(w, name) == {request}
  }

  /** No accepted name is lost: at every moment of every run it was acknowledged, or a file in
      ready, inflight or failed carries a request accepted under it: exactly that request, when
      the name never carried another. */
  lemma {:induction false} NoRequestIsLost(env: Env, acts: seq<Act>, name: string)
    ensures var w := Exec(env, FRESH, acts);
      name in w.ledger.accepted && name !in w.ledger.acked ==>
        exists dir ::
          dir != Pending && Path(dir, name) in w.disk && Carries(w.disk[Path(dir, name)], AcceptedAs(w, name))
    ensures var w := Exec(env, FRESH, acts);
      forall request :: Sole(w, name, request) && name !in w.ledger.acked ==>
        exists dir :: dir != Pending && Path(dir, name) in w.disk && Carries(w.disk[Path(dir, name)], {request})
  {
    var w := Exec(env, FRESH, acts);
    RunsAreSafe(env, acts);
    assert RequestKept(w, name);
    if name in w.ledger.accepted && name !in w.ledger.acked {
      assert Somewhere(w, name);
      var dir :=
        if Path(Ready, name) in w.disk then Ready else if Path(Inflight, name) in w.disk then Inflight else Failed;
      assert Path(dir, name) in w.disk && Carries(w.disk[Path(dir, name)], AcceptedAs(w, name));
    }
  }

  /** Every submission of a name, whenever it happens, carries a request accepted under that
      name: always the same one, unless the name was enqueued with two different requests. */
  lemma {:induction false} SubmissionsAreIdentical(env: Env, acts: seq<Act>, i: nat, j: nat)
    ensures var w := Exec(env, FRESH, acts);
      var sent := w.books.sent;
      && (i < |sent| ==> sent[i].request in AcceptedAs(w, sent[i].name))
      && (i < |sent| && j < |sent| && sent[i].name == sent[j].name && (exists r :: Sole(w, sent[i].name, r)) ==>
            sent[i].request == sent[j].request)
  {
    RunsAreSafe(env, acts);
  }

  /** That names are distinct is needed: a second request under a name replaces the first one
      in the ready directory, and keeps it exactly when it is the same. */
  lemma {:induction false} SecondRequestReplaces(env: Env, name: string, first: Fields, second: Fields)
    requires !PendingName(name)
    ensures var w := Exec(env, FRESH, [EnqueueRequest(name, first), EnqueueRequest(name, second)]);
      && AcceptedAs(w, name) == {first, second} && w.ledger.acked == {}
      && ((exists p :: p in w.disk && Carries(w.disk[p], {first})) <==> first == second)
  {
    var one, acts := [EnqueueRequest(name, first)], [EnqueueRequest(name, first), EnqueueRequest(name, second)];
    assert acts[..1] == one && one[..0] == [];
    var w1 := Accept(env, FRESH, name, first);
    assert Exec(env, FRESH, one) == w1;
    ReplacedInReady(env, w1, name, first, second);
  }

  lemma {:induction false} ReplacedInReady(env: Env, w1: World, name: string, first: Fields, second: Fields)
    requires w1 == Accept(env, FRESH, name, first)
    ensures var w := Accept(env, w1, name, second);
      && AcceptedAs(w, name) == {first, second} && w.ledger.acked == {}
      && ((exists p :: p in w.disk && Carries(w.disk[p], {first})) <==> first == second)
  {
    var w, p := Accept(env, w1, name, second), Path(Ready, name);
    assert w.disk == map[p := Doc(Obj(Envelope(second)))];
    assert p in w.disk && (Carries(w.disk[p], {first}) <==> first == second);
  }

  /** In no run is a capture set aside for being unresolved: captures get no deadline. */
  lemma {:induction false} UnresolvedCaptureStays(env: Env, acts: seq<Act>, name: string, resolved: Resolved,
                                                  readyBlocked: bool, now: real)
    requires Unresolved(resolved)
    ensures var w := Exec(env, FRESH, acts);
      var w' := Step(env, w, CaptureTurn(name, resolved, readyBlocked, now));
      Path(Pending, name) in w.disk ==> w'.job == w.job && Path(Pending, name) in w'.disk
  {
    var w := Exec(env, FRESH, acts);
    RunsAreSafe(env, acts);
    if name in w.popped {
      PoppedHolds(w, name);
      var o := Counted(w.popped[name], env.pc.parseInt);
      assert HasNoDeadline(o);
      assert Deadline(o, env.cfg.parse).None?;
    }
  }

  predicate OnePrimitive(before: Disk, after: Disk) {
    || after == before
    || (exists p :: p in before && after == Apply(before, Unlink(p)))
    || (exists p :: p in after && after == Apply(before, Put(p, after[p])))
    || (exists p :: p in before && p.dir == Ready && after == Apply(before, ClaimPrim(p.name)))
  }

  lemma {:induction false} PutIsOne(before: Disk, p: Path, f: File)
    ensures OnePrimitive(before, before[p := f])
  {
    var after := before[p := f];
    assert p in after && after == Apply(before, Put(p, after[p]));
  }

  lemma {:induction false} UnlinkIsOne(before: Disk, p: Path)
    ensures OnePrimitive(before, before - {p})
  {
    if p in before {
      assert before - {p} == Apply(before, Unlink(p));
    } else {
      assert before - {p} == before;
    }
  }

  lemma {:induction false} AcceptIsOne(env: Env, w: World, name: string, request: Fields)
    ensures OnePrimitive(w.disk, Accept(env, w, name, request).disk)
  {
    PutIsOne(w.disk, Path(Ready, name), Doc(Obj(Envelope(request))));
  }

  lemma {:induction false} AdvanceIsOne(env: Env, w: World)
    ensures OnePrimitive(w.disk, AdvanceStep(env, w).disk)
  {
    hide OnePrimitive, Accept;
    NoneIsOne(w.disk);
    if w.job.Moving? {
      PutIsOne(w.disk, w.job.dst, Doc(Obj(w.job.doc)));
      UnlinkIsOne(w.disk, w.job.src);
    } else if w.job.Promoting? {
      AcceptIsOne(env, w, w.job.key, w.job.request);
      UnlinkIsOne(w.disk, Path(Pending, w.job.capture.name));
    } else if w.job.Dropping? {
      UnlinkIsOne(w.disk, Path(Inflight, w.job.name));
    }
  }

  lemma {:induction false} CaptureTurnIsOne(env: Env, w: World, name: string, resolved: Resolved, readyBlocked: bool,
                                            now: real)
    ensures OnePrimitive(w.disk, CaptureTurnStep(env, w, name, resolved, readyBlocked, now).disk)
  {
    hide OnePrimitive, GivesUp, Counted, Postponed, ThisAttempt, FailedPending;
    NoneIsOne(w.disk);
    if name in w.popped {
      var o := w.popped[name];
      var reason := if Unresolved(resolved) then UnresolvedReason(resolved) else ReadyQueueUnavailable;
      PutIsOne(w.disk, Path(Pending, name),
        Doc(Obj(Postponed(Counted(o, env.pc.parseInt), ThisAttempt(o, env.pc.parseInt), reason, now))));
    }
  }

  lemma {:induction false} SettleIsOne(env: Env, w: World, now: real)
    ensures OnePrimitive(w.disk, SettleStep(env, w, now).disk)
  {
    hide OnePrimitive, Due, Stamped;
    NoneIsOne(w.disk);
    if w.job.Claimed? && Path(Inflight, w.job.name) in w.disk && IsObject(w.disk[Path(Inflight, w.job.name)]) {
      var p := Path(Inflight, w.job.name);
      PutIsOne(w.disk, p, Doc(Obj(Stamped(env.cfg, WithDelivery(w.disk[p].value.fields), now))));
    }
  }

  lemma {:induction false} SubmitKeepsDisk(env: Env, w: World, name: string, reply: Reply, now: real)
    ensures SubmitStep(env, w, name, reply, now).disk == w.disk
  {
    hide StoredAttempts, Quarantine, ReplyJob;
  }

  /** Each step changes the disk by at most one primitive, so a run visits every state a crash
      could leave behind. */
  lemma {:induction false} StepsAreAtomic(env: Env, w: World, act: Act)
    ensures OnePrimitive(w.disk, Step(env, w, act).disk)
  {
    hide OnePrimitive, SettleStep, SubmitStep, CaptureTurnStep, AdvanceStep;
    NoneIsOne(w.disk);
    match act
    case EnqueueRequest(name, request) => AcceptIsOne(env, w, name, request);
    case EnqueueCapture(name, payload) => PutIsOne(w.disk, Path(Pending, name), Doc(Obj(PendingRecord(payload))));
    case Claim(name) =>
      if Path(Ready, name) in w.disk {
        ClaimIsOne(w.disk, name);
      }
    case Settle(now) => SettleIsOne(env, w, now);
    case Submit(name, reply, now) => SubmitKeepsDisk(env, w, name, reply, now);
    case CaptureTurn(name, resolved, readyBlocked, now) =>
      CaptureTurnIsOne(env, w, name, resolved, readyBlocked, now);
    case Advance => AdvanceIsOne(env, w);
    case _ =>
  }

  lemma {:induction false} NoneIsOne(d: Disk)
    ensures OnePrimitive(d, d)
  {
  }

  lemma {:induction false} ClaimIsOne(before: Disk, name: string)
    requires Path(Ready, name) in before
    ensures OnePrimitive(before, Apply(before, ClaimPrim(name)))
  {
    assert Path(Ready, name) in before && Path(Ready, name).dir == Ready;
  }
}
