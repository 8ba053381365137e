/** What each spool operation does to the disk, as the list of file primitives it performs and
    the error it raises, and the queue limits those plans keep. */
module SpoolPlans {
  import opened Options
  import opened JsonValue
  import opened Disks
  import opened Sums

  datatype Config = Config(
    maxPayloadBytes: nat,
    maxBytes: nat,
    maxFiles: nat,
    ttl: real,
    workerId: string,
    numLen: NumLen,
    parse: string -> Option<real>)

  datatype Fault = PayloadTooLarge | TooManyFiles | TooManyBytes | NotANumber

  /** Primitives performed before the operation ended, and how it ended. */
  datatype Plan = Plan(prims: seq<Prim>, fault: Option<Fault>)

  /** Why an item was set aside or postponed. */
  datatype Reason =
    | InvalidJson | InvalidEnvelope | InvalidPayload | InvalidRequestEnvelope
    | MaxAttemptsExceeded | SourceRoundConflict | DeliveryError
    | StateDbLocked | FinalMessageNotCommitted | SourceRangeNotFound
    | DigestMismatch | InvalidSourceData | ReadyQueueUnavailable

  function ReasonText(r: Reason): string {
    match r
    case InvalidJson => "invalid_json"
    case InvalidEnvelope => "invalid_envelope"
    case InvalidPayload => "invalid_payload"
    case InvalidRequestEnvelope => "invalid_request_envelope"
    case MaxAttemptsExceeded => "max_attempts_exceeded"
    case SourceRoundConflict => "source_round_conflict"
    case DeliveryError => "delivery_error"
    case StateDbLocked => "state_db_locked"
    case FinalMessageNotCommitted => "final_message_not_committed"
    case SourceRangeNotFound => "source_range_not_found"
    case DigestMismatch => "digest_mismatch"
    case InvalidSourceData => "invalid_source_data"
    case ReadyQueueUnavailable => "ready_queue_unavailable"
  }

  // ------------------------------------------------------------------------------- limits

  function FileSize(cfg: Config, f: File): nat {
    match f
    case Garbage(n) => n
    case Doc(j) => Size(j, cfg.numLen)
  }

  function QueuePaths(d: Disk, exclude: set<Path>): set<Path> {
    set p | p in d && p.dir != Failed && p !in exclude
  }

  function Sizes(cfg: Config, d: Disk, paths: set<Path>): map<Path, nat> {
    map p | p in paths && p in d :: FileSize(cfg, d[p])
  }

  /** Sizes of the files in the pending, ready and inflight directories. */
  function QueueSizes(cfg: Config, d: Disk): map<Path, nat> {
    Sizes(cfg, d, QueuePaths(d, {}))
  }

  function PayloadSize(cfg: Config, payload: Fields): nat {
    if Get(payload, "request").Obj? then Size(payload["request"], cfg.numLen)
    else Size(Obj(payload), cfg.numLen)
  }

  /** `_check_limits`: the destination is discounted whenever it exists, even when it lies
      outside the counted directories. */
  ghost function LimitFault(cfg: Config, d: Disk, dest: Path, size: nat, exclude: set<Path>): Option<Fault> {
    var files := QueuePaths(d, exclude);
    var bytes: int := Sum(Sizes(cfg, d, files)) - (if dest in d then FileSize(cfg, d[dest]) else 0);
    var count := |files| - (if dest in d then 1 else 0);
    if count + 1 > cfg.maxFiles then Some(TooManyFiles)
    else if bytes + size > cfg.maxBytes then Some(TooManyBytes)
    else None
  }

  ghost function WriteFault(cfg: Config, d: Disk, dest: Path, payload: Fields, exclude: set<Path>): Option<Fault> {
    if PayloadSize(cfg, payload) > cfg.maxPayloadBytes then Some(PayloadTooLarge)
    else LimitFault(cfg, d, dest, Size(Obj(payload), cfg.numLen), exclude)
  }

  // -------------------------------------------------------------------------------- plans

  ghost function WritePlan(cfg: Config, d: Disk, dest: Path, payload: Fields, exclude: set<Path>): Plan {
    var fault := WriteFault(cfg, d, dest, payload, exclude);
    if fault.Some? then Plan([], fault) else Plan([Put(dest, Doc(Obj(payload)))], None)
  }

  /** Copy under the new name, then drop the old one: the source is unlinked only after the
      copy is in place, and is not counted against the limits meanwhile. */
  ghost function MovePlan(cfg: Config, d: Disk, src: Path, dest: Path, payload: Fields): Plan {
    var fault := WriteFault(cfg, d, dest, payload, {src});
    if fault.Some? then Plan([], fault) else Plan([Put(dest, Doc(Obj(payload))), Unlink(src)], None)
  }

  function FreshDelivery(): Json {
    Obj(map["attempts" := Num(0.0), "next_attempt_at" := Num(0.0)])
  }

  function Envelope(request: Fields): Fields {
    map["request" := Obj(request), "delivery" := FreshDelivery()]
  }

  function PendingRecord(payload: Fields): Fields {
    payload["delivery" := FreshDelivery()]
  }

  function FailedPending(d: Disk, name: string, reason: Reason): Fields {
    var source := Path(Pending, name);
    if source in d && IsObject(d[source]) then d[source].value.fields["failure_reason" := Str(ReasonText(reason))]
    else map["failure_reason" := Str(ReasonText(reason))]
  }

  function FailedPendingPath(name: string): Path {
    Path(Failed, "pending-" + name)
  }

  ghost function FailPendingPlan(cfg: Config, d: Disk, name: string, reason: Reason): Plan {
    MovePlan(cfg, d, Path(Pending, name), FailedPendingPath(name), FailedPending(d, name, reason))
  }

  function FailSource(d: Disk, name: string): Path {
    if Path(Inflight, name) in d then Path(Inflight, name) else Path(Ready, name)
  }

  /** An envelope with the failure reason noted in its delivery part. */
  function Blamed(o: Fields, reason: Reason): Fields {
    o["delivery" := Obj(DeliveryOf(o)["failure_reason" := Str(ReasonText(reason))])]
  }

  function FailedEnvelope(d: Disk, source: Path, reason: Reason): Fields {
    Blamed(if source in d && IsObject(d[source]) then d[source].value.fields else map[], reason)
  }

  ghost function FailPlan(cfg: Config, d: Disk, name: string, reason: Reason): Plan {
    var source := FailSource(d, name);
    MovePlan(cfg, d, source, Path(Failed, name), FailedEnvelope(d, source, reason))
  }

  ghost function RetryPlan(cfg: Config, d: Disk, name: string, payload: Fields): Plan {
    MovePlan(cfg, d, Path(Inflight, name), Path(Ready, name), payload)
  }

  /** The claim is cleared and the item is due at once; an envelope without a delivery object
      is left as it is. */
  function Unclaimed(o: Fields): Fields {
    if HasDelivery(o) then
      o["delivery" := Obj((DeliveryOf(o) - {"worker_id", "claimed_at"})["next_attempt_at" := Num(0.0)])]
    else o
  }

  predicate Expired(cfg: Config, o: Fields, now: real) {
    var claimedAt := ToFloat(Get(DeliveryOf(o), "claimed_at"), cfg.parse);
    claimedAt.None? || now - claimedAt.value >= cfg.ttl
  }

  /** Why an unreadable or non-object envelope is set aside. */
  function BadFileReason(d: Disk, p: Path): Reason {
    if p in d && d[p].Doc? then InvalidEnvelope else InvalidJson
  }

  /** One turn of the reclaim loop. A file that is gone reads as unreadable. */
  ghost function ReclaimPlan(cfg: Config, d: Disk, name: string, now: real): Plan {
    var p := Path(Inflight, name);
    if p !in d || !IsObject(d[p]) then FailPlan(cfg, d, name, BadFileReason(d, p))
    else
      var o := d[p].value.fields;
      if !Expired(cfg, o, now) then Plan([], None) else RetryPlan(cfg, d, name, Unclaimed(o))
  }

  function WithDelivery(o: Fields): Fields {
    o["delivery" := Obj(DeliveryOf(o))]
  }

  predicate Due(cfg: Config, o: Fields, now: real) {
    var delivery := DeliveryOf(o);
    var at := ToFloat(if "next_attempt_at" in delivery then delivery["next_attempt_at"] else Num(0.0), cfg.parse);
    at.None? || at.value <= now
  }

  function Stamped(cfg: Config, o: Fields, now: real): Fields {
    o["delivery" := Obj(DeliveryOf(o)["worker_id" := Str(cfg.workerId)]["claimed_at" := Num(now)])]
  }

  datatype Item = Item(name: string, payload: Fields)

  datatype Claims = Claims(prims: seq<Prim>, items: seq<Item>, fault: Option<Fault>)

  function ClaimPrim(name: string): Prim {
    Rename(Path(Ready, name), Path(Inflight, name))
  }

  /** What happens to an item once it has been renamed into the inflight directory; a file
      that is gone reads as unreadable. */
  ghost function SettlePlan(cfg: Config, d: Disk, name: string, now: real): Claims {
    var p := Path(Inflight, name);
    if p !in d || !IsObject(d[p]) then
      var failed := FailPlan(cfg, d, name, BadFileReason(d, p));
      Claims(failed.prims, [], failed.fault)
    else
      var o := WithDelivery(d[p].value.fields);
      if !Due(cfg, o, now) then
        var back := RetryPlan(cfg, d, name, o);
        Claims(back.prims, [], back.fault)
      else
        var stamp := WritePlan(cfg, d, p, Stamped(cfg, o, now), {});
        Claims(stamp.prims, if stamp.fault.None? then [Item(name, Stamped(cfg, o, now))] else [], stamp.fault)
  }

  /** One turn of the claim loop. */
  ghost function ClaimPlan(cfg: Config, d: Disk, name: string, now: real): Claims {
    if Path(Ready, name) !in d then
      var failed := FailPlan(cfg, d, name, InvalidJson);
      Claims(failed.prims, [], failed.fault)
    else
      var settled := SettlePlan(cfg, Apply(d, ClaimPrim(name)), name, now);
      settled.(prims := [ClaimPrim(name)] + settled.prims)
  }

  function ThenPlan(first: Plan, rest: Plan): Plan {
    Plan(first.prims + rest.prims, rest.fault)
  }

  function ThenClaims(first: Claims, rest: Claims): Claims {
    Claims(first.prims + rest.prims, if rest.fault.None? then first.items + rest.items else [], rest.fault)
  }

  ghost function ReclaimAll(cfg: Config, d: Disk, names: seq<string>, now: real): Plan
    decreases |names|
  {
    if names == [] then Plan([], None)
    else
      var first := ReclaimPlan(cfg, d, names[0], now);
      if first.fault.Some? then first
      else ThenPlan(first, ReclaimAll(cfg, Run(d, first.prims), names[1..], now))
  }

  /** A fault leaves the caller without the items claimed before it. */
  ghost function ClaimAll(cfg: Config, d: Disk, names: seq<string>, now: real): Claims
    decreases |names|
  {
    if names == [] then Claims([], [], None)
    else
      var first := ClaimPlan(cfg, d, names[0], now);
      if first.fault.Some? then first.(items := [])
      else ThenClaims(first, ClaimAll(cfg, Run(d, first.prims), names[1..], now))
  }
}
