/** The spool object: its directories, and the operations the hooks and workers call. Every
    method is proved against the plan of the same name; `trace` collects each disk state a
    crash could leave behind. One clock reading, `now`, stands for the readings of one call. */
module FileSpools {
  import opened Options
  import opened StringOrder
  import opened JsonValue
  import opened Disks
  import opened Sums
  import opened SpoolPlans
  import opened PendingQueue
  import opened SpoolLimits

  function AtLeastOne(n: int): nat {
    if n < 1 then 1 else n
  }

  function Names(d: Disk, dir: Dir): set<string> {
    set p | p in d && p.dir == dir :: p.name
  }

  function First<T>(xs: seq<T>, limit: int): seq<T> {
    if |xs| <= AtLeastOne(limit) then xs else xs[..AtLeastOne(limit)]
  }

  /** `pop_ready` on values: reclaim everything expired, then claim the first names. */
  ghost function PopReadyPlan(cfg: Config, d: Disk, limit: int, now: real): Claims {
    var reclaimed := ReclaimAll(cfg, d, Sorted(Names(d, Inflight)), now);
    if reclaimed.fault.Some? then Claims(reclaimed.prims, [], reclaimed.fault)
    else
      var d1 := Run(d, reclaimed.prims);
      var claimed := ClaimAll(cfg, d1, First(Sorted(Names(d1, Ready)), limit), now);
      Claims(reclaimed.prims + claimed.prims, claimed.items, claimed.fault)
  }

  function ItemsOf(es: seq<Entry>): seq<Item> {
    seq(|es|, i requires 0 <= i < |es| => Item(es[i].name, es[i].payload))
  }

  /** Pending files that are not JSON objects. */
  function BadNames(d: Disk): set<string> {
    set name | name in Names(d, Pending) && Path(Pending, name) in d && !IsObject(d[Path(Pending, name)])
  }

  /** What an unreadable pending file leaves in `failed`. */
  function Noted(f: File): File {
    Doc(Obj(map["failure_reason" := Str(if f.Doc? then "invalid_payload" else "invalid_json")]))
  }

  /** `after` is `before` with the pending files named in `moved` set aside in `failed`. */
  ghost predicate SetAside(before: Disk, after: Disk, moved: set<string>) {
    && (forall p :: p in after && p.dir != Failed ==> p in before && after[p] == before[p])
    && (forall p :: p in before && p.dir != Failed ==> (p in after <==> !(p.dir == Pending && p.name in moved)))
    && (forall name :: name in moved && Path(Pending, name) in before ==>
          Path(Failed, "pending-" + name) in after
          && after[Path(Failed, "pending-" + name)] == Noted(before[Path(Pending, name)]))
    && (forall p :: p in before && p.dir == Failed ==> p in after)
  }

  /** Nothing but unreadable pending files has left its place. */
  ghost predicate OnlyBadMoved(before: Disk, after: Disk) {
    forall p :: p in before && p.dir != Failed && (p.dir == Pending ==> IsObject(before[p])) ==>
      p in after && after[p] == before[p]
  }

  function BadReason(d: Disk, name: string): Reason {
    var p := Path(Pending, name);
    if p in d && d[p].Doc? then InvalidPayload else InvalidJson
  }

  lemma {:induction false} NothingSetAside(d: Disk)
    ensures SetAside(d, d, BadNames(d) - Names(d, Pending)) && OnlyBadMoved(d, d)
  {
    assert BadNames(d) - Names(d, Pending) == {};
  }

  lemma {:induction false} NothingSeen(d0: Disk, now: real, parse: string -> Option<real>)
    ensures SeenSoFar(d0, now, parse, Names(d0, Pending), [])
  {
  }

  lemma {:induction false} StillPending(d0: Disk, d: Disk, moved: set<string>, name: string, now: real,
                                        parse: string -> Option<real>)
    requires SetAside(d0, d, moved) && name in Names(d0, Pending) && name !in moved
    ensures Path(Pending, name) in d && d[Path(Pending, name)] == d0[Path(Pending, name)]
    ensures name in BadNames(d) <==> name in BadNames(d0)
    ensures IsDue(d, name, now, parse) == IsDue(d0, name, now, parse)
    ensures IsDue(d, name, now, parse) ==> EntryOf(d, name, parse) == EntryOf(d0, name, parse)
  {
  }

  /** The entries collected while `rest` is still to be looked at. */
  ghost predicate SeenSoFar(d0: Disk, now: real, parse: string -> Option<real>, rest: set<string>, es: seq<Entry>) {
    && NamesDistinct(es)
    && (forall e :: e in es ==> e.name !in rest && IsDue(d0, e.name, now, parse) && e == EntryOf(d0, e.name, parse))
    && (forall name :: IsDue(d0, name, now, parse) && name !in rest ==> EntryOf(d0, name, parse) in es)
  }

  lemma {:induction false} SeeOne(d0: Disk, now: real, parse: string -> Option<real>, rest: set<string>, es: seq<Entry>,
                                  name: string)
    requires SeenSoFar(d0, now, parse, rest, es) && name in rest
    ensures IsDue(d0, name, now, parse) ==> SeenSoFar(d0, now, parse, rest - {name}, es + [EntryOf(d0, name, parse)])
    ensures !IsDue(d0, name, now, parse) ==> SeenSoFar(d0, now, parse, rest - {name}, es)
  {
    if IsDue(d0, name, now, parse) {
      var e := EntryOf(d0, name, parse);
      forall n | IsDue(d0, n, now, parse) && n !in rest - {name} ensures EntryOf(d0, n, parse) in es + [e] {
      }
    }
  }

  lemma {:induction false} AllSeen(d0: Disk, now: real, parse: string -> Option<real>, es: seq<Entry>)
    requires SeenSoFar(d0, now, parse, {}, es)
    ensures IsDueList(d0, now, parse, SortEntries(es))
  {
    SortMembers(es);
    SortInOrder(es);
  }

  lemma {:induction false} SameAfterPrefix(prefix: string, name: string)
    ensures forall other :: prefix + other == prefix + name ==> other == name
  {
    forall other | prefix + other == prefix + name ensures other == name {
      assert (prefix + other)[|prefix|..] == other && (prefix + name)[|prefix|..] == name;
    }
  }

  lemma {:induction false} OneMoreAside(d0: Disk, d: Disk, moved: set<string>, name: string)
    requires SetAside(d0, d, moved) && moved <= BadNames(d0) && name in BadNames(d0) && name !in moved
    ensures var put := d[Path(Failed, "pending-" + name) := Noted(d0[Path(Pending, name)])];
      && OnlyBadMoved(d0, d) && OnlyBadMoved(d0, put) && OnlyBadMoved(d0, put - {Path(Pending, name)})
      && SetAside(d0, put - {Path(Pending, name)}, moved + {name})
  {
    hide Noted;
    SameAfterPrefix("pending-", name);
  }

  lemma {:induction false} FailPendingSetsAside(cfg: Config, d0: Disk, d: Disk, moved: set<string>, name: string,
                                                reason: Reason, now: real, parse: string -> Option<real>)
    requires SetAside(d0, d, moved) && moved <= BadNames(d0) && name in BadNames(d0) && name !in moved
    requires reason == BadReason(d, name)
    ensures !IsDue(d0, name, now, parse)
    ensures var plan := FailPendingPlan(cfg, d, name, reason);
      && (forall i :: 0 <= i < |plan.prims| ==> OnlyBadMoved(d0, States(d, plan.prims)[i]))
      && OnlyBadMoved(d0, Run(d, plan.prims))
      && (plan.fault.None? ==> SetAside(d0, Run(d, plan.prims), moved + {name}))
      && (plan.fault.Some? ==> Run(d, plan.prims) == d)
  {
    hide WriteFault;
    OneMoreAside(d0, d, moved, name);
    StillPending(d0, d, moved, name, now, parse);
    hide SetAside, OnlyBadMoved;
    var f := Doc(Obj(FailedPending(d, name, reason)));
    assert f == Noted(d0[Path(Pending, name)]);
    MoveStates(d, Path(Pending, name), FailedPendingPath(name), f);
  }

  /** One turn of the loop over the pending files. */
  lemma {:induction false} PendingStep(cfg: Config, d0: Disk, d: Disk, rest: set<string>, name: string, now: real)
    requires SetAside(d0, d, BadNames(d0) - rest) && rest <= Names(d0, Pending) && name in rest
    ensures Path(Pending, name) in d && (name in BadNames(d) <==> name in BadNames(d0))
    ensures IsDue(d, name, now, cfg.parse) == IsDue(d0, name, now, cfg.parse)
    ensures IsDue(d, name, now, cfg.parse) ==> EntryOf(d, name, cfg.parse) == EntryOf(d0, name, cfg.parse)
    ensures name in BadNames(d0) ==> !IsDue(d0, name, now, cfg.parse)
    ensures var plan := FailPendingPlan(cfg, d, name, BadReason(d, name));
      var after := BadNames(d0) - (rest - {name});
      if name !in BadNames(d0) then SetAside(d0, d, after)
      else
        && (forall i :: 0 <= i < |plan.prims| ==> OnlyBadMoved(d0, States(d, plan.prims)[i]))
        && OnlyBadMoved(d0, Run(d, plan.prims))
        && (plan.fault.None? ==> SetAside(d0, Run(d, plan.prims), after))
  {
    hide SetAside, OnlyBadMoved, FailPendingPlan, Run, States, IsDue;
    StillPending(d0, d, BadNames(d0) - rest, name, now, cfg.parse);
    if name in BadNames(d0) {
      FailPendingSetsAside(cfg, d0, d, BadNames(d0) - rest, name, BadReason(d, name), now, cfg.parse);
      assert BadNames(d0) - (rest - {name}) == BadNames(d0) - rest + {name};
    } else {
      assert BadNames(d0) - (rest - {name}) == BadNames(d0) - rest;
    }
  }

  /** The limits over the whole of `pop_ready`, however it ends. */
  lemma {:induction false} PopReadyKeeps(cfg: Config, d: Disk, limit: int, now: real)
    requires Within(cfg, d)
    ensures Keeps(cfg, d, PopReadyPlan(cfg, d, limit, now).prims)
  {
    hide Run, States, ReclaimAll, ClaimAll, Within;
    var reclaimed := ReclaimAll(cfg, d, Sorted(Names(d, Inflight)), now);
    ReclaimAllKeeps(cfg, d, Sorted(Names(d, Inflight)), now);
    if reclaimed.fault.None? {
      var d1 := Run(d, reclaimed.prims);
      var names := First(Sorted(Names(d1, Ready)), limit);
      ClaimAllKeeps(cfg, d1, names, now);
      KeepsConcat(cfg, d, reclaimed.prims, ClaimAll(cfg, d1, names, now).prims);
    }
  }

  class FileSpool {
    const cfg: Config
    var disk: Disk
    ghost var trace: seq<Disk>

    constructor (maxPayloadBytes: int, maxBytes: int, maxFiles: int, ttl: real, workerId: string,
                 numLen: NumLen, parse: string -> Option<real>, existing: Disk)
      ensures cfg.maxPayloadBytes == AtLeastOne(maxPayloadBytes) && cfg.maxBytes == AtLeastOne(maxBytes)
      ensures cfg.maxFiles == AtLeastOne(maxFiles) && cfg.ttl == (if ttl < 0.1 then 0.1 else ttl)
      ensures cfg.workerId == workerId && cfg.numLen == numLen && cfg.parse == parse
      ensures disk == existing && trace == []
    {
      cfg := Config(AtLeastOne(maxPayloadBytes), AtLeastOne(maxBytes), AtLeastOne(maxFiles),
                    if ttl < 0.1 then 0.1 else ttl, workerId, numLen, parse);
      disk := existing;
      trace := [];
    }

    /** The disk went through exactly these primitives since the method was entered. */
    twostate predicate Performed(prims: seq<Prim>)
      reads this
    {
      disk == Run(old(disk), prims) && trace == old(trace) + States(old(disk), prims)
    }

    method Perform(p: Prim)
      modifies this
      ensures Performed([p])
    {
      disk := Apply(disk, p);
      trace := trace + [disk];
    }

    /** Sums the counted files one by one. */
    method CheckLimits(dest: Path, size: nat, exclude: set<Path>) returns (fault: Option<Fault>)
      ensures fault == LimitFault(cfg, disk, dest, size, exclude)
    {
      var files := set p | p in disk && p.dir != Failed && p !in exclude;
      assert files == QueuePaths(disk, exclude);
      var currentSize: int := 0;
      var rest := files;
      while rest != {}
        invariant rest <= files
        invariant currentSize + Sum(Sizes(cfg, disk, rest)) == Sum(Sizes(cfg, disk, files))
        decreases |rest|
      {
        var path :| path in rest;
        SumRemove(Sizes(cfg, disk, rest), path);
        assert Sizes(cfg, disk, rest - {path}) == Sizes(cfg, disk, rest) - {path};
        currentSize := currentSize + FileSize(cfg, disk[path]);
        rest := rest - {path};
      }
      assert Sizes(cfg, disk, {}) == map[];
      var replacing := dest in disk;
      var currentFiles := |files|;
      if replacing {
        currentSize := currentSize - FileSize(cfg, disk[dest]);
        currentFiles := currentFiles - 1;
      }
      if currentFiles + 1 > cfg.maxFiles {
        return Some(TooManyFiles);
      }
      if currentSize + size > cfg.maxBytes {
        return Some(TooManyBytes);
      }
      return None;
    }

    method Write(dest: Path, payload: Fields, exclude: set<Path>) returns (fault: Option<Fault>)
      modifies this
      ensures var plan := WritePlan(cfg, old(disk), dest, payload, exclude);
        Performed(plan.prims) && fault == plan.fault
    {
      if PayloadSize(cfg, payload) > cfg.maxPayloadBytes {
        return Some(PayloadTooLarge);
      }
      fault := CheckLimits(dest, Size(Obj(payload), cfg.numLen), exclude);
      if fault.None? {
        Perform(Put(dest, Doc(Obj(payload))));
      }
    }

    method WriteThenUnlink(src: Path, dest: Path, payload: Fields) returns (fault: Option<Fault>)
      modifies this
      ensures var plan := MovePlan(cfg, old(disk), src, dest, payload);
        Performed(plan.prims) && fault == plan.fault
    {
      fault := Write(dest, payload, {src});
      if fault.None? {
        Perform(Unlink(src));
        RunConcat(old(disk), [Put(dest, Doc(Obj(payload)))], [Unlink(src)]);
      }
    }

    method EnqueuePending(key: string, payload: Fields) returns (fault: Option<Fault>)
      modifies this
      ensures var plan := WritePlan(cfg, old(disk), Path(Pending, key), PendingRecord(payload), {});
        Performed(plan.prims) && fault == plan.fault
    {
      fault := Write(Path(Pending, key), PendingRecord(payload), {});
    }

    method EnqueueReady(key: string, request: Fields, exclude: set<Path>) returns (fault: Option<Fault>)
      modifies this
      ensures var plan := WritePlan(cfg, old(disk), Path(Ready, key), Envelope(request), exclude);
        Performed(plan.prims) && fault == plan.fault
    {
      fault := Write(Path(Ready, key), Envelope(request), exclude);
    }

    method RetryPending(name: string, payload: Fields) returns (fault: Option<Fault>)
      modifies this
      ensures var plan := WritePlan(cfg, old(disk), Path(Pending, name), payload, {});
        Performed(plan.prims) && fault == plan.fault
    {
      fault := Write(Path(Pending, name), payload, {});
    }

    method CompletePending(name: string)
      modifies this
      ensures Performed([Unlink(Path(Pending, name))])
    {
      Perform(Unlink(Path(Pending, name)));
    }

    method FailPending(name: string, reason: Reason) returns (fault: Option<Fault>)
      modifies this
      ensures var plan := FailPendingPlan(cfg, old(disk), name, reason);
        Performed(plan.prims) && fault == plan.fault
    {
      var source := Path(Pending, name);
      var payload: Fields := map["failure_reason" := Str(ReasonText(reason))];
      if source in disk && IsObject(disk[source]) {
        payload := disk[source].value.fields["failure_reason" := Str(ReasonText(reason))];
      }
      fault := WriteThenUnlink(source, FailedPendingPath(name), payload);
    }

    method Fail(name: string, reason: Reason) returns (fault: Option<Fault>)
      modifies this
      ensures var plan := FailPlan(cfg, old(disk), name, reason);
        Performed(plan.prims) && fault == plan.fault
    {
      hide Run, States, WriteFault;
      var source := Path(Inflight, name);
      if source !in disk {
        source := Path(Ready, name);
      }
      var payload: Fields := map["delivery" := Obj(map[])];
      if source in disk && IsObject(disk[source]) {
        payload := disk[source].value.fields;
      }
      var delivery: Fields := map[];
      if Get(payload, "delivery").Obj? {
        delivery := payload["delivery"].fields;
      }
      delivery := delivery["failure_reason" := Str(ReasonText(reason))];
      payload := payload["delivery" := Obj(delivery)];
      assert payload == FailedEnvelope(disk, source, reason);
      fault := WriteThenUnlink(source, Path(Failed, name), payload);
    }

    method Retry(name: string, payload: Fields) returns (fault: Option<Fault>)
      modifies this
      ensures var plan := RetryPlan(cfg, old(disk), name, payload);
        Performed(plan.prims) && fault == plan.fault
    {
      fault := WriteThenUnlink(Path(Inflight, name), Path(Ready, name), payload);
    }

    method Complete(name: string)
      modifies this
      ensures Performed([Unlink(Path(Inflight, name))])
    {
      Perform(Unlink(Path(Inflight, name)));
    }

    method ReclaimOne(name: string, now: real) returns (fault: Option<Fault>)
      modifies this
      ensures var plan := ReclaimPlan(cfg, old(disk), name, now);
        Performed(plan.prims) && fault == plan.fault
    {
      var path := Path(Inflight, name);
      if path !in disk || disk[path].Garbage? {
        fault := Fail(name, InvalidJson);
        return;
      }
      if !disk[path].value.Obj? {
        fault := Fail(name, InvalidEnvelope);
        return;
      }
      var envelope := disk[path].value.fields;
      if !Expired(cfg, envelope, now) {
        assert trace == old(trace) + States(old(disk), []);
        return None;
      }
      if Get(envelope, "delivery").Obj? {
        var delivery := envelope["delivery"].fields - {"worker_id", "claimed_at"};
        envelope := envelope["delivery" := Obj(delivery["next_attempt_at" := Num(0.0)])];
      }
      fault := Retry(name, envelope);
    }

    method ReclaimExpiredInflight(now: real) returns (fault: Option<Fault>)
      modifies this
      ensures var plan := ReclaimAll(cfg, old(disk), Sorted(Names(old(disk), Inflight)), now);
        Performed(plan.prims) && fault == plan.fault
    {
      hide Run, States, ReclaimPlan, Sorted;
      RunNothing(disk);
      var names := Sorted(Names(disk, Inflight));
      ghost var all := ReclaimAll(cfg, disk, names, now);
      ghost var done: seq<Prim> := [];
      var i := 0;
      while i < |names|
        invariant 0 <= i <= |names|
        invariant Performed(done)
        invariant all == ThenPlan(Plan(done, None), ReclaimAll(cfg, disk, names[i..], now))
      {
        ghost var before := disk;
        ghost var step := ReclaimPlan(cfg, before, names[i], now);
        ghost var tail := names[i..];
        assert tail[0] == names[i] && tail[1..] == names[i + 1..];
        fault := ReclaimOne(names[i], now);
        RunConcat(old(disk), done, step.prims);
        if fault.Some? {
          return;
        }
        assert done + (step.prims + ReclaimAll(cfg, disk, tail[1..], now).prims)
            == done + step.prims + ReclaimAll(cfg, disk, tail[1..], now).prims;
        done := done + step.prims;
        i := i + 1;
      }
      fault := None;
      assert all.prims == done;
    }

    method ClaimOne(name: string, now: real) returns (items: seq<Item>, fault: Option<Fault>)
      modifies this
      ensures var plan := ClaimPlan(cfg, old(disk), name, now);
        Performed(plan.prims) && items == plan.items && fault == plan.fault
    {
      hide Run, States, FailPlan, RetryPlan, WritePlan, Due;
      RunOne(disk, ClaimPrim(name));
      var path, claimed := Path(Ready, name), Path(Inflight, name);
      items := [];
      if path !in disk {
        fault := Fail(name, InvalidJson);
        return;
      }
      Perform(ClaimPrim(name));
      ghost var renamed := disk;
      RunConcat(old(disk), [ClaimPrim(name)], SettlePlan(cfg, renamed, name, now).prims);
      if disk[claimed].Garbage? {
        fault := Fail(name, InvalidJson);
        return;
      }
      if !disk[claimed].value.Obj? {
        fault := Fail(name, InvalidEnvelope);
        return;
      }
      var payload := disk[claimed].value.fields;
      var delivery: Fields := map[];
      if Get(payload, "delivery").Obj? {
        delivery := payload["delivery"].fields;
      }
      payload := payload["delivery" := Obj(delivery)];
      if !Due(cfg, payload, now) {
        fault := Retry(name, payload);
        return;
      }
      delivery := delivery["worker_id" := Str(cfg.workerId)]["claimed_at" := Num(now)];
      payload := payload["delivery" := Obj(delivery)];
      assert payload == Stamped(cfg, WithDelivery(renamed[claimed].value.fields), now);
      fault := Write(claimed, payload, {});
      if fault.None? {
        items := [Item(name, payload)];
      }
    }

    method ClaimReady(names: seq<string>, now: real) returns (items: seq<Item>, fault: Option<Fault>)
      modifies this
      ensures var plan := ClaimAll(cfg, old(disk), names, now);
        Performed(plan.prims) && items == plan.items && fault == plan.fault
    {
      hide Run, States, ClaimPlan;
      RunNothing(disk);
      items := [];
      ghost var all := ClaimAll(cfg, disk, names, now);
      ghost var done: seq<Prim> := [];
      var i := 0;
      while i < |names|
        invariant 0 <= i <= |names|
        invariant Performed(done)
        invariant all == ThenClaims(Claims(done, items, None), ClaimAll(cfg, disk, names[i..], now))
      {
        ghost var before := disk;
        ghost var step := ClaimPlan(cfg, before, names[i], now);
        ghost var tail := names[i..];
        assert tail[0] == names[i] && tail[1..] == names[i + 1..];
        var claimed;
        claimed, fault := ClaimOne(names[i], now);
        RunConcat(old(disk), done, step.prims);
        if fault.Some? {
          items := [];
          return;
        }
        ThenClaimsAssociative(Claims(done, items, None), step, ClaimAll(cfg, disk, tail[1..], now));
        done := done + step.prims;
        items := items + claimed;
        i := i + 1;
      }
      fault := None;
      assert all.prims == done && all.items == items;
    }

    /** Reads one pending file; None when it is set aside or not due. */
    method LookAtPending(name: string, now: real) returns (entry: Option<Entry>, fault: Option<Fault>)
      requires Path(Pending, name) in disk
      modifies this
      ensures name in BadNames(old(disk)) ==>
        var plan := FailPendingPlan(cfg, old(disk), name, BadReason(old(disk), name));
        Performed(plan.prims) && entry == None && fault == plan.fault
      ensures name !in BadNames(old(disk)) ==>
        && disk == old(disk) && trace == old(trace) && fault == None
        && entry == if IsDue(old(disk), name, now, cfg.parse) then Some(EntryOf(old(disk), name, cfg.parse)) else None
    {
      var path := Path(Pending, name);
      if disk[path].Garbage? {
        fault := FailPending(name, InvalidJson);
        return None, fault;
      }
      if !disk[path].value.Obj? {
        fault := FailPending(name, InvalidPayload);
        return None, fault;
      }
      var payload := disk[path].value.fields;
      var nextAttemptAt := NextAt(payload, cfg.parse);
      if nextAttemptAt <= now {
        return Some(Entry(nextAttemptAt, name, payload)), None;
      }
      return None, None;
    }

    /** The first `limit` due captures, earliest first, left where they are. Files that are
        not JSON objects are set aside on the way; if that raises, nothing is handed out. */
    method PopPending(limit: int, now: real) returns (items: seq<Item>, fault: Option<Fault>)
      modifies this
      ensures fault.None? ==>
        exists due :: IsDueList(old(disk), now, cfg.parse, due) && items == First(ItemsOf(due), limit)
      ensures fault.None? ==> SetAside(old(disk), disk, BadNames(old(disk)))
      ensures fault.Some? ==> items == []
      ensures old(trace) <= trace && OnlyBadMovedSince(old(disk), |old(trace)|)
      ensures Within(cfg, old(disk)) ==> WithinSince(|old(trace)|)
    {
      hide Run, States, FailPendingPlan, SetAside, OnlyBadMoved, SortEntries, IsDue, EntryOf, Leq, Within, QueueCount,
           BadNames, BadReason;
      var rest := Names(disk, Pending);
      var dueItems: seq<Entry> := [];
      ghost var d0, start := disk, |trace|;
      NothingSetAside(d0);
      NothingSeen(d0, now, cfg.parse);
      while rest != {}
        invariant rest <= Names(d0, Pending)
        invariant SetAside(d0, disk, BadNames(d0) - rest)
        invariant SeenSoFar(d0, now, cfg.parse, rest, dueItems)
        invariant old(trace) <= trace && OnlyBadMovedSince(d0, start)
        invariant Within(cfg, d0) ==> WithinSince(start)
        decreases |rest|
      {
        var name :| name in rest;
        ghost var before := disk;
        PendingStep(cfg, d0, before, rest, name, now);
        if name in BadNames(d0) && Within(cfg, d0) {
          FailPendingKeeps(cfg, before, name, BadReason(before, name));
        }
        var entry;
        entry, fault := LookAtPending(name, now);
        if fault.Some? {
          return [], fault;
        }
        SeeOne(d0, now, cfg.parse, rest, dueItems, name);
        if entry.Some? {
          dueItems := dueItems + [entry.value];
        }
        rest := rest - {name};
      }
      assert BadNames(d0) - {} == BadNames(d0);
      AllSeen(d0, now, cfg.parse, dueItems);
      return First(ItemsOf(SortEntries(dueItems)), limit), None;
    }

    /** Within the limits now, and never more than one file over since `start`. */
    ghost predicate WithinSince(start: nat)
      reads this
    {
      && start <= |trace|
      && Within(cfg, disk)
      && forall i :: start <= i < |trace| ==> QueueCount(trace[i]) <= cfg.maxFiles + 1
    }

    ghost predicate OnlyBadMovedSince(d0: Disk, start: nat)
      reads this
    {
      && start <= |trace|
      && OnlyBadMoved(d0, disk)
      && forall i :: start <= i < |trace| ==> OnlyBadMoved(d0, trace[i])
    }

    /** Claims up to `limit` due items: the slice is taken before the due test. */
    method PopReady(limit: int, now: real) returns (items: seq<Item>, fault: Option<Fault>)
      modifies this
      ensures var plan := PopReadyPlan(cfg, old(disk), limit, now);
        Performed(plan.prims) && items == plan.items && fault == plan.fault
    {
      hide Run, States, ReclaimAll, ClaimAll, Sorted;
      fault := ReclaimExpiredInflight(now);
      if fault.Some? {
        return [], fault;
      }
      ghost var d1 := disk;
      ghost var reclaimed := ReclaimAll(cfg, old(disk), Sorted(Names(old(disk), Inflight)), now);
      var names := Sorted(Names(disk, Ready));
      items, fault := ClaimReady(First(names, limit), now);
      RunConcat(old(disk), reclaimed.prims, ClaimAll(cfg, d1, First(names, limit), now).prims);
    }
  }

  lemma {:induction false} ThenClaimsAssociative(a: Claims, b: Claims, c: Claims)
    requires a.fault.None? && b.fault.None?
    ensures ThenClaims(a, ThenClaims(b, c)) == ThenClaims(ThenClaims(a, b), c)
  {
    assert a.prims + (b.prims + c.prims) == a.prims + b.prims + c.prims;
    assert a.items + (b.items + c.items) == a.items + b.items + c.items;
  }
}
