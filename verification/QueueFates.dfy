/** What `pop_ready` makes of each file, read off the members of the file itself: which claims
    run on, which envelopes are due, what each file holds afterwards, and where it is. */
module QueueFates {
  import opened Options
  import opened StringOrder
  import opened JsonValue
  import opened Disks
  import opened Sums
  import opened SpoolPlans
  import opened FileSpools
  import opened Refinement
  import opened Members

  // ------------------------------------------------------------------------------ members

  /** The claim has a time, and is younger than the time to live. */
  ghost predicate ClaimRunsOn(cfg: Config, o: Fields, now: real) {
    exists t :: Reads(o, "claimed_at", t, cfg.parse) && now - t < cfg.ttl
  }

  /** The envelope names a later time; without one it is due from time zero. */
  ghost predicate NotYetDue(cfg: Config, o: Fields, now: real) {
    if "delivery" in o && o["delivery"].Obj? && "next_attempt_at" in o["delivery"].fields then
      exists t :: Reads(o, "next_attempt_at", t, cfg.parse) && now < t
    else now < 0.0
  }

  /** The claim is gone and the envelope due at once; without a delivery part it is the same. */
  ghost predicate PutBack(o: Fields, r: Fields) {
    if "delivery" in o && o["delivery"].Obj? then
      && Redelivered(o, r, {"worker_id", "claimed_at", "next_attempt_at"})
      && "worker_id" !in r["delivery"].fields && "claimed_at" !in r["delivery"].fields
      && Says(r["delivery"].fields, "next_attempt_at", Num(0.0))
    else r == o
  }

  ghost predicate HandedOut(cfg: Config, o: Fields, r: Fields, now: real) {
    && Redelivered(o, r, {"worker_id", "claimed_at"})
    && Says(r["delivery"].fields, "worker_id", Str(cfg.workerId))
    && Says(r["delivery"].fields, "claimed_at", Num(now))
  }

  /** What an unreadable file leaves in `failed`. */
  function Quarantined(f: File): File {
    Doc(Obj(map["delivery" := Obj(map["failure_reason" :=
      Str(if f.Garbage? then "invalid_json" else "invalid_envelope")])]))
  }

  ghost predicate AllSame(d: Disk, d': Disk, name: string) {
    forall dir: Dir :: Same(d, d', Path(dir, name))
  }

  // ------------------------------------------------------------------------------- limits

  /** Room for a write: the request's bytes, the counted files that stay beside it, and theirs.
      A file replaced in `failed`, which is not counted, is still credited. */
  ghost predicate Room(cfg: Config, d: Disk, dest: Path, payload: Fields, leaving: set<Path>) {
    var others := Others(d, dest, leaving);
    var credited := dest.dir == Failed && dest in d;
    && Size(if "request" in payload && payload["request"].Obj? then payload["request"] else Obj(payload), cfg.numLen)
       <= cfg.maxPayloadBytes
    && |others| + (if credited then 0 else 1) <= cfg.maxFiles
    && BytesOf(cfg, d, others) + Size(Obj(payload), cfg.numLen)
       <= cfg.maxBytes + (if credited then Bytes(cfg, d[dest]) else 0)
  }

  function Bytes(cfg: Config, f: File): nat {
    if f.Garbage? then f.bytes else Size(f.value, cfg.numLen)
  }

  ghost function Others(d: Disk, dest: Path, leaving: set<Path>): set<Path> {
    set p | p in d && p.dir in {Pending, Ready, Inflight} && p != dest && p !in leaving
  }

  ghost function BytesOf(cfg: Config, d: Disk, files: set<Path>): nat {
    Sum(map p | p in files && p in d :: Bytes(cfg, d[p]))
  }

  lemma {:induction false} OthersCounted(d: Disk, dest: Path, leaving: set<Path>)
    requires dest !in leaving
    ensures var counted, others := QueuePaths(d, leaving), Others(d, dest, leaving);
      && dest !in others
      && counted == (if dest in d && dest.dir != Failed then others + {dest} else others)
  {
  }

  lemma {:induction false} CountedAndOthers(cfg: Config, d: Disk, dest: Path, leaving: set<Path>)
    requires dest !in leaving
    ensures var counted, others := QueuePaths(d, leaving), Others(d, dest, leaving);
      if dest in d && dest.dir != Failed then
        && |counted| == |others| + 1
        && Sum(Sizes(cfg, d, counted)) == BytesOf(cfg, d, others) + Bytes(cfg, d[dest])
      else |counted| == |others| && Sum(Sizes(cfg, d, counted)) == BytesOf(cfg, d, others)
  {
    var counted, others := QueuePaths(d, leaving), Others(d, dest, leaving);
    OthersCounted(d, dest, leaving);
    hide Size, Sum, QueuePaths, Others;
    var sizes := Sizes(cfg, d, counted);
    assert (map p | p in others && p in d :: Bytes(cfg, d[p])) == sizes - {dest};
    if dest in d && dest.dir != Failed {
      SumRemove(sizes, dest);
    } else {
      assert sizes - {dest} == sizes;
    }
  }

  /** A write goes through exactly when there is room for it. */
  lemma {:induction false} WriteAllowedIff(cfg: Config, d: Disk, dest: Path, payload: Fields, leaving: set<Path>)
    requires dest !in leaving
    ensures WritePlan(cfg, d, dest, payload, leaving).fault.None? <==> Room(cfg, d, dest, payload, leaving)
  {
    hide Size, Sum, Sizes, QueuePaths, Others, BytesOf;
    CountedAndOthers(cfg, d, dest, leaving);
  }

  // -------------------------------------------------------------------------- one file each

  /** What the reclaim loop makes of an inflight file. */
  ghost predicate Reclaimed(cfg: Config, d: Disk, d': Disk, name: string, now: real)
    requires Path(Inflight, name) in d
  {
    var f := d[Path(Inflight, name)];
    if !Readable(f) then
      && Path(Inflight, name) !in d' && Same(d, d', Path(Ready, name))
      && Path(Failed, name) in d' && d'[Path(Failed, name)] == Quarantined(f)
    else if ClaimRunsOn(cfg, f.value.fields, now) then AllSame(d, d', name)
    else
      && Path(Inflight, name) !in d' && Path(Ready, name) in d' && Readable(d'[Path(Ready, name)])
      && PutBack(f.value.fields, d'[Path(Ready, name)].value.fields) && Same(d, d', Path(Failed, name))
  }

  lemma {:induction false} UnclaimedIsPutBack(o: Fields)
    ensures PutBack(o, Unclaimed(o)) && forall r :: PutBack(o, r) ==> r == Unclaimed(o)
  {
    forall r: Fields | PutBack(o, r) ensures r == Unclaimed(o) {
      if HasDelivery(o) {
        assert r["delivery"].fields == Unclaimed(o)["delivery"].fields;
      }
    }
  }

  lemma {:induction false} ExpiredIffNotRunning(cfg: Config, o: Fields, now: real)
    ensures Expired(cfg, o, now) <==> !ClaimRunsOn(cfg, o, now)
  {
    var at := ToFloat(Get(DeliveryOf(o), "claimed_at"), cfg.parse);
    assert forall t :: Reads(o, "claimed_at", t, cfg.parse) <==> at == Some(t);
  }

  lemma {:induction false} DueIffNotLater(cfg: Config, o: Fields, now: real)
    ensures Due(cfg, o, now) <==> !NotYetDue(cfg, o, now)
  {
    if HasDelivery(o) && "next_attempt_at" in DeliveryOf(o) {
      var at := ToFloat(DeliveryOf(o)["next_attempt_at"], cfg.parse);
      assert forall t :: Reads(o, "next_attempt_at", t, cfg.parse) <==> at == Some(t);
    }
  }

  /** One turn of the reclaim loop: a claim that runs on is left alone; another goes back when
      there is room, and else stays where it is and ends the loop. */
  lemma {:induction false} ReclaimTurn(cfg: Config, d: Disk, name: string, now: real)
    requires Path(Inflight, name) in d
    ensures var f, plan := d[Path(Inflight, name)], ReclaimPlan(cfg, d, name, now);
      && (plan.fault.None? ==> Reclaimed(cfg, d, Run(d, plan.prims), name, now))
      && (plan.fault.Some? ==> Run(d, plan.prims) == d)
      && (Readable(f) && ClaimRunsOn(cfg, f.value.fields, now) ==> plan == Plan([], None))
      && (Readable(f) && !ClaimRunsOn(cfg, f.value.fields, now) ==>
            forall r :: PutBack(f.value.fields, r) ==>
              (plan.fault.None? <==> Room(cfg, d, Path(Ready, name), r, {Path(Inflight, name)})))
  {
    hide WriteFault, Room, ClaimRunsOn, PutBack;
    var p := Path(Inflight, name);
    if Readable(d[p]) {
      var o := d[p].value.fields;
      ExpiredIffNotRunning(cfg, o, now);
      UnclaimedIsPutBack(o);
      WriteAllowedIff(cfg, d, Path(Ready, name), Unclaimed(o), {p});
      MoveStates(d, p, Path(Ready, name), Doc(Obj(Unclaimed(o))));
    } else {
      QuarantineTurn(cfg, d, name);
    }
  }

  /** It can be read and is due. */
  ghost predicate Deliverable(cfg: Config, f: File, now: real) {
    Readable(f) && !NotYetDue(cfg, f.value.fields, now)
  }

  /** What the claim loop makes of a ready file. */
  ghost predicate ClaimSettled(cfg: Config, d': Disk, name: string, f: File, now: real) {
    if !Readable(f) then
      && Path(Ready, name) !in d' && Path(Inflight, name) !in d'
      && Path(Failed, name) in d' && d'[Path(Failed, name)] == Quarantined(f)
    else if NotYetDue(cfg, f.value.fields, now) then
      && Path(Inflight, name) !in d' && Path(Ready, name) in d' && Readable(d'[Path(Ready, name)])
      && Redelivered(f.value.fields, d'[Path(Ready, name)].value.fields, {})
    else
      && Path(Ready, name) !in d' && Path(Inflight, name) in d' && Readable(d'[Path(Inflight, name)])
      && HandedOut(cfg, f.value.fields, d'[Path(Inflight, name)].value.fields, now)
  }

  /** The items handed out are the inflight files of these names, in this order. */
  ghost predicate ItemsAre(d: Disk, items: seq<Item>, names: seq<string>) {
    && |items| == |names|
    && forall i :: 0 <= i < |items| ==>
         && items[i].name == names[i]
         && Path(Inflight, names[i]) in d && d[Path(Inflight, names[i])] == Doc(Obj(items[i].payload))
  }

  /** Those of the names whose ready file can be delivered. */
  ghost function DueNames(cfg: Config, d: Disk, names: seq<string>, now: real): seq<string>
    requires AllIn(d, Ready, names)
  {
    if names == [] then []
    else
      assert forall i :: 0 <= i < |names| - 1 ==> names[1..][i] == names[i + 1];
      (if Deliverable(cfg, d[Path(Ready, names[0])], now) then [names[0]] else [])
      + DueNames(cfg, d, names[1..], now)
  }

  lemma {:induction false} StampedIsHandedOut(cfg: Config, o: Fields, now: real)
    ensures HandedOut(cfg, o, Stamped(cfg, WithDelivery(o), now), now)
    ensures Redelivered(o, WithDelivery(o), {})
  {
  }

  lemma {:induction false} SettleTurn(cfg: Config, d: Disk, name: string, now: real)
    requires Path(Inflight, name) in d && Path(Ready, name) !in d
    ensures var f, plan := d[Path(Inflight, name)], SettlePlan(cfg, d, name, now);
      && (plan.fault.None? ==>
            && ClaimSettled(cfg, Run(d, plan.prims), name, f, now)
            && ItemsAre(Run(d, plan.prims), plan.items, if Deliverable(cfg, f, now) then [name] else []))
      && (plan.fault.Some? ==> plan.prims == [] && plan.items == [])
  {
    hide WriteFault, NotYetDue, HandedOut, Redelivered, Stamped, WithDelivery, Quarantined, BadFileReason, FailPlan;
    var p := Path(Inflight, name);
    if Readable(d[p]) {
      var f := d[p].value.fields;
      var o := WithDelivery(f);
      DueIffNotLater(cfg, o, now);
      LaterUnderDelivery(cfg, f, now);
      StampedIsHandedOut(cfg, f, now);
      MoveStates(d, p, Path(Ready, name), Doc(Obj(o)));
      RunOne(d, Put(p, Doc(Obj(Stamped(cfg, o, now)))));
    } else {
      QuarantineTurn(cfg, d, name);
    }
  }

  lemma {:induction false} QuarantineTurn(cfg: Config, d: Disk, name: string)
    requires Path(Inflight, name) in d && !Readable(d[Path(Inflight, name)])
    ensures var f := d[Path(Inflight, name)];
      var plan := FailPlan(cfg, d, name, BadFileReason(d, Path(Inflight, name)));
      if plan.fault.Some? then plan.prims == []
      else Run(d, plan.prims) == d[Path(Failed, name) := Quarantined(f)] - {Path(Inflight, name)}
  {
    hide WriteFault;
    var p := Path(Inflight, name);
    var b := FailedEnvelope(d, p, BadFileReason(d, p));
    assert Doc(Obj(b)) == Quarantined(d[p]);
    MoveStates(d, p, Path(Failed, name), Doc(Obj(b)));
  }

  lemma {:induction false} LaterUnderDelivery(cfg: Config, o: Fields, now: real)
    ensures NotYetDue(cfg, WithDelivery(o), now) <==> NotYetDue(cfg, o, now)
  {
    if HasDelivery(o) {
      assert WithDelivery(o) == o;
    }
  }

  /** One turn of the claim loop: set aside, put back, or stamped and handed out; without room
      the envelope stays renamed and the loop ends. */
  lemma {:induction false} ClaimTurn(cfg: Config, d: Disk, name: string, now: real)
    requires Path(Ready, name) in d
    ensures var f, plan := d[Path(Ready, name)], ClaimPlan(cfg, d, name, now);
      var d' := Run(d, plan.prims);
      && (plan.fault.None? ==> 
            && ClaimSettled(cfg, d', name, f, now)
            && ItemsAre(d', plan.items, if Deliverable(cfg, f, now) then [name] else []))
      && (plan.fault.Some? ==> d' == d[Path(Inflight, name) := f] - {Path(Ready, name)} && plan.items == [])
  {
    hide SettlePlan, ClaimSettled, Run;
    var d1 := Apply(d, ClaimPrim(name));
    SettleTurn(cfg, d1, name, now);
    RunOne(d, ClaimPrim(name));
    RunConcat(d, [ClaimPrim(name)], SettlePlan(cfg, d1, name, now).prims);
    RunNothing(d1);
  }

  // ------------------------------------------------------------------------- whole loops

  lemma {:induction false} OthersAllSame(d: Disk, prims: seq<Prim>, name: string, other: string)
    requires AboutName(prims, name) && other != name
    ensures AllSame(d, Run(d, prims), other)
  {
    forall dir: Dir ensures Same(d, Run(d, prims), Path(dir, other)) {
      OthersStay(d, prims, name, Path(dir, other));
    }
  }

  /** The reclaim loop: every name in it gets its turn, or nothing of it is touched. */
  lemma {:induction false} ReclaimLoop(cfg: Config, d: Disk, names: seq<string>, now: real)
    requires Distinct(names) && AllIn(d, Inflight, names)
    ensures var plan := ReclaimAll(cfg, d, names, now); var d' := Run(d, plan.prims);
      && (forall n :: n !in names ==> AllSame(d, d', n))
      && (forall n :: n in names ==>
            || Reclaimed(cfg, d, d', n, now)
            || (plan.fault.Some? && AllSame(d, d', n)))
    decreases |names|
  {
    hide Run, ReclaimPlan, Reclaimed, AllSame, AboutName;
    if names == [] {
      RunNothing(d);
      NothingChanges(d);
    } else {
      var first := ReclaimPlan(cfg, d, names[0], now);
      ReclaimTurn(cfg, d, names[0], now);
      ReclaimAboutName(cfg, d, names[0], now);
      NothingChanges(d);
      if first.fault.None? {
        var d1 := Run(d, first.prims);
        var rest := ReclaimAll(cfg, d1, names[1..], now);
        var d' := Run(d1, rest.prims);
        StillThere(d, first.prims, Inflight, names);
        ReclaimLoop(cfg, d1, names[1..], now);
        RunConcat(d, first.prims, rest.prims);
        TailWithout(names);
        ReclaimedThen(cfg, d, d1, d', names[0], now);
        forall n | n != names[0] ensures n !in names ==> AllSame(d, d', n)
          ensures n in names ==> Reclaimed(cfg, d, d', n, now) || (rest.fault.Some? && AllSame(d, d', n))
        {
          OthersAllSame(d, first.prims, names[0], n);
          SameThen(cfg, d, d1, d', n, now);
          assert n in names <==> n in names[1..];
          if n in names {
            InflightAt(d, names, n);
            InflightAt(d1, names[1..], n);
          }
        }
      }
    }
  }

  lemma {:induction false} TailWithout(names: seq<string>)
    requires names != [] && Distinct(names)
    ensures names[0] !in names[1..] && Distinct(names[1..])
    ensures forall n :: n in names <==> n == names[0] || n in names[1..]
  {
    assert forall i :: 0 <= i < |names[1..]| ==> names[1..][i] == names[i + 1];
  }

  lemma {:induction false} InflightAt(d: Disk, names: seq<string>, n: string)
    requires AllIn(d, Inflight, names) && n in names
    ensures Path(Inflight, n) in d
  {
  }

  lemma {:induction false} ReclaimedThen(cfg: Config, d: Disk, d1: Disk, d': Disk, name: string, now: real)
    requires Path(Inflight, name) in d && Reclaimed(cfg, d, d1, name, now) && AllSame(d1, d', name)
    ensures Reclaimed(cfg, d, d', name, now)
  {
    hide ClaimRunsOn, PutBack;
    assert forall dir: Dir :: Same(d1, d', Path(dir, name));
    assert Same(d1, d', Path(Ready, name)) && Same(d1, d', Path(Inflight, name)) && Same(d1, d', Path(Failed, name));
  }

  lemma {:induction false} SameThen(cfg: Config, d: Disk, d1: Disk, d': Disk, name: string, now: real)
    requires AllSame(d, d1, name)
    ensures AllSame(d1, d', name) ==> AllSame(d, d', name)
    ensures Path(Inflight, name) in d && Path(Inflight, name) in d1 && Reclaimed(cfg, d1, d', name, now) ==>
      Reclaimed(cfg, d, d', name, now)
  {
    hide ClaimRunsOn, PutBack;
    assert Same(d, d1, Path(Ready, name)) && Same(d, d1, Path(Inflight, name)) && Same(d, d1, Path(Failed, name));
  }

  lemma {:induction false} NothingChanges(d: Disk)
    ensures forall n :: AllSame(d, d, n)
  {
  }

  /** Every name got its turn, and what is due was handed out in order; or a write found no room,
      and nothing was. */
  ghost predicate ClaimsDone(cfg: Config, d: Disk, names: seq<string>, now: real, plan: Claims)
    requires AllIn(d, Ready, names)
  {
    var d' := Run(d, plan.prims);
    && (forall n :: n !in names ==> AllSame(d, d', n))
    && (plan.fault.Some? ==> plan.items == [])
    && (plan.fault.None? ==> ItemsAre(d', plan.items, DueNames(cfg, d, names, now)))
    && (plan.fault.None? ==> forall i :: 0 <= i < |names| ==>
          ClaimSettled(cfg, d', names[i], d[Path(Ready, names[i])], now))
  }

  lemma {:induction false} DueNamesSame(cfg: Config, d: Disk, d1: Disk, names: seq<string>, now: real)
    requires AllIn(d, Ready, names) && AllIn(d1, Ready, names) && forall n :: n in names ==> AllSame(d, d1, n)
    ensures DueNames(cfg, d, names, now) == DueNames(cfg, d1, names, now)
  {
    hide Deliverable;
    if names != [] {
      assert forall n :: n in names[1..] ==> n in names;
      assert AllIn(d, Ready, names[1..]) && AllIn(d1, Ready, names[1..]) by {
        assert forall i :: 0 <= i < |names| - 1 ==> names[1..][i] == names[i + 1];
      }
      DueNamesSame(cfg, d, d1, names[1..], now);
      assert names[0] in names && Same(d, d1, Path(Ready, names[0]));
    }
  }

  lemma {:induction false} ItemsConcat(d: Disk, a: seq<Item>, xs: seq<string>, b: seq<Item>, ys: seq<string>)
    requires ItemsAre(d, a, xs) && ItemsAre(d, b, ys)
    ensures ItemsAre(d, a + b, xs + ys)
  {
  }

  lemma {:induction false} SettledThen(cfg: Config, d1: Disk, d': Disk, name: string, f: File, now: real,
                                       items: seq<Item>)
    requires AllSame(d1, d', name) && ClaimSettled(cfg, d1, name, f, now)
    requires ItemsAre(d1, items, if Deliverable(cfg, f, now) then [name] else [])
    ensures ClaimSettled(cfg, d', name, f, now)
    ensures ItemsAre(d', items, if Deliverable(cfg, f, now) then [name] else [])
  {
    hide NotYetDue, Redelivered, HandedOut, Quarantined;
    assert Same(d1, d', Path(Ready, name)) && Same(d1, d', Path(Inflight, name)) && Same(d1, d', Path(Failed, name));
  }

  lemma {:induction false} ClaimMore(cfg: Config, d: Disk, names: seq<string>, now: real)
    requires names != [] && Distinct(names) && AllIn(d, Ready, names) && ClaimPlan(cfg, d, names[0], now).fault.None?
    requires var d1 := Run(d, ClaimPlan(cfg, d, names[0], now).prims);
      AllIn(d1, Ready, names[1..]) && ClaimsDone(cfg, d1, names[1..], now, ClaimAll(cfg, d1, names[1..], now))
    ensures ClaimsDone(cfg, d, names, now, ClaimAll(cfg, d, names, now))
  {
    hide Run, ClaimPlan, ClaimSettled, AllSame, AboutName, ItemsAre, Deliverable;
    var name := names[0];
    var first := ClaimPlan(cfg, d, name, now);
    var d1 := Run(d, first.prims);
    var rest := ClaimAll(cfg, d1, names[1..], now);
    var d' := Run(d1, rest.prims);
    RunConcat(d, first.prims, rest.prims);
    TailWithout(names);
    ClaimTurn(cfg, d, name, now);
    ClaimAboutName(cfg, d, name, now);
    forall n | n != name ensures AllSame(d, d1, n) && (AllSame(d1, d', n) ==> AllSame(d, d', n)) {
      OthersAllSame(d, first.prims, name, n);
      SameThen(cfg, d, d1, d', n, now);
    }
    if rest.fault.None? {
      assert AllIn(d, Ready, names[1..]) by {
        assert forall i :: 0 <= i < |names| - 1 ==> names[1..][i] == names[i + 1];
      }
      DueNamesSame(cfg, d, d1, names[1..], now);
      SettledThen(cfg, d1, d', name, d[Path(Ready, name)], now, first.items);
      ItemsConcat(d', first.items, if Deliverable(cfg, d[Path(Ready, name)], now) then [name] else [],
                  rest.items, DueNames(cfg, d, names[1..], now));
      forall i | 0 < i < |names| ensures ClaimSettled(cfg, d', names[i], d[Path(Ready, names[i])], now) {
        assert names[1..][i - 1] == names[i];
        ReadySame(d, d1, names[i]);
      }
    }
  }

  lemma {:induction false} ReadySame(d: Disk, d1: Disk, name: string)
    requires AllSame(d, d1, name)
    ensures Same(d, d1, Path(Ready, name))
  {
  }

  lemma {:induction false} ClaimLoop(cfg: Config, d: Disk, names: seq<string>, now: real)
    requires Distinct(names) && AllIn(d, Ready, names)
    ensures ClaimsDone(cfg, d, names, now, ClaimAll(cfg, d, names, now))
    decreases |names|
  {
    hide Run, ClaimPlan, ClaimSettled, AllSame, AboutName, ItemsAre, Deliverable;
    if names == [] {
      RunNothing(d);
      NothingChanges(d);
      NoItems(d);
    } else {
      var first := ClaimPlan(cfg, d, names[0], now);
      ClaimTurn(cfg, d, names[0], now);
      ClaimAboutName(cfg, d, names[0], now);
      if first.fault.None? {
        var d1 := Run(d, first.prims);
        StillThere(d, first.prims, Ready, names);
        ClaimLoop(cfg, d1, names[1..], now);
        ClaimMore(cfg, d, names, now);
      } else {
        forall n | n !in names ensures AllSame(d, Run(d, first.prims), n) {
          OthersAllSame(d, first.prims, names[0], n);
        }
      }
    }
  }

  lemma {:induction false} NoItems(d: Disk)
    ensures ItemsAre(d, [], [])
  {
  }

  // ------------------------------------------------------------------------ all of pop_ready

  /** An inflight envelope whose claim has run out, or never had a time. */
  ghost predicate Returns(cfg: Config, d: Disk, name: string, now: real) {
    var p := Path(Inflight, name);
    p in d && Readable(d[p]) && !ClaimRunsOn(cfg, d[p].value.fields, now)
  }

  /** There is something to claim under this name. */
  ghost predicate Waits(cfg: Config, d: Disk, name: string, now: real) {
    Path(Ready, name) in d || Returns(cfg, d, name, now)
  }

  /** What there is to claim: an envelope that returns replaces a ready one of its name. */
  ghost predicate WaitsAs(cfg: Config, d: Disk, name: string, now: real, f: File) {
    if Returns(cfg, d, name, now) then Readable(f) && PutBack(d[Path(Inflight, name)].value.fields, f.value.fields)
    else Path(Ready, name) in d && f == d[Path(Ready, name)]
  }

  ghost function Waiting(cfg: Config, d: Disk, now: real): set<string> {
    set p | p in d && Waits(cfg, d, p.name, now) :: p.name
  }

  /** Fewer than `limit` names, and at least one, are claimed: those that come first in order. */
  ghost predicate InTurn(cfg: Config, d: Disk, name: string, limit: int, now: real) {
    var earlier := set n | n in Waiting(cfg, d, now) && Less(n, name);
    name in Waiting(cfg, d, now) && |earlier| < (if limit < 1 then 1 else limit)
  }

  lemma {:induction false} PrefixSet(names: seq<string>)
    requires Distinct(names)
    ensures |set n | n in names| == |names|
  {
    if names != [] {
      TailWithout(names);
      PrefixSet(names[1..]);
      assert (set n | n in names) == {names[0]} + set n | n in names[1..];
    }
  }

  /** What comes before a member of an ascending list. */
  lemma {:induction false} Before(all: seq<string>, i: nat)
    requires Ascending(all) && i < |all|
    ensures |set n | n in all && Less(n, all[i])| == i
  {
    hide Less;
    forall n ensures n in all[..i] <==> n in all && Less(n, all[i]) {
      if n in all && Less(n, all[i]) {
        var k :| 0 <= k < |all| && all[k] == n;
        LessOneWay(n, all[i]);
      }
    }
    assert (set n | n in all && Less(n, all[i])) == set n | n in all[..i];
    AscendingDistinct(all);
    PrefixSet(all[..i]);
  }

  /** The first of a sorted set are those with few before them. */
  lemma {:induction false} FirstByRank(s: set<string>, name: string, limit: int)
    ensures name in First(Sorted(s), limit) <==>
      name in s && |set n | n in s && Less(n, name)| < (if limit < 1 then 1 else limit)
  {
    hide Sorted, Less;
    var all, first := Sorted(s), First(Sorted(s), limit);
    if name in s {
      var i :| 0 <= i < |all| && all[i] == name;
      Before(all, i);
      assert (set n | n in s && Less(n, name)) == set n | n in all && Less(n, name);
      AscendingDistinct(all);
      assert i < |first| ==> first[i] == name;
      assert forall k :: 0 <= k < |first| && first[k] == name ==> all[k] == all[i];
    }
  }

  lemma {:induction false} LessOneWay(a: string, b: string)
    requires Less(a, b)
    ensures !Less(b, a)
  {
    if Leq(b, a) {
      LeqAntisymmetric(a, b);
    }
  }

  lemma {:induction false} AscendingDistinct(names: seq<string>)
    requires Ascending(names)
    ensures Distinct(names)
  {
    hide Leq;
  }

  /** After the reclaim phase exactly what waits is in the ready directory, as it waits. */
  lemma {:induction false} ReclaimedWaits(cfg: Config, d: Disk, d1: Disk, now: real)
    requires forall n :: Path(Inflight, n) !in d ==> AllSame(d, d1, n)
    requires forall n :: Path(Inflight, n) in d ==> Reclaimed(cfg, d, d1, n, now)
    ensures Names(d1, Ready) == Waiting(cfg, d, now)
    ensures forall n :: Path(Ready, n) in d1 ==> WaitsAs(cfg, d, n, now, d1[Path(Ready, n)])
    ensures forall n, f :: WaitsAs(cfg, d, n, now, f) ==> Path(Ready, n) in d1 && d1[Path(Ready, n)] == f
  {
    hide ClaimRunsOn, PutBack;
    forall n ensures Path(Ready, n) in d1 <==> Waits(cfg, d, n, now)
      ensures Path(Ready, n) in d1 ==> WaitsAs(cfg, d, n, now, d1[Path(Ready, n)])
    {
      assert Path(Inflight, n) !in d ==> Same(d, d1, Path(Ready, n));
      assert Path(Inflight, n) in d && AllSame(d, d1, n) ==> Same(d, d1, Path(Ready, n));
    }
    forall n | n in Names(d1, Ready) ensures n in Waiting(cfg, d, now) {
      assert Waits(cfg, d, n, now);
      assert Path(Ready, n) in d || Path(Inflight, n) in d;
    }
    forall n | n in Waiting(cfg, d, now) ensures n in Names(d1, Ready) {
      assert Path(Ready, n) in d1;
    }
    forall n, f | WaitsAs(cfg, d, n, now, f) ensures Path(Ready, n) in d1 && d1[Path(Ready, n)] == f {
      assert Waits(cfg, d, n, now);
      if Returns(cfg, d, n, now) {
        PutBackUnique(d[Path(Inflight, n)].value.fields, f.value.fields, d1[Path(Ready, n)].value.fields);
      }
    }
  }

  lemma {:induction false} PutBackUnique(o: Fields, a: Fields, b: Fields)
    requires PutBack(o, a) && PutBack(o, b)
    ensures a == b
  {
    UnclaimedIsPutBack(o);
  }

  lemma {:induction false} InflightAll(cfg: Config, d: Disk, now: real)
    requires ReclaimAll(cfg, d, Sorted(Names(d, Inflight)), now).fault.None?
    ensures var d1 := Run(d, ReclaimAll(cfg, d, Sorted(Names(d, Inflight)), now).prims);
      && (forall n :: Path(Inflight, n) !in d ==> AllSame(d, d1, n))
      && (forall n :: Path(Inflight, n) in d ==> Reclaimed(cfg, d, d1, n, now))
  {
    hide Run, ReclaimAll, Reclaimed, AllSame, Sorted;
    var names := Sorted(Names(d, Inflight));
    InflightNames(d);
    ReclaimLoop(cfg, d, names, now);
    assert forall n :: n in Names(d, Inflight) <==> Path(Inflight, n) in d;
  }

  /** What there is to claim has its turn or waits on, and what is left of an inflight file with
      nothing to claim: nothing, when it could not be read, and else all of it. */
  ghost predicate Fate(cfg: Config, d: Disk, d': Disk, name: string, limit: int, now: real) {
    if Waits(cfg, d, name, now) then
      forall f :: WaitsAs(cfg, d, name, now, f) ==>
        if InTurn(cfg, d, name, limit, now) then ClaimSettled(cfg, d', name, f, now)
        else
          && Path(Ready, name) in d' && d'[Path(Ready, name)] == f
          && (Path(Inflight, name) in d' <==>
                Path(Inflight, name) in d && Readable(d[Path(Inflight, name)])
                && ClaimRunsOn(cfg, d[Path(Inflight, name)].value.fields, now))
    else if Path(Inflight, name) in d && !Readable(d[Path(Inflight, name)]) then
      && Path(Ready, name) !in d' && Path(Inflight, name) !in d'
      && Path(Failed, name) in d' && d'[Path(Failed, name)] == Quarantined(d[Path(Inflight, name)])
    else AllSame(d, d', name)
  }

  /** `pop_ready`, when nothing raises: where every file of the spool ends, and what it holds. */
  lemma {:induction false} PopReadyFates(cfg: Config, d: Disk, limit: int, now: real)
    requires PopReadyPlan(cfg, d, limit, now).fault.None?
    ensures var claims := PopReadyPlan(cfg, d, limit, now);
      forall n :: Fate(cfg, d, Run(d, claims.prims), n, limit, now)
  {
    hide Run, ReclaimAll, ClaimAll, Reclaimed, AllSame, Sorted, First, ClaimSettled, WaitsAs, Waits, InTurn, Fate;
    var reclaimed := ReclaimAll(cfg, d, Sorted(Names(d, Inflight)), now);
    var d1 := Run(d, reclaimed.prims);
    InflightAll(cfg, d, now);
    ReclaimedWaits(cfg, d, d1, now);
    var names := First(Sorted(Names(d1, Ready)), limit);
    FirstOf(d1, Ready, limit);
    ClaimLoop(cfg, d1, names, now);
    var claimed := ClaimAll(cfg, d1, names, now);
    RunConcat(d, reclaimed.prims, claimed.prims);
    var d' := Run(d1, claimed.prims);
    forall n ensures Fate(cfg, d, d', n, limit, now) {
      assert n in names ==> ClaimSettled(cfg, d', n, d1[Path(Ready, n)], now);
      InTurnIff(cfg, d, n, limit, now);
      FateOf(cfg, d, d1, d', n, names, limit, now);
    }
  }

  lemma {:induction false} InTurnIff(cfg: Config, d: Disk, name: string, limit: int, now: real)
    ensures InTurn(cfg, d, name, limit, now) <==> name in First(Sorted(Waiting(cfg, d, now)), limit)
  {
    hide First, Sorted, Waiting;
    FirstByRank(Waiting(cfg, d, now), name, limit);
  }

  lemma {:induction false} FateOf(cfg: Config, d: Disk, d1: Disk, d': Disk, n: string, names: seq<string>, limit: int,
                                  now: real)
    requires Path(Inflight, n) !in d ==> AllSame(d, d1, n)
    requires Path(Inflight, n) in d ==> Reclaimed(cfg, d, d1, n, now)
    requires Path(Ready, n) in d1 <==> n in Waiting(cfg, d, now)
    requires forall f :: WaitsAs(cfg, d, n, now, f) ==> Path(Ready, n) in d1 && d1[Path(Ready, n)] == f
    requires n in names <==> InTurn(cfg, d, n, limit, now)
    requires n in names ==> Path(Ready, n) in d1 && ClaimSettled(cfg, d', n, d1[Path(Ready, n)], now)
    requires n !in names ==> AllSame(d1, d', n)
    ensures Fate(cfg, d, d', n, limit, now)
  {
    hide ClaimRunsOn, PutBack, ClaimSettled, InTurn, WaitsAs;
  }

  lemma {:induction false} DueNamesAre(cfg: Config, d: Disk, names: seq<string>, now: real)
    requires AllIn(d, Ready, names) && Ascending(names)
    ensures var due := DueNames(cfg, d, names, now);
      && Ascending(due)
      && forall n :: n in due <==> n in names && Path(Ready, n) in d && Deliverable(cfg, d[Path(Ready, n)], now)
  {
    hide Deliverable, Less;
    if names != [] {
      assert forall i :: 0 <= i < |names| - 1 ==> names[1..][i] == names[i + 1];
      DueNamesAre(cfg, d, names[1..], now);
      assert names == [names[0]] + names[1..];
      assert forall n :: n in names[1..] ==> Less(names[0], n);
    }
  }

  /** `pop_ready`, when nothing raises, hands out what has its turn and is due, in name order, as
      it then lies in the inflight directory. */
  lemma {:induction false} PopReadyHandsOut(cfg: Config, d: Disk, limit: int, now: real)
    returns (names: seq<string>)
    requires PopReadyPlan(cfg, d, limit, now).fault.None?
    ensures var claims := PopReadyPlan(cfg, d, limit, now);
      ItemsAre(Run(d, claims.prims), claims.items, names) && Ascending(names)
    ensures forall n :: n in names <==>
      InTurn(cfg, d, n, limit, now) && exists f :: WaitsAs(cfg, d, n, now, f) && Deliverable(cfg, f, now)
  {
    hide Run, ReclaimAll, ClaimAll, Reclaimed, AllSame, Sorted, ClaimSettled, WaitsAs, InTurn, Deliverable, ItemsAre;
    var reclaimed := ReclaimAll(cfg, d, Sorted(Names(d, Inflight)), now);
    var d1 := Run(d, reclaimed.prims);
    InflightAll(cfg, d, now);
    ReclaimedWaits(cfg, d, d1, now);
    var ready := First(Sorted(Names(d1, Ready)), limit);
    FirstOf(d1, Ready, limit);
    ClaimLoop(cfg, d1, ready, now);
    var claimed := ClaimAll(cfg, d1, ready, now);
    RunConcat(d, reclaimed.prims, claimed.prims);
    DueNamesAre(cfg, d1, ready, now);
    names := DueNames(cfg, d1, ready, now);
    forall n ensures n in ready <==> InTurn(cfg, d, n, limit, now) {
      InTurnIff(cfg, d, n, limit, now);
    }
  }

  /** A claim that runs on keeps its file whether or not `pop_ready` raises. */
  lemma {:induction false} RunningClaimStays(cfg: Config, d: Disk, limit: int, now: real, name: string)
    requires Path(Inflight, name) in d && Readable(d[Path(Inflight, name)]) && Path(Ready, name) !in d
    requires ClaimRunsOn(cfg, d[Path(Inflight, name)].value.fields, now)
    ensures AllSame(d, Run(d, PopReadyPlan(cfg, d, limit, now).prims), name)
  {
    hide Run, ReclaimAll, ClaimAll, Sorted, ClaimRunsOn;
    var reclaimed := ReclaimAll(cfg, d, Sorted(Names(d, Inflight)), now);
    var d1 := Run(d, reclaimed.prims);
    InflightNames(d);
    ReclaimLoop(cfg, d, Sorted(Names(d, Inflight)), now);
    assert AllSame(d, d1, name);
    if reclaimed.fault.None? {
      var ready := First(Sorted(Names(d1, Ready)), limit);
      FirstOf(d1, Ready, limit);
      ClaimLoop(cfg, d1, ready, now);
      var claimed := ClaimAll(cfg, d1, ready, now);
      RunConcat(d, reclaimed.prims, claimed.prims);
      assert Same(d, d1, Path(Ready, name));
      SameThen(cfg, d, d1, Run(d1, claimed.prims), name, now);
    }
  }

  /** A claim time that is a number decides by its age alone. */
  lemma {:induction false} ClaimTimeDecides(cfg: Config, o: Fields, delivery: Fields, t: real, now: real)
    requires Says(o, "delivery", Obj(delivery)) && Says(delivery, "claimed_at", Num(t))
    ensures ClaimRunsOn(cfg, o, now) <==> now - t < cfg.ttl
  {
    assert Reads(o, "claimed_at", t, cfg.parse);
  }
}
