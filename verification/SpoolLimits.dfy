/** The queue limits over every sequential spool operation: pending, ready and inflight
    together stay within max_files and max_bytes when an operation ends, also when it ends by
    raising, and hold at most one file too many inside a move. */
module SpoolLimits {
  import opened Options
  import opened JsonValue
  import opened Disks
  import opened Sums
  import opened SpoolPlans

  ghost function QueueCount(d: Disk): nat {
    |QueuePaths(d, {})|
  }

  ghost function QueueBytes(cfg: Config, d: Disk): nat {
    Sum(QueueSizes(cfg, d))
  }

  ghost predicate Within(cfg: Config, d: Disk) {
    QueueCount(d) <= cfg.maxFiles && QueueBytes(cfg, d) <= cfg.maxBytes
  }

  lemma {:induction false} PutSizes(cfg: Config, d: Disk, p: Path, f: File, exclude: set<Path>)
    requires p !in exclude
    ensures var old_ := Sizes(cfg, d, QueuePaths(d, exclude));
      Sizes(cfg, d[p := f], QueuePaths(d[p := f], exclude))
      == if p.dir == Failed then old_ else old_[p := FileSize(cfg, f)]
  {
  }

  lemma {:induction false} UnlinkSizes(cfg: Config, d: Disk, p: Path)
    ensures QueueSizes(cfg, d - {p}) == QueueSizes(cfg, d) - {p}
    ensures Sizes(cfg, d, QueuePaths(d, {p})) == QueueSizes(cfg, d) - {p}
  {
  }

  lemma {:induction false} SumShrinks<K>(m: map<K, nat>, k: K)
    ensures Sum(m - {k}) <= Sum(m)
  {
    if k in m {
      SumRemove(m, k);
    } else {
      assert m - {k} == m;
    }
  }

  lemma {:induction false} UnlinkShrinks(cfg: Config, d: Disk, p: Path)
    ensures QueueCount(d - {p}) <= QueueCount(d) <= QueueCount(d - {p}) + 1
    ensures QueueBytes(cfg, d - {p}) <= QueueBytes(cfg, d)
  {
    UnlinkSizes(cfg, d, p);
    SumShrinks(QueueSizes(cfg, d), p);
    assert QueuePaths(d - {p}, {}) == QueuePaths(d, {}) - {p};
  }

  /** An accepted write leaves the queues, without the excluded files, within the limits. */
  lemma {:induction false} AcceptedWrite(cfg: Config, d: Disk, dest: Path, payload: Fields, exclude: set<Path>)
    requires WriteFault(cfg, d, dest, payload, exclude).None?
    requires dest !in exclude && dest.dir != Failed
    ensures var d' := d[dest := Doc(Obj(payload))];
      && |QueuePaths(d', exclude)| <= cfg.maxFiles
      && Sum(Sizes(cfg, d', QueuePaths(d', exclude))) <= cfg.maxBytes
  {
    var f := Doc(Obj(payload));
    var before := QueuePaths(d, exclude);
    var sizes := Sizes(cfg, d, before);
    PutSizes(cfg, d, dest, f, exclude);
    SumUpdate(sizes, dest, FileSize(cfg, f));
    assert QueuePaths(d[dest := f], exclude) == before + {dest};
    assert dest in d ==> dest in before && before + {dest} == before;
  }

  ghost predicate CountsAtMost(ds: seq<Disk>, n: nat) {
    forall i :: 0 <= i < |ds| ==> QueueCount(ds[i]) <= n
  }

  lemma {:induction false} WriteWithin(cfg: Config, d: Disk, dest: Path, payload: Fields)
    requires Within(cfg, d) && dest.dir != Failed
    ensures var plan := WritePlan(cfg, d, dest, payload, {});
      Within(cfg, Run(d, plan.prims)) && CountsAtMost(States(d, plan.prims), cfg.maxFiles)
  {
    var plan := WritePlan(cfg, d, dest, payload, {});
    if plan.fault.None? {
      AcceptedWrite(cfg, d, dest, payload, {});
      assert Run(d, plan.prims) == Apply(d, plan.prims[0]);
      assert States(d, plan.prims) == [Apply(d, plan.prims[0])];
    }
  }

  /** A move between queues, or out of the queues into quarantine. */
  lemma {:induction false} MoveWithin(cfg: Config, d: Disk, src: Path, dest: Path, payload: Fields)
    requires Within(cfg, d) && src != dest && src.dir != Failed
    ensures var plan := MovePlan(cfg, d, src, dest, payload);
      Within(cfg, Run(d, plan.prims)) && CountsAtMost(States(d, plan.prims), cfg.maxFiles + 1)
  {
    var plan := MovePlan(cfg, d, src, dest, payload);
    if plan.fault.None? {
      var d1 := d[dest := Doc(Obj(payload))];
      MoveStates(d, src, dest, Doc(Obj(payload)));
      UnlinkShrinks(cfg, d1, src);
      UnlinkSizes(cfg, d1, src);
      if dest.dir != Failed {
        AcceptedWrite(cfg, d, dest, payload, {src});
        assert QueuePaths(d1 - {src}, {}) == QueuePaths(d1, {src});
      } else {
        PutSizes(cfg, d, dest, Doc(Obj(payload)), {});
        assert QueuePaths(d1, {}) == QueuePaths(d, {});
      }
    }
  }

  lemma {:induction false} ClaimRenameWithin(cfg: Config, d: Disk, name: string)
    requires Within(cfg, d) && Path(Ready, name) in d
    ensures Within(cfg, Apply(d, ClaimPrim(name)))
  {
    var from, to := Path(Ready, name), Path(Inflight, name);
    var d1 := d[to := d[from]];
    var sizes := QueueSizes(cfg, d);
    PutSizes(cfg, d, to, d[from], {});
    SumUpdate(sizes, to, FileSize(cfg, d[from]));
    SumRemove(QueueSizes(cfg, d1), from);
    UnlinkSizes(cfg, d1, from);
    var after := Apply(d, ClaimPrim(name));
    assert after == d1 - {from};
    assert QueuePaths(after, {}) == QueuePaths(d, {}) - {from} + {to};
  }

  // ------------------------------------------------------- multi-step operations

  /** Limits over a plan's whole course: within them at the end, one over at most on the way. */
  ghost predicate Keeps(cfg: Config, d: Disk, prims: seq<Prim>) {
    Within(cfg, Run(d, prims)) && CountsAtMost(States(d, prims), cfg.maxFiles + 1)
  }

  lemma {:induction false} KeepsConcat(cfg: Config, d: Disk, a: seq<Prim>, b: seq<Prim>)
    requires Keeps(cfg, d, a) && Keeps(cfg, Run(d, a), b)
    ensures Keeps(cfg, d, a + b)
  {
    RunConcat(d, a, b);
  }

  lemma {:induction false} FailKeeps(cfg: Config, d: Disk, name: string, reason: Reason)
    requires Within(cfg, d)
    ensures Keeps(cfg, d, FailPlan(cfg, d, name, reason).prims)
  {
    var source := FailSource(d, name);
    MoveWithin(cfg, d, source, Path(Failed, name), FailedEnvelope(d, source, reason));
  }

  lemma {:induction false} RetryKeeps(cfg: Config, d: Disk, name: string, payload: Fields)
    requires Within(cfg, d)
    ensures Keeps(cfg, d, RetryPlan(cfg, d, name, payload).prims)
  {
    MoveWithin(cfg, d, Path(Inflight, name), Path(Ready, name), payload);
  }

  lemma {:induction false} FailPendingKeeps(cfg: Config, d: Disk, name: string, reason: Reason)
    requires Within(cfg, d)
    ensures Keeps(cfg, d, FailPendingPlan(cfg, d, name, reason).prims)
  {
    MoveWithin(cfg, d, Path(Pending, name), FailedPendingPath(name), FailedPending(d, name, reason));
  }

  lemma {:induction false} WriteKeeps(cfg: Config, d: Disk, dest: Path, payload: Fields)
    requires Within(cfg, d) && dest.dir != Failed
    ensures Keeps(cfg, d, WritePlan(cfg, d, dest, payload, {}).prims)
  {
    WriteWithin(cfg, d, dest, payload);
  }

  lemma {:induction false} SettleKeeps(cfg: Config, d: Disk, name: string, now: real)
    requires Within(cfg, d)
    ensures Keeps(cfg, d, SettlePlan(cfg, d, name, now).prims)
  {
    var p := Path(Inflight, name);
    if p !in d || !IsObject(d[p]) {
      FailKeeps(cfg, d, name, BadFileReason(d, p));
    } else {
      var o := WithDelivery(d[p].value.fields);
      RetryKeeps(cfg, d, name, o);
      WriteKeeps(cfg, d, p, Stamped(cfg, o, now));
    }
  }

  lemma {:induction false} ClaimKeeps(cfg: Config, d: Disk, name: string, now: real)
    requires Within(cfg, d)
    ensures Keeps(cfg, d, ClaimPlan(cfg, d, name, now).prims)
  {
    if Path(Ready, name) !in d {
      FailKeeps(cfg, d, name, InvalidJson);
    } else {
      var d1 := Apply(d, ClaimPrim(name));
      ClaimRenameWithin(cfg, d, name);
      SettleKeeps(cfg, d1, name, now);
      assert States(d, [ClaimPrim(name)]) == [d1] && Run(d, [ClaimPrim(name)]) == d1;
      KeepsConcat(cfg, d, [ClaimPrim(name)], SettlePlan(cfg, d1, name, now).prims);
    }
  }

  lemma {:induction false} ReclaimAllKeeps(cfg: Config, d: Disk, names: seq<string>, now: real)
    requires Within(cfg, d)
    ensures Keeps(cfg, d, ReclaimAll(cfg, d, names, now).prims)
    decreases |names|
  {
    if names != [] {
      var first := ReclaimPlan(cfg, d, names[0], now);
      var p := Path(Inflight, names[0]);
      if p !in d || !IsObject(d[p]) {
        FailKeeps(cfg, d, names[0], BadFileReason(d, p));
      } else {
        RetryKeeps(cfg, d, names[0], Unclaimed(d[p].value.fields));
      }
      if first.fault.None? {
        ReclaimAllKeeps(cfg, Run(d, first.prims), names[1..], now);
        KeepsConcat(cfg, d, first.prims, ReclaimAll(cfg, Run(d, first.prims), names[1..], now).prims);
      }
    }
  }

  lemma {:induction false} ClaimAllKeeps(cfg: Config, d: Disk, names: seq<string>, now: real)
    requires Within(cfg, d)
    ensures Keeps(cfg, d, ClaimAll(cfg, d, names, now).prims)
    decreases |names|
  {
    if names != [] {
      var first := ClaimPlan(cfg, d, names[0], now);
      ClaimKeeps(cfg, d, names[0], now);
      if first.fault.None? {
        ClaimAllKeeps(cfg, Run(d, first.prims), names[1..], now);
        KeepsConcat(cfg, d, first.prims, ClaimAll(cfg, Run(d, first.prims), names[1..], now).prims);
      }
    }
  }

  // --------------------------------------------------------------- the count never blocks

  /** Moving an item that is already counted never trips the file limit. */
  lemma {:induction false} MoveNeverBlockedByCount(cfg: Config, d: Disk, src: Path, dest: Path, payload: Fields)
    requires Within(cfg, d) && src in d && src.dir != Failed
    ensures MovePlan(cfg, d, src, dest, payload).fault != Some(TooManyFiles)
  {
    assert QueuePaths(d, {src}) == QueuePaths(d, {}) - {src};
  }

  /** A move that a crash cut in two leaves both copies and may leave one file too many; the
      move that finishes it is still not blocked by the file limit. */
  lemma {:induction false} InterruptedMoveCanFinish(cfg: Config, d: Disk, src: Path, dest: Path, payload: Fields)
    requires QueueCount(d) <= cfg.maxFiles + 1
    requires src in d && dest in d && src != dest && src.dir != Failed && dest.dir != Failed
    ensures MovePlan(cfg, d, src, dest, payload).fault != Some(TooManyFiles)
  {
    assert QueuePaths(d, {src}) == QueuePaths(d, {}) - {src};
    assert {src, dest} <= QueuePaths(d, {});
  }

  /** Promotion writes the ready copy with the pending file excluded and unlinks that file in
      a second operation; between the two the queues hold at most one file too many. */
  lemma {:induction false} PromotionWithin(cfg: Config, d: Disk, pending: Path, dest: Path, payload: Fields)
    requires Within(cfg, d) && pending.dir == Pending && dest.dir == Ready
    requires WritePlan(cfg, d, dest, payload, {pending}).fault.None?
    ensures var d1 := Run(d, WritePlan(cfg, d, dest, payload, {pending}).prims);
      QueueCount(d1) <= cfg.maxFiles + 1 && Within(cfg, Apply(d1, Unlink(pending)))
  {
    var plan := WritePlan(cfg, d, dest, payload, {pending});
    assert Run(d, plan.prims) == Apply(d, plan.prims[0]);
    MoveWithin(cfg, d, pending, dest, payload);
    MoveStates(d, pending, dest, Doc(Obj(payload)));
    var states := States(d, MovePlan(cfg, d, pending, dest, payload).prims);
    assert states[0] == Run(d, plan.prims) && states[1] == Apply(states[0], Unlink(pending));
  }
}
