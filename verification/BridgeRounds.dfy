/** The lifecycle bridge's event log: what its hooks append, and what finishing a round makes of
    the log. */
module BridgeRounds {
  import opened Options
  import opened JsonValue
  import opened Decimals
  import opened RawRounds
  import opened RoundRequests
  import opened HermesEvents
  import opened HermesRounds
  import opened Canonical
  import opened InlineBinary
  import opened Compaction

  /** What a hook call contributes to the log. */
  datatype Noted =
    | Prompted(prompt: string)
    | ToolUsed(tool: string, callId: string, arguments: Json)
    | ToolDone(tool: string, callId: string, status: string, content: Json)
    | Answer(content: Json)

  function EventOf(noted: Noted): Fields {
    match noted
    case Prompted(prompt) => map["kind" := Str("message"), "role" := Str("user"), "content" := Str(prompt)]
    case ToolUsed(tool, callId, arguments) =>
      map["kind" := Str("tool_call"), "tool_name" := Str(tool), "tool_call_id" := Str(callId), "arguments" := arguments]
    case ToolDone(tool, callId, status, content) =>
      map["kind" := Str("tool_result"), "tool_name" := Str(tool), "tool_call_id" := Str(callId),
          "status" := Str(status), "content" := content]
    case Answer(content) =>
      map["kind" := Str("message"), "role" := Str("assistant"), "content" := content, "final" := Bool(true)]
  }

  /** Tool names and call ids are never empty, and a status is one of two. */
  predicate WellFormed(noted: Noted) {
    match noted
    case ToolUsed(tool, callId, arguments) => tool != "" && callId != ""
    case ToolDone(tool, callId, status, content) => tool != "" && callId != "" && status in {"success", "error"}
    case _ => true
  }

  const SYNTHETIC_ANSWER := Str("Session completed")

  function NumberedId(roundId: string, n: nat): (id: string)
    ensures id != ""
  {
    roundId + ":" + Decimal(n)
  }

  /** `_append`: an event without an id gets one from the round and its place in the log. */
  function Append(roundId: string, events: seq<Fields>, event: Fields): seq<Fields> {
    events + [if "event_id" in event then event else event["event_id" := Str(NumberedId(roundId, |events|))]]
  }

  lemma {:induction false} NumbersDiffer(roundId: string, m: nat, n: nat)
    requires NumberedId(roundId, m) == NumberedId(roundId, n)
    ensures m == n
  {
    assert NumberedId(roundId, m)[|roundId| + 1..] == Decimal(m);
    assert NumberedId(roundId, n)[|roundId| + 1..] == Decimal(n);
    DecimalInjective(m, n);
  }

  // ------------------------------------------------------------------------------ the log

  /** What the bridge's hooks put into the log. */
  predicate LogEvent(f: Fields) {
    Shaped(f) && !MarkOf(f).Odd? && Get(f, "final") in {Null, Bool(true)}
  }

  /** A log of one round: hook events, numbered in order. */
  ghost predicate Log(roundId: string, events: seq<Fields>) {
    forall i {:trigger events[i]} ::
      0 <= i < |events| ==> LogEvent(events[i]) && MarkOf(events[i]).id == NumberedId(roundId, i)
  }

  function MarkFor(noted: Noted, id: string): Mark {
    match noted
    case Prompted(_) => User(id)
    case ToolUsed(_, callId, _) => Call(id, callId)
    case ToolDone(_, callId, _, _) => Result(id, callId)
    case Answer(_) => Final(id)
  }

  lemma {:induction false} NotedMark(noted: Noted, id: string)
    requires WellFormed(noted) && id != ""
    ensures var f := EventOf(noted)["event_id" := Str(id)];
      "event_id" !in EventOf(noted) && LogEvent(f) && MarkOf(f) == MarkFor(noted, id)
  {
  }

  lemma {:induction false} AppendKeepsLog(roundId: string, events: seq<Fields>, noted: Noted)
    requires Log(roundId, events) && WellFormed(noted)
    ensures Log(roundId, Append(roundId, events, EventOf(noted)))
    ensures Marks(Append(roundId, events, EventOf(noted)))
         == Marks(events) + [MarkFor(noted, NumberedId(roundId, |events|))]
  {
    hide LogEvent, MarkOf, EventOf, NumberedId;
    NotedMark(noted, NumberedId(roundId, |events|));
    var after := Append(roundId, events, EventOf(noted));
    assert after == events + [EventOf(noted)["event_id" := Str(NumberedId(roundId, |events|))]];
    MarksAppend(events, after[|events|]);
  }

  // ------------------------------------------------------------------ dropping the orphans

  function KnownCalls(events: seq<Fields>): set<Json> {
    set i | 0 <= i < |events| && Get(events[i], "kind") == Str("tool_call") :: Get(events[i], "tool_call_id")
  }

  /** A result whose call is not in the log. */
  predicate IsOrphan(events: seq<Fields>, f: Fields) {
    Get(f, "kind") == Str("tool_result") && Get(f, "tool_call_id") !in KnownCalls(events)
  }

  /** Positions below `n` that are kept. */
  function KeptPlaces(events: seq<Fields>, n: nat): (places: seq<nat>)
    requires n <= |events|
    ensures |places| <= n
    ensures forall k :: 0 <= k < |places| ==> places[k] < n && !IsOrphan(events, events[places[k]])
    ensures forall j, k :: 0 <= j < k < |places| ==> places[j] < places[k]
    ensures forall i :: 0 <= i < n && !IsOrphan(events, events[i]) ==> i in places
  {
    if n == 0 then []
    else KeptPlaces(events, n - 1) + if IsOrphan(events, events[n - 1]) then [] else [n - 1]
  }

  function At(events: seq<Fields>, places: seq<nat>): (r: seq<Fields>)
    requires forall k :: 0 <= k < |places| ==> places[k] < |events|
    ensures |r| == |places|
  {
    seq(|places|, k requires 0 <= k < |places| => events[places[k]])
  }

  /** The log without its orphan results. */
  function Kept(events: seq<Fields>): seq<Fields> {
    At(events, KeptPlaces(events, |events|))
  }

  /** The log of a finished round: orphans dropped, and an answer made up if there is none. */
  function FinishedLog(roundId: string, events: seq<Fields>): seq<Fields> {
    if HasFinal(Kept(events)) then Kept(events)
    else Append(roundId, Kept(events), EventOf(Answer(SYNTHETIC_ANSWER)))
  }

  /** The list comprehension of `_enqueue_finished_round`, one event at a time. */
  method DropOrphans(events: seq<Fields>) returns (kept: seq<Fields>)
    ensures kept == Kept(events)
  {
    hide IsOrphan, At, KeptPlaces;
    kept := [];
    NoPlaces(events);
    for i := 0 to |events|
      invariant kept == At(events, KeptPlaces(events, i))
    {
      PlacesStep(events, i);
      if !IsOrphan(events, events[i]) {
        AtOneMore(events, KeptPlaces(events, i), i);
        kept := kept + [events[i]];
      }
    }
  }

  lemma {:induction false} NoPlaces(events: seq<Fields>)
    ensures KeptPlaces(events, 0) == [] && At(events, KeptPlaces(events, 0)) == []
  {
  }

  lemma {:induction false} PlacesStep(events: seq<Fields>, i: nat)
    requires i < |events|
    ensures KeptPlaces(events, i + 1)
         == if IsOrphan(events, events[i]) then KeptPlaces(events, i) else KeptPlaces(events, i) + [i]
  {
    hide IsOrphan;
    assert KeptPlaces(events, i) + [] == KeptPlaces(events, i);
  }

  lemma {:induction false} AtOneMore(events: seq<Fields>, places: seq<nat>, i: nat)
    requires i < |events| && forall k :: 0 <= k < |places| ==> places[k] < |events|
    ensures At(events, places + [i]) == At(events, places) + [events[i]]
  {
  }

  /** The orphan results of the first `n` events. */
  function OrphansBelow(events: seq<Fields>, n: nat): seq<Fields>
    requires n <= |events|
  {
    if n == 0 then []
    else OrphansBelow(events, n - 1) + if IsOrphan(events, events[n - 1]) then [events[n - 1]] else []
  }

  function Orphans(events: seq<Fields>): seq<Fields> {
    OrphansBelow(events, |events|)
  }

  lemma {:induction false} SplitMore(all: seq<Fields>, kept: seq<Fields>, orphans: seq<Fields>, f: Fields)
    requires multiset(all) == multiset(kept) + multiset(orphans)
    ensures multiset(all + [f]) == multiset(kept + [f]) + multiset(orphans)
    ensures multiset(all + [f]) == multiset(kept) + multiset(orphans + [f])
  {
  }

  function KeptBelow(events: seq<Fields>, n: nat): seq<Fields>
    requires n <= |events|
  {
    At(events, KeptPlaces(events, n))
  }

  lemma {:induction false} PartsStep(events: seq<Fields>, n: nat)
    requires n < |events|
    ensures IsOrphan(events, events[n]) ==>
      KeptBelow(events, n + 1) == KeptBelow(events, n)
      && OrphansBelow(events, n + 1) == OrphansBelow(events, n) + [events[n]]
    ensures !IsOrphan(events, events[n]) ==>
      KeptBelow(events, n + 1) == KeptBelow(events, n) + [events[n]]
      && OrphansBelow(events, n + 1) == OrphansBelow(events, n)
  {
    hide IsOrphan, At, KeptPlaces;
    PlacesStep(events, n);
    AtOneMore(events, KeptPlaces(events, n), n);
    assert OrphansBelow(events, n) + [] == OrphansBelow(events, n);
  }

  lemma {:induction false} KeptAndOrphansBelow(events: seq<Fields>, n: nat)
    requires n <= |events|
    ensures multiset(events[..n]) == multiset(KeptBelow(events, n)) + multiset(OrphansBelow(events, n))
  {
    hide IsOrphan, KeptBelow, OrphansBelow;
    if n > 0 {
      KeptAndOrphansBelow(events, n - 1);
      PartsStep(events, n - 1);
      SplitMore(events[..n - 1], KeptBelow(events, n - 1), OrphansBelow(events, n - 1), events[n - 1]);
      assert events[..n] == events[..n - 1] + [events[n - 1]];
    } else {
      NothingBelow(events);
    }
  }

  lemma {:induction false} NothingBelow(events: seq<Fields>)
    ensures KeptBelow(events, 0) == [] && OrphansBelow(events, 0) == []
  {
    NoPlaces(events);
  }

  /** Dropping the orphans splits the log: every event, as often as it was logged, is kept or is
      an orphan, and what is kept stays in order. */
  lemma {:induction false} KeptAndOrphans(events: seq<Fields>)
    ensures multiset(events) == multiset(Kept(events)) + multiset(Orphans(events))
    ensures exists places: seq<nat> ::
      && |places| == |Kept(events)| && (forall j, k :: 0 <= j < k < |places| ==> places[j] < places[k])
      && forall k :: 0 <= k < |places| ==> places[k] < |events| && Kept(events)[k] == events[places[k]]
  {
    hide IsOrphan;
    KeptAndOrphansBelow(events, |events|);
    assert events[..|events|] == events;
    var places := KeptPlaces(events, |events|);
    assert |places| == |Kept(events)|;
  }

  // --------------------------------------------------------------- when a round is accepted

  ghost predicate OneFinalAtMost(ms: seq<Mark>) {
    forall i, j :: 0 <= i < j < |ms| ==> !(ms[i].Final? && ms[j].Final?)
  }

  ghost predicate UniqueCalls(ms: seq<Mark>) {
    forall i, j :: 0 <= i < j < |ms| && ms[i].Call? && ms[j].Call? ==> ms[i].callId != ms[j].callId
  }

  /** The id of the made-up answer is free: no orphan was dropped, or the event whose number it
      takes was one. */
  predicate AnswerIdFree(events: seq<Fields>) {
    var n := |Kept(events)|;
    HasFinal(Kept(events)) || n == |events| || (n < |events| && IsOrphan(events, events[n]))
  }

  lemma {:induction false} OrphanMark(events: seq<Fields>, f: Fields)
    requires LogEvent(f)
    ensures IsOrphan(events, f) ==> MarkOf(f).Result?
  {
  }

  lemma {:induction false} FinalByMark(f: Fields)
    requires LogEvent(f)
    ensures Truthy(Get(f, "final")) <==> MarkOf(f).Final?
  {
  }

  lemma {:induction false} KeptMark(roundId: string, events: seq<Fields>, k: nat)
    requires Log(roundId, events) && k < |Kept(events)|
    ensures var i := KeptPlaces(events, |events|)[k];
      && i < |events| && Marks(Kept(events))[k] == Marks(events)[i] && !IsOrphan(events, events[i])
      && Marks(events)[i].id == NumberedId(roundId, i)
  {
    hide LogEvent, MarkOf, IsOrphan;
  }

  /** Everything but orphans has a place in what is kept. */
  lemma {:induction false} PlaceOf(roundId: string, events: seq<Fields>, i: nat) returns (k: nat)
    requires Log(roundId, events) && i < |events| && !IsOrphan(events, events[i])
    ensures k < |Kept(events)| && KeptPlaces(events, |events|)[k] == i && Marks(Kept(events))[k] == Marks(events)[i]
  {
    hide LogEvent, MarkOf, IsOrphan;
    var places := KeptPlaces(events, |events|);
    k :| 0 <= k < |places| && places[k] == i;
  }

  lemma {:induction false} NotResultIsKept(roundId: string, events: seq<Fields>, i: nat) returns (k: nat)
    requires Log(roundId, events) && i < |events| && !Marks(events)[i].Result?
    ensures k < |Kept(events)| && KeptPlaces(events, |events|)[k] == i && Marks(Kept(events))[k] == Marks(events)[i]
  {
    hide LogEvent, MarkOf, IsOrphan;
    OrphanMark(events, events[i]);
    k := PlaceOf(roundId, events, i);
  }

  lemma {:induction false} KeptIdsDistinct(roundId: string, events: seq<Fields>)
    requires Log(roundId, events)
    ensures DistinctIds(Marks(Kept(events)))
    ensures forall n :: UsesId(Marks(Kept(events)), NumberedId(roundId, n)) <==> n in KeptPlaces(events, |events|)
  {
    hide LogEvent, MarkOf, IsOrphan, NumberedId, Log, Kept;
    var places, ms := KeptPlaces(events, |events|), Marks(Kept(events));
    KeptLength(events);
    forall k | 0 <= k < |ms| ensures ms[k].id == NumberedId(roundId, places[k]) {
      KeptMark(roundId, events, k);
    }
    forall j, k | 0 <= j < k < |ms| ensures ms[j].id != ms[k].id {
      if ms[j].id == ms[k].id {
        NumbersDiffer(roundId, places[j], places[k]);
      }
    }
    forall n ensures UsesId(ms, NumberedId(roundId, n)) <==> n in places {
      if UsesId(ms, NumberedId(roundId, n)) {
        var k :| 0 <= k < |ms| && ms[k].id == NumberedId(roundId, n);
        NumbersDiffer(roundId, places[k], n);
      }
      if n in places {
        var k :| 0 <= k < |places| && places[k] == n;
        assert ms[k].id == NumberedId(roundId, n);
      }
    }
  }

  lemma {:induction false} KeptLength(events: seq<Fields>)
    ensures |Kept(events)| == |KeptPlaces(events, |events|)| <= |events|
  {
    hide IsOrphan;
  }

  lemma {:induction false} KeptUser(roundId: string, events: seq<Fields>)
    requires Log(roundId, events) && HasUser(events)
    ensures exists k :: 0 <= k < |Kept(events)| && Marks(Kept(events))[k].User?
  {
    hide LogEvent, MarkOf, IsOrphan, HasUser, Kept, KeptPlaces;
    UserByMark(events);
    var i :| 0 <= i < |events| && MarkOf(events[i]).User?;
    var k := NotResultIsKept(roundId, events, i);
  }

  lemma {:induction false} KeptFinals(roundId: string, events: seq<Fields>)
    requires Log(roundId, events)
    ensures OneFinalAtMost(Marks(Kept(events))) <==> OneFinalAtMost(Marks(events))
    ensures HasFinal(Kept(events)) <==> exists k :: 0 <= k < |Kept(events)| && Marks(Kept(events))[k].Final?
    ensures !HasFinal(Kept(events)) ==>
      OneFinalAtMost(Marks(events)) && forall i :: 0 <= i < |events| ==> !Marks(events)[i].Final?
  {
    hide LogEvent, MarkOf, IsOrphan, Kept, Truthy, Log;
    var km, ms, places := Marks(Kept(events)), Marks(events), KeptPlaces(events, |events|);
    KeptLength(events);
    forall k | 0 <= k < |km|
      ensures Truthy(Get(Kept(events)[k], "final")) <==> km[k].Final?
      ensures km[k] == ms[places[k]]
    {
      KeptMark(roundId, events, k);
      LoggedAt(roundId, events, k);
      FinalByMark(Kept(events)[k]);
    }
    if i, j :| 0 <= i < j < |ms| && ms[i].Final? && ms[j].Final? {
      var a := NotResultIsKept(roundId, events, i);
      var b := NotResultIsKept(roundId, events, j);
      assert a != b && km[a].Final? && km[b].Final?;
      assert a < b || b < a;
    }
    forall i | 0 <= i < |events| && ms[i].Final? ensures HasFinal(Kept(events)) {
      var a := NotResultIsKept(roundId, events, i);
      assert km[a].Final?;
    }
  }

  lemma {:induction false} LoggedAt(roundId: string, events: seq<Fields>, k: nat)
    requires Log(roundId, events) && k < |Kept(events)|
    ensures LogEvent(Kept(events)[k])
  {
    hide LogEvent, MarkOf, IsOrphan;
    var i := KeptPlaces(events, |events|)[k];
    assert LogEvent(events[i]);
  }

  lemma {:induction false} KeptCalls(roundId: string, events: seq<Fields>)
    requires Log(roundId, events)
    ensures UniqueCalls(Marks(Kept(events))) <==> UniqueCalls(Marks(events))
  {
    hide LogEvent, MarkOf, IsOrphan, Kept, Log;
    var km, ms, places := Marks(Kept(events)), Marks(events), KeptPlaces(events, |events|);
    KeptLength(events);
    forall k | 0 <= k < |km| ensures km[k] == ms[places[k]] {
      KeptMark(roundId, events, k);
    }
    if i, j :| 0 <= i < j < |ms| && ms[i].Call? && ms[j].Call? && ms[i].callId == ms[j].callId {
      var a := NotResultIsKept(roundId, events, i);
      var b := NotResultIsKept(roundId, events, j);
      assert a != b && km[a].Call? && km[b].Call? && km[a].callId == km[b].callId;
      assert a < b || b < a;
    }
  }

  predicate HasCall(ms: seq<Mark>, t: string) {
    exists j :: 0 <= j < |ms| && ms[j].Call? && ms[j].callId == t
  }

  /** A kept result still finds its call. */
  lemma {:induction false} KeptResults(roundId: string, events: seq<Fields>, k: nat)
    requires Log(roundId, events) && k < |Kept(events)| && Marks(Kept(events))[k].Result?
    ensures HasCall(Marks(Kept(events)), Marks(Kept(events))[k].callId)
  {
    hide Kept, Log, KeptPlaces;
    KeptMark(roundId, events, k);
    KeptLength(events);
    var i := KeptPlaces(events, |events|)[k];
    LogAt(roundId, events, i);
    assert Get(events[i], "kind") == Str("tool_result");
    var t := Get(events[i], "tool_call_id");
    var c :| 0 <= c < |events| && Get(events[c], "kind") == Str("tool_call") && Get(events[c], "tool_call_id") == t;
    LogAt(roundId, events, c);
    var j := NotResultIsKept(roundId, events, c);
  }

  lemma {:induction false} LogAt(roundId: string, events: seq<Fields>, i: nat)
    requires Log(roundId, events) && i < |events|
    ensures LogEvent(events[i]) && MarkOf(events[i]).id == NumberedId(roundId, i)
  {
  }

  lemma {:induction false} FinishedMarks(roundId: string, events: seq<Fields>)
    requires Log(roundId, events)
    ensures HasFinal(Kept(events)) ==> Marks(FinishedLog(roundId, events)) == Marks(Kept(events))
    ensures !HasFinal(Kept(events)) ==>
      Marks(FinishedLog(roundId, events)) == Marks(Kept(events)) + [Final(NumberedId(roundId, |Kept(events)|))]
    ensures forall i :: 0 <= i < |FinishedLog(roundId, events)| ==> LogEvent(FinishedLog(roundId, events)[i])
  {
    hide LogEvent, MarkOf, Kept, EventOf, HasFinal, Log;
    NotedMark(Answer(SYNTHETIC_ANSWER), NumberedId(roundId, |Kept(events)|));
    forall k | 0 <= k < |Kept(events)| ensures LogEvent(Kept(events)[k]) {
      LoggedAt(roundId, events, k);
    }
  }

  lemma {:induction false} AnswerIdFreeMeans(roundId: string, events: seq<Fields>)
    requires Log(roundId, events) && !HasFinal(Kept(events))
    ensures AnswerIdFree(events) <==> !UsesId(Marks(Kept(events)), NumberedId(roundId, |Kept(events)|))
  {
    hide LogEvent, MarkOf, IsOrphan, HasFinal, Marks, UsesId;
    KeptIdsDistinct(roundId, events);
    KeptLength(events);
  }

  /** A finished round obeys the rules exactly when its log holds no second answer, its call ids
      are unique, and the number the made-up answer takes is free. */
  lemma {:induction false} FinishedRules(roundId: string, events: seq<Fields>)
    requires Log(roundId, events) && HasUser(events)
    ensures MarkRules(Marks(FinishedLog(roundId, events)))
       <==> OneFinalAtMost(Marks(events)) && UniqueCalls(Marks(events)) && AnswerIdFree(events)
  {
    hide LogEvent, MarkOf, Kept, HasFinal, HasUser, Log, FinishedLog, Marks, AnswerIdFree, DistinctIds, UsesId,
         OneFinalAtMost, UniqueCalls, MarkRules, HasCall;
    var km := Marks(Kept(events));
    FinishedMarks(roundId, events);
    KeptIdsDistinct(roundId, events);
    KeptFinals(roundId, events);
    KeptCalls(roundId, events);
    KeptUser(roundId, events);
    forall k | 0 <= k < |km| && km[k].Result? ensures HasCall(km, km[k].callId) {
      KeptResults(roundId, events, k);
    }
    if HasFinal(Kept(events)) {
      RulesWithFinal(km);
      FinalMakesItFree(events);
    } else {
      RulesWithNew(km, NumberedId(roundId, |Kept(events)|));
      AnswerIdFreeMeans(roundId, events);
    }
  }

  lemma {:induction false} FinalMakesItFree(events: seq<Fields>)
    requires HasFinal(Kept(events))
    ensures AnswerIdFree(events)
  {
    hide HasFinal, Kept;
  }

  lemma {:induction false} RulesWithFinal(km: seq<Mark>)
    requires DistinctIds(km) && exists k :: 0 <= k < |km| && km[k].User?
    requires exists k :: 0 <= k < |km| && km[k].Final?
    requires forall k :: 0 <= k < |km| && km[k].Result? ==> HasCall(km, km[k].callId)
    ensures MarkRules(km) <==> OneFinalAtMost(km) && UniqueCalls(km)
  {
  }

  lemma {:induction false} RulesWithNew(km: seq<Mark>, id: string)
    requires DistinctIds(km) && exists k :: 0 <= k < |km| && km[k].User?
    requires !exists k :: 0 <= k < |km| && km[k].Final?
    requires forall k :: 0 <= k < |km| && km[k].Result? ==> HasCall(km, km[k].callId)
    ensures MarkRules(km + [Final(id)]) <==> UniqueCalls(km) && !UsesId(km, id)
  {
    var after := km + [Final(id)];
    assert after[|km|].Final?;
    var u :| 0 <= u < |km| && km[u].User?;
    assert after[u].User?;
    forall k | 0 <= k < |after| && after[k].Result? ensures HasCall(after, after[k].callId) {
      var j :| 0 <= j < |km| && km[j].Call? && km[j].callId == km[k].callId;
      assert after[j].Call?;
    }
    if UsesId(km, id) {
      var k :| 0 <= k < |km| && km[k].id == id;
      assert after[k].id == after[|km|].id;
    }
    if !UniqueCalls(km) {
      var i, j :| 0 <= i < j < |km| && km[i].Call? && km[j].Call? && km[i].callId == km[j].callId;
      assert after[i].callId == after[j].callId;
    }
  }

  /** Finishing a round drops the orphan results and nothing else. */
  lemma {:induction false} KeptExactly(roundId: string, events: seq<Fields>, f: Fields)
    requires Log(roundId, events)
    ensures f in Kept(events) <==> f in events && !IsOrphan(events, f)
  {
    hide LogEvent, MarkOf, IsOrphan;
    if f in events && !IsOrphan(events, f) {
      var i :| 0 <= i < |events| && events[i] == f;
      var k := PlaceOf(roundId, events, i);
      assert Kept(events)[k] == f;
    }
    if f in Kept(events) {
      var k :| 0 <= k < |Kept(events)| && Kept(events)[k] == f;
      KeptMark(roundId, events, k);
    }
  }

  /** What further hooks make of the log. */
  function AppendAll(roundId: string, events: seq<Fields>, more: seq<Noted>): seq<Fields> {
    if more == [] then events
    else Append(roundId, AppendAll(roundId, events, more[..|more| - 1]), EventOf(more[|more| - 1]))
  }

  /** A second answer is never undone: once there are two, the log of that round breaks the rules
      whatever is appended to it. */
  lemma {:induction false} SecondAnswerStays(roundId: string, events: seq<Fields>, more: seq<Noted>)
    requires Log(roundId, events) && !OneFinalAtMost(Marks(events))
    requires forall k :: 0 <= k < |more| ==> WellFormed(more[k])
    ensures var log := AppendAll(roundId, events, more);
      && Log(roundId, log) && !OneFinalAtMost(Marks(log))
      && (HasUser(log) ==> !MarkRules(Marks(FinishedLog(roundId, log))))
    decreases |more|
  {
    hide LogEvent, MarkOf, EventOf, Append, HasUser, FinishedLog, MarkRules, Log, OneFinalAtMost;
    var log := AppendAll(roundId, events, more);
    if more != [] {
      var before := AppendAll(roundId, events, more[..|more| - 1]);
      SecondAnswerStays(roundId, events, more[..|more| - 1]);
      AppendKeepsLog(roundId, before, more[|more| - 1]);
      TwoFinalsStay(Marks(before), MarkFor(more[|more| - 1], NumberedId(roundId, |before|)));
    }
    if HasUser(log) {
      FinishedRules(roundId, log);
    }
  }

  lemma {:induction false} TwoFinalsStay(ms: seq<Mark>, m: Mark)
    requires !OneFinalAtMost(ms)
    ensures !OneFinalAtMost(ms + [m])
  {
    var i, j :| 0 <= i < j < |ms| && ms[i].Final? && ms[j].Final?;
    assert (ms + [m])[i].Final? && (ms + [m])[j].Final?;
  }

  /** Dropping an orphan can push the made-up answer onto the number of an event that is kept. */
  lemma {:induction false} MadeUpIdCanClash()
    ensures var user := EventOf(Prompted("hi"))["event_id" := Str(NumberedId("r", 0))];
      var orphan := EventOf(ToolDone("t", "x", "success", Null))["event_id" := Str(NumberedId("r", 1))];
      var call := EventOf(ToolUsed("t", "c", Null))["event_id" := Str(NumberedId("r", 2))];
      Log("r", [user, orphan, call]) && !AnswerIdFree([user, orphan, call])
  {
    hide LogEvent, MarkOf, NumberedId, EventOf;
    NotedMark(Prompted("hi"), NumberedId("r", 0));
    NotedMark(ToolDone("t", "x", "success", Null), NumberedId("r", 1));
    NotedMark(ToolUsed("t", "c", Null), NumberedId("r", 2));
    NotedParts(Prompted("hi"), NumberedId("r", 0));
    NotedParts(ToolDone("t", "x", "success", Null), NumberedId("r", 1));
    NotedParts(ToolUsed("t", "c", Null), NumberedId("r", 2));
    var user := EventOf(Prompted("hi"))["event_id" := Str(NumberedId("r", 0))];
    var orphan := EventOf(ToolDone("t", "x", "success", Null))["event_id" := Str(NumberedId("r", 1))];
    var call := EventOf(ToolUsed("t", "c", Null))["event_id" := Str(NumberedId("r", 2))];
    var events := [user, orphan, call];
    ClashPlaces(events);
  }

  lemma {:induction false} NotedParts(noted: Noted, id: string)
    ensures var f := EventOf(noted)["event_id" := Str(id)];
      && Get(f, "kind")
         == Str(if noted.ToolUsed? then "tool_call" else if noted.ToolDone? then "tool_result" else "message")
      && (noted.ToolUsed? || noted.ToolDone? ==> Get(f, "tool_call_id") == Str(noted.callId))
      && (!noted.Answer? ==> Get(f, "final") == Null)
  {
  }

  lemma {:induction false} ClashPlaces(events: seq<Fields>)
    requires |events| == 3
    requires Get(events[0], "kind") == Str("message") && Get(events[1], "kind") == Str("tool_result")
    requires Get(events[2], "kind") == Str("tool_call")
    requires Get(events[1], "tool_call_id") == Str("x") && Get(events[2], "tool_call_id") == Str("c")
    requires Get(events[0], "final") == Get(events[2], "final") == Null
    ensures !AnswerIdFree(events)
  {
    hide IsOrphan, KeptPlaces, HasFinal;
    OrphanInTheMiddle(events);
    NoPlaces(events);
    PlacesStep(events, 0);
    PlacesStep(events, 1);
    PlacesStep(events, 2);
    assert KeptPlaces(events, 3) == [0, 2];
    assert Kept(events) == [events[0], events[2]];
    NoFinalHere(events[0], events[2]);
  }

  lemma {:induction false} OrphanInTheMiddle(events: seq<Fields>)
    requires |events| == 3
    requires Get(events[0], "kind") == Str("message") && Get(events[1], "kind") == Str("tool_result")
    requires Get(events[2], "kind") == Str("tool_call")
    requires Get(events[1], "tool_call_id") == Str("x") && Get(events[2], "tool_call_id") == Str("c")
    ensures !IsOrphan(events, events[0]) && IsOrphan(events, events[1]) && !IsOrphan(events, events[2])
  {
    assert Str("x") !in KnownCalls(events);
  }

  lemma {:induction false} NoFinalHere(f: Fields, g: Fields)
    requires Get(f, "final") == Get(g, "final") == Null
    ensures !HasFinal([f, g])
  {
  }

  // ------------------------------------------------------------------- after compaction

  predicate PlainText(j: Json) {
    j.Str? ==> !IsInline(j.s)
  }

  /** The identifiers of an event do not look like inline binary. */
  predicate PlainIds(f: Fields) {
    PlainText(Get(f, "event_id")) && PlainText(Get(f, "tool_call_id")) && PlainText(Get(f, "tool_name"))
  }

  lemma {:induction false} SanitizedMember(f: Fields, key: string, codec: Codec)
    ensures Sanitize(Obj(f), codec.tools).Obj?
    ensures var g := Sanitize(Obj(f), codec.tools).fields;
      (key in g <==> key in f) && Get(g, key) == Sanitize(Get(f, key), codec.tools)
  {
    hide IsInline, InlineMarker;
  }

  lemma {:induction false} WordsArePlain(s: string)
    requires s in {"message", "tool_call", "tool_result", "user", "assistant", "success", "error", "cancelled",
                   "unknown"}
    ensures !IsInline(s)
  {
    assert s[0] != 'd';
  }

  /** Sanitising an event changes nothing the rules look at. */
  lemma {:induction false} SanitizedMark(f: Fields, codec: Codec)
    requires LogEvent(f) && PlainIds(f)
    ensures var g := Sanitize(Obj(f), codec.tools);
      g.Obj? && SameHead(f, g.fields)
  {
    hide IsInline;
    forall s | s in {"message", "tool_call", "tool_result", "user", "assistant", "success", "error", "cancelled",
                     "unknown"}
      ensures !IsInline(s)
    {
      WordsArePlain(s);
    }
    SanitizedMember(f, "event_id", codec);
    SanitizedMember(f, "kind", codec);
    SanitizedMember(f, "role", codec);
    SanitizedMember(f, "tool_call_id", codec);
    SanitizedMember(f, "tool_name", codec);
    SanitizedMember(f, "status", codec);
    SanitizedMember(f, "final", codec);
    SanitizedMember(f, "arguments", codec);
  }

  /** Two events that differ at most in content and arguments; a message keeps having none. */
  predicate SameHead(f: Fields, g: Fields) {
    && Get(g, "event_id") == Get(f, "event_id") && Get(g, "kind") == Get(f, "kind") && Get(g, "role") == Get(f, "role")
    && Get(g, "tool_call_id") == Get(f, "tool_call_id") && Get(g, "tool_name") == Get(f, "tool_name")
    && Get(g, "status") == Get(f, "status") && Get(g, "final") == Get(f, "final")
    && (Get(f, "kind") == Str("message") ==> Get(g, "arguments") == Null)
  }

  lemma {:induction false} SameHeadSameMark(f: Fields, g: Fields)
    requires LogEvent(f) && SameHead(f, g)
    ensures LogEvent(g) && MarkOf(g) == MarkOf(f)
  {
  }

  lemma {:induction false} ShedHead(f: Fields, g: Fields, codec: Codec)
    requires SameHead(f, g) && LogEvent(f)
    ensures Shed(Obj(g), codec).Obj? && SameHead(f, Shed(Obj(g), codec).fields)
  {
    hide Omitted, LogEvent;
    if PayloadField(Obj(g)) == "arguments" {
      assert Shed(Obj(g), codec).fields == g["arguments" := Omitted(g["arguments"], codec)];
    } else if PayloadField(Obj(g)) == "content" {
      assert Shed(Obj(g), codec).fields == g["content" := Omitted(g["content"], codec)];
    }
  }

  /** Compaction keeps every mark. */
  lemma {:induction false} CompactedMarks(events: seq<Fields>, k: nat, codec: Codec)
    requires forall i :: 0 <= i < |events| ==> LogEvent(events[i]) && PlainIds(events[i])
    requires var clean := SanitizeAll(AsJson(events), codec);
      k <= |Candidates(clean, |clean|, codec)| && IndicesBelow(Candidates(clean, |clean|, codec), |clean|)
    ensures var clean := SanitizeAll(AsJson(events), codec);
      var compacted := ShedFirst(clean, Candidates(clean, |clean|, codec), k, codec);
      && AllObjects(compacted) && Marks(FieldsOf(compacted)) == Marks(events)
      && forall i :: 0 <= i < |compacted| ==> LogEvent(FieldsOf(compacted)[i])
  {
    hide LogEvent, PlainIds, Sanitize, Shed, MarkOf, SameHead, Size, PayloadField;
    var clean := SanitizeAll(AsJson(events), codec);
    var order := Candidates(clean, |clean|, codec);
    var compacted := ShedFirst(clean, order, k, codec);
    OrderIndices(clean, codec);
    forall i | 0 <= i < |events| ensures compacted[i].Obj? && SameHead(events[i], compacted[i].fields) {
      SanitizedMark(events[i], codec);
      ShedFirstAt(clean, order, k, codec, i);
      ShedHead(events[i], clean[i].fields, codec);
    }
    forall i | 0 <= i < |events|
      ensures LogEvent(compacted[i].fields) && MarkOf(compacted[i].fields) == MarkOf(events[i])
    {
      SameHeadSameMark(events[i], compacted[i].fields);
    }
    assert Marks(FieldsOf(compacted)) == Marks(events);
  }

  /** What is built from a finished round, compacted or not, is accepted exactly when the round
      obeys the rules. */
  lemma {:induction false} BridgeAcceptedIff(lib: Library, spec: RoundSpec, log: seq<Fields>, sent: seq<Fields>,
                                             render: Render)
    requires Log(spec.roundId, log) && HasUser(log) && |sent| > 0
    requires Marks(sent) == Marks(FinishedLog(spec.roundId, log))
    requires forall i :: 0 <= i < |sent| ==> LogEvent(sent[i]) && CleanEvent(sent[i])
    ensures Accepts(lib, Build(lib, spec, sent, render).value)
       <==> OneFinalAtMost(Marks(log)) && UniqueCalls(Marks(log)) && AnswerIdFree(log)
  {
    hide MarkOf, FinishedLog, MarkRules, RoundRules, Normalized, Accepts, Build, ValidEvent, CleanEvent, NormalizeEvent,
         OneFinalAtMost, UniqueCalls, AnswerIdFree, Log, HasUser, Shaped;
    var normalized := Normalized(spec, sent, render);
    forall i | 0 <= i < |sent| ensures ValidEvent(normalized[i]) && CleanContent(sent[i]) {
      NormalizedAt(spec, sent, i, render);
      ShapedIsValid(spec, sent[i], i, render);
      CleanIsClean(sent[i]);
    }
    CleanBuiltAcceptedIff(lib, spec, sent, render);
    RulesByMarks(spec, sent, render);
    FinishedRules(spec.roundId, log);
  }

  /** The same for content of any kind, with a digest that tells explicit nulls apart: what is
      sent must be typed and free of nulls, too. */
  lemma {:induction false} BridgeAcceptedExactly(lib: Library, spec: RoundSpec, log: seq<Fields>, sent: seq<Fields>,
                                                 render: Render)
    requires Log(spec.roundId, log) && HasUser(log) && |sent| > 0 && TellsNullsApart(lib)
    requires Marks(sent) == Marks(FinishedLog(spec.roundId, log))
    requires forall i :: 0 <= i < |sent| ==> LogEvent(sent[i])
    ensures Accepts(lib, Build(lib, spec, sent, render).value)
       <==> AllClean(sent) && OneFinalAtMost(Marks(log)) && UniqueCalls(Marks(log)) && AnswerIdFree(log)
  {
    hide MarkOf, FinishedLog, MarkRules, RoundRules, Normalized, Accepts, Build, ValidEvent, CleanEvent, NormalizeEvent,
         OneFinalAtMost, UniqueCalls, AnswerIdFree, Log, HasUser, Shaped, TellsNullsApart, CleanContent;
    if AllClean(sent) {
      BridgeAcceptedIff(lib, spec, log, sent, render);
    } else {
      var i :| 0 <= i < |sent| && !CleanEvent(sent[i]);
      BuiltAcceptedExactly(lib, spec, sent, render);
      if CleanContent(sent[i]) {
        NormalizedAt(spec, sent, i, render);
        StrayIsInvalid(spec, sent[i], i, render);
      }
    }
  }

  /** The events after `k` payloads were omitted. */
  function CompactedTo(events: seq<Fields>, k: nat, codec: Codec): (r: seq<Fields>)
    requires k <= |Candidates(SanitizeAll(AsJson(events), codec), |events|, codec)|
  {
    var clean := SanitizeAll(AsJson(events), codec);
    OrderIsBelow(clean, codec);
    CompactedObjects(events, k, codec);
    FieldsOf(ShedFirst(clean, Candidates(clean, |clean|, codec), k, codec))
  }

  lemma {:induction false} CompactedObjects(events: seq<Fields>, k: nat, codec: Codec)
    requires var clean := SanitizeAll(AsJson(events), codec);
      k <= |Candidates(clean, |clean|, codec)| && IndicesBelow(Candidates(clean, |clean|, codec), |clean|)
    ensures var clean := SanitizeAll(AsJson(events), codec);
      AllObjects(ShedFirst(clean, Candidates(clean, |clean|, codec), k, codec))
  {
    hide Sanitize, Shed, Size, PayloadField;
    var clean := SanitizeAll(AsJson(events), codec);
    var order := Candidates(clean, |clean|, codec);
    OrderIndices(clean, codec);
    forall i | 0 <= i < |events| ensures ShedFirst(clean, order, k, codec)[i].Obj? {
      SanitizedMember(events[i], "kind", codec);
      ShedFirstAt(clean, order, k, codec, i);
      ShedStaysObject(clean[i], codec);
    }
  }

  predicate AllPlain(events: seq<Fields>) {
    forall i :: 0 <= i < |events| ==> PlainIds(events[i])
  }

  /** The content of every event, once sanitised, is typed and free of nulls. */
  ghost predicate Presentable(events: seq<Fields>, codec: Codec) {
    forall i {:trigger events[i]} :: 0 <= i < |events| ==>
      Sanitize(Obj(events[i]), codec.tools).Obj? && CleanEvent(Sanitize(Obj(events[i]), codec.tools).fields)
  }

  lemma {:induction false} OmittedIsNoPart(value: Json, codec: Codec)
    ensures Omitted(value, codec).Obj? && !IsCanonicalPart(Omitted(value, codec))
  {
    hide Size;
    assert "ledgermind_omitted" in Omitted(value, codec).fields;
  }

  lemma {:induction false} ShedIsCleanEvent(f: Fields, codec: Codec)
    requires CleanEvent(f)
    ensures Shed(Obj(f), codec).Obj? && CleanEvent(Shed(Obj(f), codec).fields)
  {
    hide Omitted, IsCanonicalPart;
    var field := PayloadField(Obj(f));
    if field == "content" {
      var g := Shed(Obj(f), codec).fields;
      var marker := Omitted(f["content"], codec);
      OmittedIsNoPart(f["content"], codec);
      assert Get(g, "content") == marker && "content" in g;
      assert Content(marker) == [JsonPart(marker)];
    } else if field == "arguments" {
      var g := Shed(Obj(f), codec).fields;
      assert Either(g, "content", "api_content") == Either(f, "content", "api_content");
    }
  }

  lemma {:induction false} CompactedIsPresentable(events: seq<Fields>, k: nat, codec: Codec)
    requires k <= |Candidates(SanitizeAll(AsJson(events), codec), |events|, codec)| && Presentable(events, codec)
    ensures forall i :: 0 <= i < |CompactedTo(events, k, codec)| ==> CleanEvent(CompactedTo(events, k, codec)[i])
  {
    hide Sanitize, Shed, Size, PayloadField, CleanEvent;
    var clean := SanitizeAll(AsJson(events), codec);
    var order := Candidates(clean, |clean|, codec);
    OrderIndices(clean, codec);
    forall i | 0 <= i < |events| ensures CleanEvent(CompactedTo(events, k, codec)[i]) {
      assert CleanEvent(Sanitize(Obj(events[i]), codec.tools).fields);
      ShedFirstAt(clean, order, k, codec, i);
      ShedIsCleanEvent(clean[i].fields, codec);
    }
  }
}
