/** The lifecycle bridge: one state record per session, changed by hooks under a lock and
    written back only when the hook ends normally. Fresh ids, clock readings and what the spool
    answers are inputs. */
module LifecycleBridge {
  import opened Options
  import opened JsonValue
  import opened Canonical
  import opened RawRounds
  import opened Decimals
  import opened RoundRequests
  import opened RoundRecords
  import opened HermesEvents
  import opened HermesRounds
  import opened InlineBinary
  import opened Compaction
  import opened BridgeRounds

  datatype BridgeConfig = BridgeConfig(lib: Library, render: Render, template: RoundSpec, codec: Codec,
                                       maxPayloadBytes: nat)

  /** A session's stored state; empty strings stand for missing members. */
  datatype BridgeState = BridgeState(roundId: string, startedAt: string, leaseId: string, events: seq<Fields>)

  const NO_STATE := BridgeState("", "", "", [])

  /** What the spool answers to an enqueue. */
  datatype Enqueue = Stored | PayloadLimit | OtherFault

  datatype StopResult = Raised | NothingToDo | Discarded | Enqueued(sent: seq<Fields>, request: Fields)

  /** A round that was finished: its log, and what was enqueued for it. */
  datatype ClosedLog = ClosedLog(roundId: string, events: seq<Fields>, queued: Option<seq<Fields>>)

  function Flatten(closed: seq<ClosedLog>): seq<Fields> {
    if closed == [] then [] else Flatten(closed[..|closed| - 1]) + closed[|closed| - 1].events
  }

  /** Some number of payloads was omitted from the finished log, and nothing else was done. */
  ghost predicate SentFrom(roundId: string, events: seq<Fields>, sent: seq<Fields>, codec: Codec) {
    var finished := FinishedLog(roundId, events);
    exists k: nat ::
      k <= |Candidates(SanitizeAll(AsJson(finished), codec), |finished|, codec)|
      && sent == CompactedTo(finished, k, codec)
  }

  /** The fewest payloads were omitted, from the largest down, that bring the events within
      `maxEncoded` bytes and each payload left within `maxItem`, or all of them. */
  ghost predicate SentShortest(finished: seq<Fields>, sent: seq<Fields>, maxEncoded: int, maxItem: int, codec: Codec) {
    var clean := SanitizeAll(AsJson(finished), codec);
    var order := Candidates(clean, |clean|, codec);
    && IndicesBelow(order, |clean|)
    && exists k: nat ::
         IsShortest(clean, order, k, maxEncoded, maxItem, codec) && AsJson(sent) == ShedFirst(clean, order, k, codec)
  }

  /** A closed log was enqueued when it held a user message, and discarded when it did not. */
  ghost predicate ClosedRight(c: ClosedLog, codec: Codec) {
    && Log(c.roundId, c.events)
    && match c.queued
       case Some(sent) => HasUser(c.events) && SentFrom(c.roundId, c.events, sent, codec)
       case None => !HasUser(c.events)
  }

  /** The rules of a round, read off its log. */
  ghost predicate ObeysRules(events: seq<Fields>) {
    OneFinalAtMost(Marks(events)) && UniqueCalls(Marks(events)) && AnswerIdFree(events)
  }

  function Begun(state: BridgeState, uuid: string, now: string): BridgeState {
    state.(roundId := if state.roundId == "" then uuid else state.roundId,
           startedAt := if state.startedAt == "" then now else state.startedAt)
  }

  /** `_text(value)` is not empty. */
  predicate HasText(j: Json, isSpace: char -> bool) {
    match j
    case Null => false
    case Str(s) => exists i :: 0 <= i < |s| && !isSpace(s[i])
    case _ => true
  }

  function SpecFor(config: BridgeConfig, state: BridgeState, at: string): (spec: RoundSpec)
    ensures spec.roundId == state.roundId
  {
    config.template.(roundId := state.roundId, startedAt := state.startedAt, completedAt := at)
  }

  function CallId(callId: string, uuid: string): (id: string)
    ensures id != ""
  {
    if callId != "" then callId else "call-" + uuid
  }

  const MAX_ITEM_BYTES := 190_000

  function Budget(maxPayloadBytes: nat): int {
    if maxPayloadBytes - 256_000 < 1 then 1 else maxPayloadBytes - 256_000
  }

  /** The spool takes the round, at once or after everything was shed. */
  predicate Takes(first: Enqueue, second: Enqueue) {
    first.Stored? || (first.PayloadLimit? && second.Stored?)
  }

  /** Nothing but the rules can make validation fail. */
  ghost predicate Sendable(events: seq<Fields>, codec: Codec) {
    AllPlain(events) && Presentable(events, codec)
  }

  class LifecycleSession {
    const config: BridgeConfig
    var stored: BridgeState
    /** Every event the hooks appended, and every log that was closed. */
    ghost var appended: seq<Fields>
    ghost var closed: seq<ClosedLog>

    ghost predicate Valid()
      reads this
    {
      && Log(stored.roundId, stored.events)
      && (stored.events != [] ==> stored.roundId != "")
      && appended == Flatten(closed) + stored.events
      && forall c :: c in closed ==> ClosedRight(c, config.codec)
    }

    constructor (config: BridgeConfig)
      ensures Valid() && stored == NO_STATE && appended == [] && closed == [] && this.config == config
    {
      this.config := config;
      stored := NO_STATE;
      appended, closed := [], [];
    }

    /** A round that was begun goes on, and else one begins here and now. */
    twostate predicate Resumed(uuid: string, now: string)
      reads this
    {
      && stored.roundId == (if old(stored.roundId) == "" then uuid else old(stored.roundId))
      && stored.startedAt == (if old(stored.startedAt) == "" then now else old(stored.startedAt))
      && stored.leaseId == old(stored.leaseId)
    }

    /** What the prompt, tool and answer hooks share: defaults, one event if there is one to
        note, and the state written back. */
    method Note(noted: Option<Noted>, uuid: string, now: string)
      requires Valid() && uuid != "" && (noted.Some? ==> WellFormed(noted.value))
      modifies this
      ensures Valid() && closed == old(closed) && Resumed(uuid, now)
      ensures stored.events
           == if noted.Some? then Append(stored.roundId, old(stored.events), EventOf(noted.value))
              else old(stored.events)
      ensures appended == old(appended) + stored.events[|old(stored.events)|..]
    {
      hide LogEvent, EventOf, SentFrom;
      var state := Begun(stored, uuid, now);
      DefaultsKeepLog(stored, uuid, now);
      if noted.Some? {
        AppendKeepsLog(state.roundId, state.events, noted.value);
        state := state.(events := Append(state.roundId, state.events, EventOf(noted.value)));
        appended := appended + [state.events[|state.events| - 1]];
      }
      stored := state;
    }

    method OnPrompt(prompt: string, uuid: string, now: string)
      requires Valid() && uuid != ""
      modifies this
      ensures Valid() && closed == old(closed) && Resumed(uuid, now)
      ensures stored.events == old(stored.events) + if prompt == "" then [] else [map[
        "kind" := Str("message"), "role" := Str("user"), "content" := Str(prompt),
        "event_id" := Str(stored.roundId + ":" + Decimal(|old(stored.events)|))]]
      ensures appended == old(appended) + stored.events[|old(stored.events)|..]
    {
      hide Append, EventOf, ClosedRight;
      Note(if prompt == "" then None else Some(Prompted(prompt)), uuid, now);
      AppendedIs(stored.roundId, old(stored.events), Prompted(prompt));
    }

    method OnToolUse(tool: string, callId: string, arguments: Json, callUuid: string, uuid: string, now: string)
      requires Valid() && uuid != "" && tool != ""
      modifies this
      ensures Valid() && closed == old(closed) && Resumed(uuid, now)
      ensures stored.events == old(stored.events) + [map[
        "kind" := Str("tool_call"), "tool_name" := Str(tool),
        "tool_call_id" := Str(if callId != "" then callId else "call-" + callUuid),
        "arguments" := Sanitize(arguments, config.codec.tools),
        "event_id" := Str(stored.roundId + ":" + Decimal(|old(stored.events)|))]]
      ensures appended == old(appended) + stored.events[|old(stored.events)|..]
    {
      hide Sanitize, Append, EventOf, ClosedRight;
      var noted := ToolUsed(tool, CallId(callId, callUuid), Sanitize(arguments, config.codec.tools));
      Note(Some(noted), uuid, now);
      AppendedIs(stored.roundId, old(stored.events), noted);
    }

    method OnToolDone(tool: string, callId: string, failed: bool, content: Json, callUuid: string, uuid: string,
                      now: string)
      requires Valid() && uuid != "" && tool != ""
      modifies this
      ensures Valid() && closed == old(closed) && Resumed(uuid, now)
      ensures stored.events == old(stored.events) + [map[
        "kind" := Str("tool_result"), "tool_name" := Str(tool),
        "tool_call_id" := Str(if callId != "" then callId else "call-" + callUuid),
        "status" := Str(if failed then "error" else "success"), "content" := Sanitize(content, config.codec.tools),
        "event_id" := Str(stored.roundId + ":" + Decimal(|old(stored.events)|))]]
      ensures appended == old(appended) + stored.events[|old(stored.events)|..]
    {
      hide Sanitize, Append, EventOf, ClosedRight;
      var noted := ToolDone(tool, CallId(callId, callUuid), if failed then "error" else "success",
                            Sanitize(content, config.codec.tools));
      Note(Some(noted), uuid, now);
      AppendedIs(stored.roundId, old(stored.events), noted);
    }

    method OnAnswer(answer: Json, uuid: string, now: string)
      requires Valid() && uuid != ""
      modifies this
      ensures Valid() && closed == old(closed) && Resumed(uuid, now)
      ensures var said :=
          answer != Null && (answer.Str? ==> exists i :: 0 <= i < |answer.s| && !config.lib.isSpace(answer.s[i]));
        stored.events == old(stored.events) + if said then [map[
          "kind" := Str("message"), "role" := Str("assistant"), "content" := answer, "final" := Bool(true),
          "event_id" := Str(stored.roundId + ":" + Decimal(|old(stored.events)|))]] else []
      ensures appended == old(appended) + stored.events[|old(stored.events)|..]
    {
      hide Append, EventOf, ClosedRight;
      Note(if HasText(answer, config.lib.isSpace) then Some(Answer(answer)) else None, uuid, now);
      AppendedIs(stored.roundId, old(stored.events), Answer(answer));
    }

    /** Compacts the finished events, builds the request and validates it. */
    method CompactAndBuild(spec: RoundSpec, finished: seq<Fields>, maxEncoded: int)
      returns (sent: seq<Fields>, accepted: bool, ghost k: nat)
      requires finished != []
      ensures k <= |Candidates(SanitizeAll(AsJson(finished), config.codec), |finished|, config.codec)|
      ensures sent == CompactedTo(finished, k, config.codec) && |sent| == |finished|
      ensures accepted == Accepts(config.lib, Build(config.lib, spec, sent, config.render).value)
      ensures SentShortest(finished, sent, maxEncoded, 190_000, config.codec)
    {
      hide Accepts, Build, Candidates, SanitizeAll, ShedFirst, Fits;
      var compacted, shed := CompactToolEvents(AsJson(finished), maxEncoded, MAX_ITEM_BYTES, config.codec);
      CompactedObjects(finished, shed, config.codec);
      sent := FieldsOf(compacted);
      k := shed;
      accepted := Accepts(config.lib, Build(config.lib, spec, sent, config.render).value);
    }

    /** The request names the round, its beginning and end, and holds what was sent. */
    ghost predicate Requested(roundId: string, startedAt: string, at: string, r: StopResult)
      requires r.Enqueued?
    {
      && RequestOf(r.request, config.template.sessionId, roundId, at, r.sent, config.render)
      && SaysIn(r.request, "round", "started_at", Str(startedAt))
    }

    /** `_enqueue_finished_round`, without the state it clears on success. */
    method EnqueueFinishedRound(state: BridgeState, at: string, first: Enqueue, second: Enqueue) returns (r: StopResult)
      requires Log(state.roundId, state.events)
      ensures r.NothingToDo? <==> state.events == []
      ensures r.Discarded? <==> state.events != [] && !HasUser(state.events)
      ensures var finished := FinishedLog(state.roundId, state.events);
        && (r.Enqueued? ==> SentFrom(state.roundId, state.events, r.sent, config.codec))
        && (r.Enqueued? && first.Stored? ==>
              SentShortest(finished, r.sent, if config.maxPayloadBytes <= 256_000 then 1
                                             else config.maxPayloadBytes - 256_000, 190_000, config.codec))
        && (r.Enqueued? && !first.Stored? ==> SentShortest(finished, r.sent, 1, 190_000, config.codec))
        && (r.Enqueued? && AllPlain(finished) ==> ObeysRules(state.events))
        && (HasUser(state.events) && ObeysRules(state.events) && Sendable(finished, config.codec)
            && Takes(first, second) ==>
              r.Enqueued?)
      ensures !Takes(first, second) ==> !r.Enqueued?
      ensures r.Enqueued? ==> Requested(state.roundId, state.startedAt, at, r)
    {
      hide Log, SentShortest, RequestOf, HasUser, FinishedLog, ObeysRules, Presentable, Candidates, SanitizeAll,
           Accepts, Build, CompactedTo, Kept, HasFinal;
      if state.events == [] {
        NoUserInNothing();
        return NothingToDo;
      }
      if !HasUser(state.events) {
        return Discarded;
      }
      var finished := DropOrphans(state.events);
      if !HasFinal(finished) {
        finished := Append(state.roundId, finished, EventOf(Answer(SYNTHETIC_ANSWER)));
      }
      FinishedIs(state.roundId, state.events, finished);
      var spec := SpecFor(config, state, at);
      var sent, accepted, k := CompactAndBuild(spec, finished, Budget(config.maxPayloadBytes));
      SentIsJudged(config, spec, state.events, k);
      if !accepted || first.OtherFault? {
        return Raised;
      }
      if first.PayloadLimit? {
        ghost var l;
        sent, accepted, l := CompactAndBuild(spec, finished, 1);
        SentIsJudged(config, spec, state.events, l);
        if !accepted || !second.Stored? {
          return Raised;
        }
      }
      BuiltSays(config.lib, spec, sent, config.render);
      r := Enqueued(sent, Build(config.lib, spec, sent, config.render).value);
    }

    /** The state as a stop finds it, with the answer that came with it, and without its lease. */
    method WithAnswer(answer: Json, uuid: string, now: string) returns (state: BridgeState)
      requires Valid() && uuid != ""
      ensures Log(state.roundId, state.events) && state.roundId != "" && state.leaseId == ""
      ensures state.roundId == if stored.roundId == "" then uuid else stored.roundId
      ensures state.startedAt == if stored.startedAt == "" then now else stored.startedAt
      ensures var said :=
          answer != Null && (answer.Str? ==> exists i :: 0 <= i < |answer.s| && !config.lib.isSpace(answer.s[i]));
        state.events == stored.events + if said then [map[
          "kind" := Str("message"), "role" := Str("assistant"), "content" := answer, "final" := Bool(true),
          "event_id" := Str(state.roundId + ":" + Decimal(|stored.events|))]] else []
    {
      hide Log, Append, EventOf, ClosedRight;
      state := Begun(stored, uuid, now).(leaseId := "");
      DefaultsKeepLog(stored, uuid, now);
      if HasText(answer, config.lib.isSpace) {
        AppendKeepsLog(state.roundId, state.events, Answer(answer));
        AppendedIs(state.roundId, state.events, Answer(answer));
        state := state.(events := Append(state.roundId, state.events, EventOf(Answer(answer))));
      }
    }

    /** A stop, or the end of the session. When it raises, nothing has been written. */
    method OnStop(answer: Json, uuid: string, now: string, at: string, first: Enqueue, second: Enqueue)
      returns (r: StopResult, ghost log: seq<Fields>)
      requires Valid() && uuid != ""
      modifies this
      ensures Valid()
      ensures var roundId := if old(stored.roundId) == "" then uuid else old(stored.roundId);
        var said :=
          answer != Null && (answer.Str? ==> exists i :: 0 <= i < |answer.s| && !config.lib.isSpace(answer.s[i]));
        && log == old(stored.events) + (if said then [map[
             "kind" := Str("message"), "role" := Str("assistant"), "content" := answer, "final" := Bool(true),
             "event_id" := Str(roundId + ":" + Decimal(|old(stored.events)|))]] else [])
        && var finished := FinishedLog(roundId, log);
          && (r.Enqueued? && AllPlain(finished) ==> ObeysRules(log))
          && (HasUser(log) && ObeysRules(log) && Sendable(finished, config.codec) && Takes(first, second) ==>
                r.Enqueued?)
          && (r.Enqueued? ==> SentFrom(roundId, log, r.sent, config.codec))
          && (r.Enqueued? && first.Stored? ==>
                SentShortest(finished, r.sent, if config.maxPayloadBytes <= 256_000 then 1
                                               else config.maxPayloadBytes - 256_000, 190_000, config.codec))
          && (r.Enqueued? && !first.Stored? ==> SentShortest(finished, r.sent, 1, 190_000, config.codec))
          && (r.Enqueued? ==> Requested(roundId, if old(stored.startedAt) == "" then now else old(stored.startedAt),
                                        at, r))
      ensures appended == old(appended) + if r.Raised? then [] else log[|old(stored.events)|..]
      ensures r.Raised? ==> stored == old(stored) && closed == old(closed)
      ensures r.NothingToDo? ==> stored.events == log == [] && closed == old(closed)
      ensures r.Discarded? ==> !HasUser(log)
      ensures r.Enqueued? || r.Discarded? ==>
        && stored == NO_STATE
        && closed == old(closed)
             + [ClosedLog(if old(stored.roundId) == "" then uuid else old(stored.roundId), log,
                          if r.Enqueued? then Some(r.sent) else None)]
    {
      hide Log, SentFrom, FinishedLog, HasUser, ObeysRules, Sendable, Flatten, Marks, SentShortest, Requested, HasText,
           Append, EventOf;
      EmptyLog(NO_STATE);
      var state := WithAnswer(answer, uuid, now);
      log := state.events;
      r := EnqueueFinishedRound(state, at, first, second);
      if r.Raised? {
        return;
      }
      appended := appended + log[|stored.events|..];
      assert log == stored.events + log[|stored.events|..];
      if r.NothingToDo? {
        stored := state;
        return;
      }
      ghost var entry := ClosedLog(state.roundId, log, if r.Enqueued? then Some(r.sent) else None);
      FlattenMore(closed, entry);
      closed := closed + [entry];
      stored := NO_STATE;
    }
  }

  // ----------------------------------------------------------------- where events have gone

  /** The event as sent: sanitised, with its payload omitted or not. */
  predicate SentAs(sent: Fields, f: Fields, codec: Codec) {
    var clean := Sanitize(Obj(f), codec.tools);
    clean.Obj? && (Obj(sent) == clean || Obj(sent) == Shed(clean, codec))
  }

  /** The answer made up for a round that has none. */
  function MadeUp(roundId: string, n: nat): Fields {
    map["kind" := Str("message"), "role" := Str("assistant"), "content" := Str("Session completed"),
        "final" := Bool(true), "event_id" := Str(roundId + ":" + Decimal(n))]
  }

  /** What was sent for a log: the log without its orphans, event by event and in order, and one
      made-up answer exactly when that has none. */
  ghost predicate SentRight(roundId: string, events: seq<Fields>, sent: seq<Fields>, codec: Codec) {
    var kept := Kept(events);
    && |sent| == |kept| + (if HasFinal(kept) then 0 else 1)
    && (forall j :: 0 <= j < |kept| ==> SentAs(sent[j], kept[j], codec))
    && (!HasFinal(kept) ==> SentAs(sent[|kept|], MadeUp(roundId, |kept|), codec))
  }

  lemma {:induction false} CompactedSentAs(events: seq<Fields>, k: nat, codec: Codec, i: nat)
    requires k <= |Candidates(SanitizeAll(AsJson(events), codec), |events|, codec)| && i < |events|
    ensures |CompactedTo(events, k, codec)| == |events| && SentAs(CompactedTo(events, k, codec)[i], events[i], codec)
  {
    hide Sanitize, Shed, Size, PayloadField;
    var clean := SanitizeAll(AsJson(events), codec);
    var order := Candidates(clean, |clean|, codec);
    OrderIndices(clean, codec);
    CompactedObjects(events, k, codec);
    SanitizedMember(events[i], "kind", codec);
    ShedFirstAt(clean, order, k, codec, i);
  }

  lemma {:induction false} FinishedParts(roundId: string, events: seq<Fields>)
    ensures var kept, finished := Kept(events), FinishedLog(roundId, events);
      && |finished| == |kept| + (if HasFinal(kept) then 0 else 1)
      && (forall j :: 0 <= j < |kept| ==> finished[j] == kept[j])
      && (!HasFinal(kept) ==> finished[|kept|] == MadeUp(roundId, |kept|))
  {
    hide Kept, HasFinal, Decimal;
  }

  lemma {:induction false} SentFromIsRight(roundId: string, events: seq<Fields>, sent: seq<Fields>, codec: Codec)
    requires SentFrom(roundId, events, sent, codec)
    ensures SentRight(roundId, events, sent, codec)
  {
    hide Kept, HasFinal, SentAs, Candidates, SanitizeAll, CompactedTo, FinishedLog, MadeUp;
    var finished := FinishedLog(roundId, events);
    var k: nat :| k <= |Candidates(SanitizeAll(AsJson(finished), codec), |finished|, codec)|
      && sent == CompactedTo(finished, k, codec);
    FinishedParts(roundId, events);
    SameLength(finished, k, codec);
    forall i | 0 <= i < |finished| ensures SentAs(sent[i], finished[i], codec) {
      CompactedSentAs(finished, k, codec, i);
    }
  }

  lemma {:induction false} SameLength(events: seq<Fields>, k: nat, codec: Codec)
    requires k <= |Candidates(SanitizeAll(AsJson(events), codec), |events|, codec)|
    ensures |CompactedTo(events, k, codec)| == |events|
  {
    hide Candidates, SanitizeAll;
  }

  /** When the sanitised events fit and so does each payload, they are sent as they are. */
  lemma {:induction false} FittingRoundIsSentWhole(finished: seq<Fields>, sent: seq<Fields>, maxEncoded: int,
                                                   codec: Codec)
    requires SentShortest(finished, sent, maxEncoded, 190_000, codec)
    requires var clean := SanitizeAll(AsJson(finished), codec);
      && SumSeq(seq(|clean|, i requires 0 <= i < |clean| => Size(clean[i], codec.numLen))) <= maxEncoded
      && forall i, key ::
           0 <= i < |clean| && IsPayload(clean[i], key) ==> Size(clean[i].fields[key], codec.numLen) <= 190_000
    ensures AsJson(sent) == SanitizeAll(AsJson(finished), codec)
  {
    hide Fits, Size, Candidates, SanitizeAll;
    var clean := SanitizeAll(AsJson(finished), codec);
    var order := Candidates(clean, |clean|, codec);
    var k: nat :| IsShortest(clean, order, k, maxEncoded, 190_000, codec)
                  && AsJson(sent) == ShedFirst(clean, order, k, codec);
    assert Total(clean, codec) <= maxEncoded by {
      assert Sizes(clean, codec) == seq(|clean|, i requires 0 <= i < |clean| => Size(clean[i], codec.numLen));
    }
    FittingStays(clean, k, maxEncoded, 190_000, codec);
    NothingShed(clean, order, codec);
  }

  /** With one byte to fit in, every tool payload is omitted and nothing else is changed. */
  lemma {:induction false} CrampedRoundIsSentBare(finished: seq<Fields>, sent: seq<Fields>, codec: Codec, i: nat)
    requires SentShortest(finished, sent, 1, 190_000, codec) && i < |finished|
    ensures |sent| == |finished|
    ensures var clean := SanitizeAll(AsJson(finished), codec);
      if exists key :: IsPayload(clean[i], key) then Replaced(clean[i], Obj(sent[i]), codec)
      else Obj(sent[i]) == clean[i]
  {
    hide Fits, Size, Candidates, SanitizeAll, ShedFirst, Replaced;
    var clean := SanitizeAll(AsJson(finished), codec);
    var order := Candidates(clean, |clean|, codec);
    var k: nat :| IsShortest(clean, order, k, 1, 190_000, codec)
                  && AsJson(sent) == ShedFirst(clean, order, k, codec);
    TinyBudgetShedsAll(clean, k, 190_000, codec);
    AllShed(clean, i, codec);
    assert AsJson(sent)[i] == Obj(sent[i]);
  }

  /** The events of closed logs that were sent. */
  function SentEvents(closed: seq<ClosedLog>): seq<Fields> {
    if closed == [] then []
    else
      SentEvents(closed[..|closed| - 1])
      + if closed[|closed| - 1].queued.Some? then Kept(closed[|closed| - 1].events) else []
  }

  /** Those that were not: orphan results, and the logs without a user message. */
  function DroppedEvents(closed: seq<ClosedLog>): seq<Fields> {
    if closed == [] then []
    else
      DroppedEvents(closed[..|closed| - 1])
      + if closed[|closed| - 1].queued.Some? then Orphans(closed[|closed| - 1].events) else closed[|closed| - 1].events
  }

  lemma {:induction false} ClosedSplit(closed: seq<ClosedLog>)
    ensures multiset(Flatten(closed)) == multiset(SentEvents(closed)) + multiset(DroppedEvents(closed))
    decreases |closed|
  {
    hide Kept, Orphans;
    if closed != [] {
      ClosedSplit(closed[..|closed| - 1]);
      KeptAndOrphans(closed[|closed| - 1].events);
    }
  }

  /** The closed logs and the current one, put together in order, are all the events that were
      ever appended. Counted with multiplicity, each of them was sent, or dropped as an orphan or
      with a log that has no user message, or is in the current log. What was sent for a log is
      the log without its orphans, in order, and at most one made-up answer. */
  lemma {:induction false} AppendedIsPartitioned(session: LifecycleSession)
    requires session.Valid()
    ensures session.appended == Flatten(session.closed) + session.stored.events
    ensures multiset(session.appended)
         == multiset(SentEvents(session.closed)) + multiset(DroppedEvents(session.closed))
            + multiset(session.stored.events)
    ensures forall i :: 0 <= i < |session.closed| ==>
      var c := session.closed[i];
      && (c.queued.None? <==> !HasUser(c.events))
      && (c.queued.Some? ==> SentRight(c.roundId, c.events, c.queued.value, session.config.codec))
  {
    hide LogEvent, Kept, Orphans, SentFrom, SentRight, HasUser, Flatten;
    ClosedSplit(session.closed);
    forall i | 0 <= i < |session.closed|
      ensures var c := session.closed[i];
        && (c.queued.None? <==> !HasUser(c.events))
        && (c.queued.Some? ==> SentRight(c.roundId, c.events, c.queued.value, session.config.codec))
    {
      var c := session.closed[i];
      assert c in session.closed && ClosedRight(c, session.config.codec);
      if c.queued.Some? {
        SentFromIsRight(c.roundId, c.events, c.queued.value, session.config.codec);
      }
    }
  }

  /** What each hook appends. */
  lemma {:induction false} AppendedIs(roundId: string, events: seq<Fields>, noted: Noted)
    ensures var id := Str(roundId + ":" + Decimal(|events|));
      Append(roundId, events, EventOf(noted)) == events + [
        match noted
        case Prompted(prompt) =>
          map["kind" := Str("message"), "role" := Str("user"), "content" := Str(prompt), "event_id" := id]
        case ToolUsed(tool, callId, arguments) =>
          map["kind" := Str("tool_call"), "tool_name" := Str(tool), "tool_call_id" := Str(callId),
              "arguments" := arguments, "event_id" := id]
        case ToolDone(tool, callId, status, content) =>
          map["kind" := Str("tool_result"), "tool_name" := Str(tool), "tool_call_id" := Str(callId),
              "status" := Str(status), "content" := content, "event_id" := id]
        case Answer(content) =>
          map["kind" := Str("message"), "role" := Str("assistant"), "content" := content, "final" := Bool(true),
              "event_id" := id]]
  {
    match noted
    case Prompted(prompt) =>
    case ToolUsed(tool, callId, arguments) =>
    case ToolDone(tool, callId, status, content) =>
    case Answer(content) =>
  }

  lemma {:induction false} EmptyLog(state: BridgeState)
    requires state.events == []
    ensures Log(state.roundId, state.events)
  {
  }

  lemma {:induction false} NoUserInNothing()
    ensures !HasUser([])
  {
  }

  lemma {:induction false} FlattenMore(closed: seq<ClosedLog>, entry: ClosedLog)
    ensures Flatten(closed + [entry]) == Flatten(closed) + entry.events
  {
    assert (closed + [entry])[..|closed|] == closed;
  }

  lemma {:induction false} FinishedIs(roundId: string, events: seq<Fields>, finished: seq<Fields>)
    requires HasUser(events) && Log(roundId, events)
    requires finished
         == if HasFinal(Kept(events)) then Kept(events)
            else Append(roundId, Kept(events), EventOf(Answer(SYNTHETIC_ANSWER)))
    ensures finished == FinishedLog(roundId, events) && finished != []
  {
    hide HasUser, HasFinal, Kept, Log;
    KeptUser(roundId, events);
  }

  /** Whether what is sent passes validation is decided by the log. */
  lemma {:induction false} SentIsJudged(config: BridgeConfig, spec: RoundSpec, events: seq<Fields>, k: nat)
    requires Log(spec.roundId, events) && HasUser(events)
    requires var finished := FinishedLog(spec.roundId, events);
      finished != [] && k <= |Candidates(SanitizeAll(AsJson(finished), config.codec), |finished|, config.codec)|
    ensures var finished := FinishedLog(spec.roundId, events);
      var sent := CompactedTo(finished, k, config.codec);
      && sent != [] && SentFrom(spec.roundId, events, sent, config.codec)
      && (AllPlain(finished) && Accepts(config.lib, Build(config.lib, spec, sent, config.render).value) ==>
            ObeysRules(events))
      && (AllPlain(finished) && Presentable(finished, config.codec) && ObeysRules(events) ==>
            Accepts(config.lib, Build(config.lib, spec, sent, config.render).value))
  {
    hide LogEvent, Kept, HasUser, FinishedLog, Presentable, Candidates, SanitizeAll, Accepts, Build, MarkOf, Log,
         PlainIds, OneFinalAtMost, UniqueCalls, AnswerIdFree, RoundRules, MarkRules, Normalized, CleanEvent, ShedFirst;
    var finished := FinishedLog(spec.roundId, events);
    var sent := CompactedTo(finished, k, config.codec);
    FinishedMarks(spec.roundId, events);
    OrderIsBelow(SanitizeAll(AsJson(finished), config.codec), config.codec);
    if AllPlain(finished) {
      CompactedMarks(finished, k, config.codec);
      ShapedLog(sent);
      if Accepts(config.lib, Build(config.lib, spec, sent, config.render).value) {
        BuiltAcceptedIff(config.lib, spec, sent, config.render);
        RulesByMarks(spec, sent, config.render);
        FinishedRules(spec.roundId, events);
      }
      if Presentable(finished, config.codec) {
        CompactedIsPresentable(finished, k, config.codec);
        BridgeAcceptedIff(config.lib, spec, events, sent, config.render);
      }
    }
  }

  lemma {:induction false} ShapedLog(events: seq<Fields>)
    requires forall i :: 0 <= i < |events| ==> LogEvent(events[i])
    ensures forall i :: 0 <= i < |events| ==> Shaped(events[i])
  {
    hide Shaped, MarkOf;
  }

  lemma {:induction false} DefaultsKeepLog(state: BridgeState, uuid: string, now: string)
    requires Log(state.roundId, state.events) && (state.events != [] ==> state.roundId != "")
    ensures Log(Begun(state, uuid, now).roundId, state.events)
  {
  }
}
