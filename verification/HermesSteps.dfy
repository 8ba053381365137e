/** What each hook does to the capture of the active round, and what every sequence of hooks
    without host message ids leads to. */
module HermesSteps {
  import opened Options
  import opened JsonValue
  import opened Decimals
  import opened Canonical
  import opened RawRounds
  import opened RoundRequests
  import opened HermesEvents
  import opened HermesRounds

  /** What the hooks contribute to the captured events. An empty `tool` or `explicit` stands for
      a missing one. */
  datatype HookStep =
    | ToolStarted(explicit: string, tool: string, arguments: Fields, at: string)
    | ToolFinished(explicit: string, tool: string, status: string, output: Json, error: Option<string>, at: string)
    | UserSeen(id: Option<string>, content: Json)

  function ToolName(tool: string): string {
    if tool == "" then "unknown" else tool
  }

  function Status(status: string): string {
    if status in {"success", "error", "cancelled", "unknown"} then status else "unknown"
  }

  function ResultContent(output: Json, error: Option<string>): Json {
    var shown := if error.Some? && !Truthy(output) then Str(error.value) else output;
    if shown == Null then Str("") else shown
  }

  predicate OpenCall(events: seq<Fields>, k: nat) {
    && k < |events| && Get(events[k], "kind") == Str("tool_call")
    && Get(events[k], "tool_call_id").Str? && Get(events[k], "tool_call_id").s != ""
    && !HasResult(events, Get(events[k], "tool_call_id").s)
  }

  /** Position of the last of the first `n` events that is a call without a result. */
  function LastOpenCall(events: seq<Fields>, n: nat): (r: Option<nat>)
    requires n <= |events|
    ensures r.Some? ==> r.value < n && OpenCall(events, r.value)
    ensures forall k :: (if r.Some? then r.value + 1 else 0) <= k < n ==> !OpenCall(events, k)
  {
    if n == 0 then None else if OpenCall(events, n - 1) then Some(n - 1) else LastOpenCall(events, n - 1)
  }

  /** No call after this one is still open. */
  predicate IsLastOpen(events: seq<Fields>, k: nat) {
    OpenCall(events, k) && forall j :: k < j < |events| ==> !OpenCall(events, j)
  }

  /** `_tool_call_id`: the explicit id, else the id of the last call still open, else one made up
      from the number of events. */
  function ToolCallId(r: string, events: seq<Fields>, explicit: string): (t: string)
    ensures t != ""
    ensures explicit != "" ==> t == explicit
    ensures explicit == "" && (exists k: nat :: OpenCall(events, k)) ==>
      exists k: nat :: IsLastOpen(events, k) && Get(events[k], "tool_call_id") == Str(t)
    ensures explicit == "" && (forall k: nat :: !OpenCall(events, k)) ==> t == r + ":tool:" + Decimal(|events|)
  {
    assert forall k: nat :: OpenCall(events, k) ==> k < |events|;
    if explicit != "" then explicit
    else
      var open := LastOpenCall(events, |events|);
      if open.Some? then Get(events[open.value], "tool_call_id").s else r + ":tool:" + Decimal(|events|)
  }

  function UserEventId(r: string, id: Option<string>): string {
    if id.Some? then id.value else r + ":user"
  }

  function AssistantEventId(r: string, id: Option<string>): string {
    if id.Some? then id.value else r + ":assistant"
  }

  function WithCall(r: string, c: Capture, t: string, tool: string, arguments: Fields, at: string): Capture {
    AddCall(c, CallEvent(r, t, ToolName(tool), arguments, at), t)
  }

  /** The capture after one hook. */
  function After(r: string, c: Capture, step: HookStep): Capture {
    match step
    case ToolStarted(explicit, tool, arguments, at) =>
      WithCall(r, c, ToolCallId(r, c.events, explicit), tool, arguments, at)
    case ToolFinished(explicit, tool, status, output, error, at) =>
      var t := ToolCallId(r, c.events, explicit);
      var called := WithCall(r, c, t, tool, map[], at);
      AddResult(called, ResultEvent(r, t, Status(status), ResultContent(output, error), error, at), t, error, at)
    case UserSeen(id, content) => c.(events := EnsureUser(c.events, UserEventId(r, id), content))
  }

  function AfterAll(r: string, steps: seq<HookStep>): Capture {
    if steps == [] then Capture([], map[])
    else After(r, AfterAll(r, steps[..|steps| - 1]), steps[|steps| - 1])
  }

  predicate HostIdGiven(step: HookStep) {
    step.UserSeen? && step.id.Some?
  }

  /** A host id is a number or a non-blank string. */
  predicate IdUsable(step: HookStep) {
    HostIdGiven(step) ==> step.id.value != ""
  }

  lemma {:induction false} AfterKeeps(r: string, c: Capture, step: HookStep)
    requires Capturing(r, c) && IdUsable(step)
    ensures Capturing(r, After(r, c, step))
    ensures step.UserSeen? ==> HasUser(After(r, c, step).events)
  {
    hide Capturing, AddCall, AddResult, EnsureUser, CallEvent, ResultEvent, HasUser, ToolCallId;
    match step
    case ToolStarted(explicit, tool, arguments, at) =>
      AddCallKeeps(r, c, ToolCallId(r, c.events, explicit), ToolName(tool), arguments, at);
    case ToolFinished(explicit, tool, status, output, error, at) =>
      var t := ToolCallId(r, c.events, explicit);
      AddCallKeeps(r, c, t, ToolName(tool), map[], at);
      AddResultKeeps(r, WithCall(r, c, t, tool, map[], at), t, Status(status), ResultContent(output, error), error, at);
    case UserSeen(id, content) =>
      EnsureUserKeeps(r, c, UserEventId(r, id), content);
  }

  lemma {:induction false} AfterAllKeeps(r: string, steps: seq<HookStep>)
    requires forall i :: 0 <= i < |steps| ==> IdUsable(steps[i])
    ensures Capturing(r, AfterAll(r, steps))
    decreases |steps|
  {
    hide Capturing, After, IdUsable;
    if steps == [] {
      NothingCaptured(r);
    } else {
      AfterAllKeeps(r, steps[..|steps| - 1]);
      AfterKeeps(r, AfterAll(r, steps[..|steps| - 1]), steps[|steps| - 1]);
    }
  }

  // ------------------------------------------------------------------- without host ids

  ghost predicate OwnUserId(r: string, ms: seq<Mark>) {
    forall i :: 0 <= i < |ms| && ms[i].User? ==> ms[i].id == r + ":user"
  }

  lemma {:induction false} OwnIdsDiffer(r: string, t: string, u: string)
    ensures CallEventId(r, t) == CallEventId(r, u) ==> t == u
    ensures ResultEventId(r, t) == ResultEventId(r, u) ==> t == u
    ensures CallEventId(r, t) != ResultEventId(r, u)
    ensures CallEventId(r, t) != r + ":user" && ResultEventId(r, t) != r + ":user"
    ensures CallEventId(r, t) != r + ":assistant" && ResultEventId(r, t) != r + ":assistant"
    ensures r + ":user" != r + ":assistant"
  {
    var k := |r| + 1;
    assert CallEventId(r, t)[k] == 'c' && ResultEventId(r, t)[k] == 'r' && ResultEventId(r, u)[k] == 'r';
    assert (r + ":user")[k] == 'u' && (r + ":assistant")[k] == 'a';
    assert CallEventId(r, t)[|r| + 6..] == t && CallEventId(r, u)[|r| + 6..] == u;
    assert ResultEventId(r, t)[|r| + 8..] == t && ResultEventId(r, u)[|r| + 8..] == u;
  }

  /** Ids the hooks make themselves never clash, and leave the answer's id free. */
  lemma {:induction false} OwnIdsAreDistinct(r: string, ms: seq<Mark>)
    requires Tracking(r, ms) && OwnUserId(r, ms)
    ensures DistinctIds(ms) && !UsesId(ms, r + ":assistant")
  {
    hide HasMark, CallEventId, ResultEventId;
    forall i, j | 0 <= i < j < |ms| ensures ms[i].id != ms[j].id {
      if !ms[i].User? && !ms[j].User? {
        OwnIdsDiffer(r, ms[i].callId, ms[j].callId);
        OwnIdsDiffer(r, ms[j].callId, ms[i].callId);
      } else if !ms[i].User? {
        OwnIdsDiffer(r, ms[i].callId, "");
      } else {
        OwnIdsDiffer(r, ms[j].callId, "");
      }
    }
    forall i | 0 <= i < |ms| ensures ms[i].id != r + ":assistant" {
      OwnIdsDiffer(r, if ms[i].User? then "" else ms[i].callId, "");
    }
  }

  /** The ids of a tracked round are distinct exactly when its user message does not carry the
      id of one of its tool events. */
  lemma {:induction false} IdsDistinctIff(r: string, ms: seq<Mark>)
    requires Tracking(r, ms)
    ensures DistinctIds(ms)
       <==> forall u, i :: 0 <= u < |ms| && 0 <= i < |ms| && ms[u].User? && !ms[i].User? ==> ms[u].id != ms[i].id
  {
    hide HasMark, CallEventId, ResultEventId;
    if forall u, i :: 0 <= u < |ms| && 0 <= i < |ms| && ms[u].User? && !ms[i].User? ==> ms[u].id != ms[i].id {
      forall i, j | 0 <= i < j < |ms| ensures ms[i].id != ms[j].id {
        if !ms[i].User? && !ms[j].User? {
          OwnIdsDiffer(r, ms[i].callId, ms[j].callId);
          OwnIdsDiffer(r, ms[j].callId, ms[i].callId);
        }
      }
    }
  }

  lemma {:induction false} SameMarksOwn(r: string, ms: seq<Mark>, after: seq<Mark>)
    requires OwnUserId(r, ms)
    requires forall i ::
      0 <= i < |after| ==> (i < |ms| && after[i] == ms[i]) || !after[i].User? || after[i].id == r + ":user"
    ensures OwnUserId(r, after)
  {
  }

  lemma {:induction false} FinishedOwn(r: string, c: Capture, explicit: string, tool: string, status: string,
                                       output: Json, error: Option<string>, at: string)
    requires Capturing(r, c) && OwnUserId(r, Marks(c.events))
    ensures OwnUserId(r, Marks(After(r, c, ToolFinished(explicit, tool, status, output, error, at)).events))
  {
    hide Shaped, Tracking, CallEvent, ResultEvent, MarkOf, HasResult, ToolCallId, Finished;
    var after := Marks(After(r, c, ToolFinished(explicit, tool, status, output, error, at)).events);
    var t := ToolCallId(r, c.events, explicit);
    var called := WithCall(r, c, t, tool, map[], at);
    CallMark(r, t, ToolName(tool), map[], at);
    SameMarksOwn(r, Marks(c.events), Marks(called.events));
    ResultMark(r, t, Status(status), ResultContent(output, error), error, at);
    if t in called.calls && called.calls[t] < |called.events| {
      FinishedMark(called.events[called.calls[t]], error, at);
    }
    SameMarksOwn(r, Marks(called.events), after);
  }

  lemma {:induction false} AfterOwn(r: string, c: Capture, step: HookStep)
    requires Capturing(r, c) && OwnUserId(r, Marks(c.events)) && !HostIdGiven(step)
    ensures OwnUserId(r, Marks(After(r, c, step).events))
  {
    hide Shaped, Tracking, CallEvent, ResultEvent, MarkOf, UserEvent, HasUser, HasResult, ToolCallId, Finished;
    var after := Marks(After(r, c, step).events);
    match step
    case ToolStarted(explicit, tool, arguments, at) =>
      var t := ToolCallId(r, c.events, explicit);
      CallMark(r, t, ToolName(tool), arguments, at);
      SameMarksOwn(r, Marks(c.events), after);
    case ToolFinished(explicit, tool, status, output, error, at) =>
      FinishedOwn(r, c, explicit, tool, status, output, error, at);
    case UserSeen(id, content) =>
      UserMark(r + ":user", content);
      SameMarksOwn(r, Marks(c.events), after);
  }

  lemma {:induction false} AfterAllOwn(r: string, steps: seq<HookStep>)
    requires forall i :: 0 <= i < |steps| ==> !HostIdGiven(steps[i])
    ensures OwnUserId(r, Marks(AfterAll(r, steps).events))
    decreases |steps|
  {
    hide Capturing, After, OwnUserId;
    if steps == [] {
      OwnNothing(r);
    } else {
      AfterAllKeeps(r, steps[..|steps| - 1]);
      AfterAllOwn(r, steps[..|steps| - 1]);
      AfterOwn(r, AfterAll(r, steps[..|steps| - 1]), steps[|steps| - 1]);
    }
  }

  lemma {:induction false} OwnNothing(r: string)
    ensures OwnUserId(r, Marks([]))
  {
  }

  /** Every sequence of tool and user hooks without host message ids, closed by a reply, gives
      events that obey all rules of a complete round. */
  lemma {:induction false} RepliesObeyTheRules(spec: RoundSpec, steps: seq<HookStep>, user: Json, reply: string,
                                               render: Render)
    requires forall i :: 0 <= i < |steps| ==> !HostIdGiven(steps[i])
    ensures var c := AfterAll(spec.roundId, steps + [UserSeen(None, user)]);
      RoundRules(Views(Normalized(spec, AppendAssistant(c.events, AssistantEventId(spec.roundId, None), reply),
                                  render)))
  {
    hide Capturing, OwnUserId, After, AppendAssistant, HasUser, MarkRules, RoundRules, DistinctIds, UsesId, Normalized;
    var r := spec.roundId;
    var c := Closing(r, steps, user);
    var id := AssistantEventId(r, None);
    TrackingOf(r, c);
    OwnIdsAreDistinct(r, Marks(c.events));
    FreshAnswerObeys(r, c, id, reply);
    AnswerIsShaped(r, c, id, reply);
    RulesByMarks(spec, AppendAssistant(c.events, id, reply), render);
  }

  /** The same, up to acceptance: clean content makes the built request acceptable. */
  lemma {:induction false} RepliesAreAccepted(lib: Library, spec: RoundSpec, steps: seq<HookStep>, user: Json,
                                              reply: string, render: Render)
    requires forall i :: 0 <= i < |steps| ==> !HostIdGiven(steps[i])
    requires AllClean(AfterAll(spec.roundId, steps + [UserSeen(None, user)]).events)
    ensures var c := AfterAll(spec.roundId, steps + [UserSeen(None, user)]);
      Accepts(lib,
              Build(lib, spec, AppendAssistant(c.events, AssistantEventId(spec.roundId, None), reply), render).value)
  {
    hide Capturing, OwnUserId, After, AppendAssistant, HasUser, Accepts, Build, DistinctIds, UsesId, AllClean;
    var r := spec.roundId;
    var c := Closing(r, steps, user);
    TrackingOf(r, c);
    OwnIdsAreDistinct(r, Marks(c.events));
    ReplyAcceptedIff(lib, spec, c, AssistantEventId(r, None), reply, render);
  }

  lemma {:induction false} TrackingOf(r: string, c: Capture)
    requires Capturing(r, c)
    ensures Tracking(r, Marks(c.events))
  {
  }

  /** The capture when the reply arrives. */
  lemma {:induction false} Closing(r: string, steps: seq<HookStep>, user: Json) returns (c: Capture)
    requires forall i :: 0 <= i < |steps| ==> !HostIdGiven(steps[i])
    ensures c == AfterAll(r, steps + [UserSeen(None, user)])
    ensures Capturing(r, c) && OwnUserId(r, Marks(c.events)) && HasUser(c.events)
  {
    hide Capturing, OwnUserId, After, HasUser;
    var all := steps + [UserSeen(None, user)];
    assert all[..|all| - 1] == steps;
    c := AfterAll(r, all);
    AfterAllKeeps(r, steps);
    AfterAllOwn(r, steps);
    AfterKeeps(r, AfterAll(r, steps), UserSeen(None, user));
    AfterOwn(r, AfterAll(r, steps), UserSeen(None, user));
  }
}
