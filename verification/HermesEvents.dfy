/** The event dictionaries the Hermes hooks build, what the hooks do to the list of them, and
    why a closed round's list obeys the round rules. */
module HermesEvents {
  import opened Options
  import opened JsonValue
  import opened RawRounds
  import opened RoundRequests

  function CallEventId(r: string, t: string): string {
    r + ":call:" + t
  }

  function ResultEventId(r: string, t: string): string {
    r + ":result:" + t
  }

  function CallEvent(r: string, t: string, tool: string, arguments: Fields, at: string): Fields {
    map["event_id" := Str(CallEventId(r, t)), "kind" := Str("tool_call"), "tool_call_id" := Str(t),
        "tool_name" := Str(tool), "arguments" := Obj(arguments), "started_at" := Str(at)]
  }

  function ResultEvent(r: string, t: string, status: string, content: Json, error: Option<string>, at: string): Fields {
    var event: Fields := map[
      "event_id" := Str(ResultEventId(r, t)), "kind" := Str("tool_result"), "tool_call_id" := Str(t),
      "status" := Str(status), "content" := content, "completed_at" := Str(at)];
    if error.Some? then event["error" := Str(error.value)] else event
  }

  function UserEvent(id: string, content: Json): Fields {
    map["event_id" := Str(id), "kind" := Str("message"), "role" := Str("user"),
        "content" := if content == Null then Str("") else content]
  }

  function AssistantEvent(id: string, content: string): Fields {
    map["event_id" := Str(id), "kind" := Str("message"), "role" := Str("assistant"), "final" := Bool(true),
        "content" := Str(content)]
  }

  /** `event.update(...)` when an event with the assistant's id is already there. */
  function Answered(event: Fields, content: string): Fields {
    event["role" := Str("assistant")]["final" := Bool(true)]["content" := Str(content)]
  }

  /** A call event once its result is known. */
  function Finished(event: Fields, error: Option<string>, at: string): Fields {
    var done := event["completed_at" := Str(at)];
    if error.Some? then done["error" := Str(error.value)] else done
  }

  // -------------------------------------------------------------------------------- marks

  /** What the rules see of one captured event. */
  datatype Mark =
    | Call(id: string, callId: string)
    | Result(id: string, callId: string)
    | User(id: string)
    | Final(id: string)
    | Odd(id: string)

  function TextOf(j: Json): string {
    if j.Str? then j.s else ""
  }

  function MarkOf(f: Fields): Mark {
    var id, kind, role := TextOf(Get(f, "event_id")), Get(f, "kind"), Get(f, "role");
    if kind == Str("tool_call") && role == Null then Call(id, TextOf(Get(f, "tool_call_id")))
    else if kind == Str("tool_result") && role == Null then Result(id, TextOf(Get(f, "tool_call_id")))
    else if kind == Str("message") && role == Str("user") then User(id)
    else if kind == Str("message") && role == Str("assistant") && Truthy(Get(f, "final")) then Final(id)
    else Odd(id)
  }

  function Marks(events: seq<Fields>): (r: seq<Mark>)
    ensures |r| == |events|
  {
    seq(|events|, i requires 0 <= i < |events| => MarkOf(events[i]))
  }

  /** An event one of the hooks made: typed members, none missing, no stray ones. */
  predicate Shaped(f: Fields) {
    && Get(f, "event_id").Str? && Get(f, "event_id").s != ""
    && Get(f, "kind") in KINDS
    && (|| Get(f, "role") == Null
        || (Get(f, "kind") == Str("message") && Get(f, "role") in {Str("user"), Str("assistant"), Str("system")}))
    && (Get(f, "kind") == Str("message") ==>
          && Get(f, "role") != Null && Get(f, "tool_call_id") == Null && Get(f, "tool_name") == Null
          && Get(f, "arguments") == Null && Get(f, "status") == Null
          && (Get(f, "role") == Str("user") ==> Get(f, "final") == Null))
    && (Get(f, "kind") == Str("tool_call") ==>
          && Get(f, "tool_call_id").Str? && Get(f, "tool_call_id").s != ""
          && Get(f, "tool_name").Str? && Get(f, "tool_name").s != "" && Get(f, "status") == Null
          && Get(f, "final") == Null)
    && (Get(f, "kind") == Str("tool_result") ==>
          && Get(f, "tool_call_id").Str? && Get(f, "tool_call_id").s != ""
          && NullOrText(Get(f, "tool_name")) && Optional(Get(f, "status"), {"success", "error", "cancelled", "unknown"})
          && Get(f, "final") == Null)
  }

  lemma {:induction false} CallMark(r: string, t: string, tool: string, arguments: Fields, at: string)
    requires t != "" && tool != ""
    ensures var f := CallEvent(r, t, tool, arguments, at); MarkOf(f) == Call(CallEventId(r, t), t) && Shaped(f)
  {
  }

  lemma {:induction false} ResultMark(r: string, t: string, status: string, content: Json, error: Option<string>,
                                      at: string)
    requires t != "" && status in {"success", "error", "cancelled", "unknown"}
    ensures var f := ResultEvent(r, t, status, content, error, at);
      MarkOf(f) == Result(ResultEventId(r, t), t) && Shaped(f)
  {
  }

  lemma {:induction false} UserMark(id: string, content: Json)
    requires id != ""
    ensures MarkOf(UserEvent(id, content)) == User(id) && Shaped(UserEvent(id, content))
  {
  }

  lemma {:induction false} FinalMark(id: string, content: string)
    requires id != ""
    ensures MarkOf(AssistantEvent(id, content)) == Final(id) && Shaped(AssistantEvent(id, content))
  {
  }

  lemma {:induction false} AnsweredMark(f: Fields, content: string)
    ensures MarkOf(Answered(f, content))
         == if Get(f, "kind") == Str("message") then Final(MarkOf(f).id) else Odd(MarkOf(f).id)
  {
  }

  lemma {:induction false} FinishedMark(f: Fields, error: Option<string>, at: string)
    ensures MarkOf(Finished(f, error, at)) == MarkOf(f) && Shaped(Finished(f, error, at)) == Shaped(f)
  {
  }

  // ---------------------------------------------------------------------- what hooks do

  predicate HasUser(events: seq<Fields>) {
    exists i :: 0 <= i < |events| && Get(events[i], "kind") == Str("message") && Get(events[i], "role") == Str("user")
  }

  predicate HasFinal(events: seq<Fields>) {
    exists i :: 0 <= i < |events| && Truthy(Get(events[i], "final"))
  }

  predicate HasResult(events: seq<Fields>, t: string) {
    exists i ::
      0 <= i < |events| && Get(events[i], "kind") == Str("tool_result") && Get(events[i], "tool_call_id") == Str(t)
  }

  /** `tool_calls_by_id`: which captured event each call id points to. */
  type Calls = map<string, nat>

  datatype Capture = Capture(events: seq<Fields>, calls: Calls)

  function AddCall(c: Capture, event: Fields, t: string): Capture {
    if t in c.calls then c else Capture(c.events + [event], c.calls[t := |c.events|])
  }

  function AddResult(c: Capture, event: Fields, t: string, error: Option<string>, at: string): Capture {
    if HasResult(c.events, t) || t !in c.calls || c.calls[t] >= |c.events| then c
    else
      var k := c.calls[t];
      c.(events := (c.events + [event])[k := Finished(c.events[k], error, at)])
  }

  function EnsureUser(events: seq<Fields>, id: string, content: Json): seq<Fields> {
    if HasUser(events) then events else events + [UserEvent(id, content)]
  }

  /** Position of the first event with this id, or the number of events. */
  function IndexOfId(events: seq<Fields>, id: string): (k: nat)
    ensures k <= |events|
    ensures k < |events| ==> Get(events[k], "event_id") == Str(id)
    ensures forall i :: 0 <= i < k ==> Get(events[i], "event_id") != Str(id)
    decreases |events|
  {
    if events == [] then 0
    else if Get(events[0], "event_id") == Str(id) then 0
    else 1 + IndexOfId(events[1..], id)
  }

  function AppendAssistant(events: seq<Fields>, id: string, content: string): seq<Fields> {
    var k := IndexOfId(events, id);
    if k < |events| then events[k := Answered(events[k], content)] else events + [AssistantEvent(id, content)]
  }

  // ----------------------------------------------------------------------- the invariant

  predicate HasMark(ms: seq<Mark>, m: Mark) {
    exists i :: 0 <= i < |ms| && ms[i] == m
  }

  /** What holds of the marks of a round `r` that is still active. */
  ghost predicate Tracking(r: string, ms: seq<Mark>) {
    && (forall i :: 0 <= i < |ms| ==> ms[i].Call? || ms[i].Result? || ms[i].User?)
    && (forall i :: 0 <= i < |ms| && ms[i].Call? ==> ms[i].id == CallEventId(r, ms[i].callId))
    && (forall i :: 0 <= i < |ms| && ms[i].Result? ==>
          ms[i].id == ResultEventId(r, ms[i].callId) && HasMark(ms, Call(CallEventId(r, ms[i].callId), ms[i].callId)))
    && (forall i, j :: 0 <= i < j < |ms| && ms[i].Call? && ms[j].Call? ==> ms[i].callId != ms[j].callId)
    && (forall i, j :: 0 <= i < j < |ms| && ms[i].Result? && ms[j].Result? ==> ms[i].callId != ms[j].callId)
    && (forall i, j :: 0 <= i < j < |ms| ==> !(ms[i].User? && ms[j].User?))
  }

  /** The capture of an active round: hook-made events, tracked, and an index of its calls. */
  ghost predicate Capturing(r: string, c: Capture) {
    && (forall i :: 0 <= i < |c.events| ==> Shaped(c.events[i]))
    && Tracking(r, Marks(c.events))
    && (forall t :: t in c.calls ==>
          c.calls[t] < |c.events| && MarkOf(c.events[c.calls[t]]) == Call(CallEventId(r, t), t))
    && (forall i :: 0 <= i < |c.events| && MarkOf(c.events[i]).Call? ==> MarkOf(c.events[i]).callId in c.calls)
  }

  lemma {:induction false} NothingCaptured(r: string)
    ensures Capturing(r, Capture([], map[]))
  {
  }

  lemma {:induction false} MarksAppend(events: seq<Fields>, f: Fields)
    ensures Marks(events + [f]) == Marks(events) + [MarkOf(f)]
  {
  }

  lemma {:induction false} HasMarkGrows(ms: seq<Mark>, m: Mark, x: Mark)
    requires HasMark(ms, x)
    ensures HasMark(ms + [m], x)
  {
    var i :| 0 <= i < |ms| && ms[i] == x;
    assert (ms + [m])[i] == x;
  }

  /** The two marks cannot stand in one round. */
  predicate Clash(a: Mark, b: Mark) {
    || (a.Call? && b.Call? && a.callId == b.callId)
    || (a.Result? && b.Result? && a.callId == b.callId)
    || (a.User? && b.User?)
  }

  /** Adding a mark that clashes with none there. */
  lemma {:induction false} TrackOneMore(r: string, ms: seq<Mark>, m: Mark)
    requires Tracking(r, ms)
    requires m.Call? ==> m.id == CallEventId(r, m.callId)
    requires m.Result? ==> m.id == ResultEventId(r, m.callId) && HasMark(ms, Call(CallEventId(r, m.callId), m.callId))
    requires forall i :: 0 <= i < |ms| ==> !Clash(ms[i], m)
    requires m.Call? || m.Result? || m.User?
    ensures Tracking(r, ms + [m])
  {
    var after := ms + [m];
    forall i | 0 <= i < |after| && after[i].Result?
      ensures HasMark(after, Call(CallEventId(r, after[i].callId), after[i].callId))
    {
      HasMarkGrows(ms, m, Call(CallEventId(r, after[i].callId), after[i].callId));
    }
  }

  lemma {:induction false} AddCallKeeps(r: string, c: Capture, t: string, tool: string, arguments: Fields, at: string)
    requires Capturing(r, c) && t != "" && tool != ""
    ensures Capturing(r, AddCall(c, CallEvent(r, t, tool, arguments, at), t))
    ensures t in AddCall(c, CallEvent(r, t, tool, arguments, at), t).calls
  {
    hide MarkOf, Shaped, CallEvent, HasMark;
    if t !in c.calls {
      var event := CallEvent(r, t, tool, arguments, at);
      CallMark(r, t, tool, arguments, at);
      MarksAppend(c.events, event);
      TrackOneMore(r, Marks(c.events), MarkOf(event));
    }
  }

  lemma {:induction false} ResultByMark(events: seq<Fields>, t: string)
    requires forall i :: 0 <= i < |events| ==> Shaped(events[i])
    ensures HasResult(events, t)
       <==> exists i :: 0 <= i < |events| && MarkOf(events[i]).Result? && MarkOf(events[i]).callId == t
  {
    forall i | 0 <= i < |events|
      ensures (Get(events[i], "kind") == Str("tool_result") && Get(events[i], "tool_call_id") == Str(t))
         <==> (MarkOf(events[i]).Result? && MarkOf(events[i]).callId == t)
    {
      assert Shaped(events[i]);
    }
  }

  lemma {:induction false} UserByMark(events: seq<Fields>)
    ensures HasUser(events) <==> exists i :: 0 <= i < |events| && MarkOf(events[i]).User?
  {
  }

  lemma {:induction false} AddResultKeeps(r: string, c: Capture, t: string, status: string, content: Json,
                                          error: Option<string>, at: string)
    requires Capturing(r, c) && t in c.calls && status in {"success", "error", "cancelled", "unknown"} && t != ""
    ensures Capturing(r, AddResult(c, ResultEvent(r, t, status, content, error, at), t, error, at))
  {
    hide MarkOf, Shaped, ResultEvent, HasResult, Finished, HasMark;
    var event := ResultEvent(r, t, status, content, error, at);
    ResultByMark(c.events, t);
    if !HasResult(c.events, t) {
      var k := c.calls[t];
      var mid := c.events + [event];
      var after := mid[k := Finished(c.events[k], error, at)];
      ResultMark(r, t, status, content, error, at);
      MarksAppend(c.events, event);
      FinishedMark(c.events[k], error, at);
      assert HasMark(Marks(c.events), Call(CallEventId(r, t), t)) by {
        MarkIsThere(c.events, k);
      }
      TrackOneMore(r, Marks(c.events), MarkOf(event));
      assert Marks(after) == Marks(mid);
    }
  }

  lemma {:induction false} MarkIsThere(events: seq<Fields>, k: nat)
    requires k < |events|
    ensures HasMark(Marks(events), MarkOf(events[k]))
  {
    assert Marks(events)[k] == MarkOf(events[k]);
  }

  lemma {:induction false} EnsureUserKeeps(r: string, c: Capture, id: string, content: Json)
    requires Capturing(r, c) && id != ""
    ensures Capturing(r, c.(events := EnsureUser(c.events, id, content)))
    ensures HasUser(EnsureUser(c.events, id, content))
  {
    hide MarkOf, Shaped, UserEvent, HasUser, HasMark;
    var event := UserEvent(id, content);
    UserByMark(c.events);
    if !HasUser(c.events) {
      UserMark(id, content);
      MarksAppend(c.events, event);
      TrackOneMore(r, Marks(c.events), MarkOf(event));
      assert MarkOf((c.events + [event])[|c.events|]).User?;
      UserByMark(c.events + [event]);
    }
  }
}
