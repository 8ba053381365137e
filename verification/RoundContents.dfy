/** What was said and done in a round is what its request says: the content of an event, from the
    hook that captured it to the request, member by member. */
module RoundContents {
  import opened Options
  import opened JsonValue
  import opened Canonical
  import opened Decimals
  import opened RawRounds
  import opened RoundRequests
  import opened RoundRecords
  import opened HermesEvents
  import opened HermesSteps

  /** A part that is sent as it is. */
  predicate Presentable(j: Json) {
    && j.Obj? && (forall k :: k in j.fields ==> k in ["type", "text", "data", "uri"])
    && "type" in j.fields
    && (|| (j.fields["type"] == Str("text") && "text" in j.fields && j.fields["text"].Str?)
        || (j.fields["type"] == Str("json") && "data" in j.fields && j.fields["data"] != Null)
        || (j.fields["type"] == Str("reference") && "uri" in j.fields && j.fields["uri"].Str?))
  }

  /** How content is presented: nothing as no part, a text as one text part, a list of parts as it
      is, and anything else as one part of data. */
  predicate Presents(value: Json, parts: seq<Json>) {
    if value == Null then parts == []
    else if value.Str? then parts == [Obj(map["type" := Str("text"), "text" := Str(value.s)])]
    else if value.Arr? && forall i :: 0 <= i < |value.items| ==> Presentable(value.items[i]) then parts == value.items
    else parts == [Obj(map["type" := Str("json"), "data" := value])]
  }

  lemma {:induction false} ContentPresents(value: Json)
    ensures Presents(value, Content(value))
  {
    forall j ensures Presentable(j) <==> IsCanonicalPart(j) {
    }
  }

  /** A normalised event says what the event said, its content as presented; without an id it is
      called after its round and place. */
  lemma {:induction false} NormalizedSays(event: Fields, sequence: nat, roundId: string, render: Render)
    ensures var f := NormalizeEvent(event, sequence, roundId, render);
      && Says(f, "sequence", Num(sequence as real))
      && "content" in f && f["content"].Arr?
      && Presents(if "content" in event then event["content"]
                  else if "api_content" in event then event["api_content"] else Null, f["content"].items)
      && (forall kind :: kind in ["message", "tool_call", "tool_result"] && Says(event, "kind", Str(kind)) ==>
            Says(f, "kind", Str(kind)))
      && ("kind" !in event ==> Says(f, "kind", Str("message")))
      && (forall id :: Says(event, "event_id", Str(id)) && id != "" ==> Says(f, "event_id", Str(id)))
      && (forall id :: "event_id" !in event && Says(event, "id", Str(id)) && id != "" ==> Says(f, "event_id", Str(id)))
      && ("event_id" !in event && "id" !in event ==> Says(f, "event_id", Str(roundId + ":" + Decimal(sequence))))
      && (Says(f, "final", Bool(true)) || Says(f, "final", Bool(false)))
      && (Says(event, "final", Bool(true)) ==> Says(f, "final", Bool(true)))
      && ("final" !in event ==> Says(f, "final", Bool(false)))
  {
    hide Content, NormalizeEvent, Presents;
    NormalizedCore(event, sequence, roundId, render);
    ContentPresents(Either(event, "content", "api_content"));
  }

  /** Role, call, tool, arguments and status stand in a normalised event where they were given; a
      call without arguments has empty ones, and a result without a status an unknown one. */
  lemma {:induction false} NormalizedKeeps(event: Fields, sequence: nat, roundId: string, render: Render)
    ensures var f := NormalizeEvent(event, sequence, roundId, render);
      && (forall key :: key in ["role", "tool_call_id", "tool_name", "arguments", "status"] ==>
            (key in event && event[key] != Null ==> Says(f, key, event[key])))
      && (forall key :: key in ["role", "tool_call_id", "tool_name"] && key in f ==> Says(event, key, f[key]))
      && (Says(f, "kind", Str("tool_call")) && ("arguments" in event ==> event["arguments"] == Null) ==>
            Says(f, "arguments", Obj(map[])))
      && (Says(f, "kind", Str("tool_result")) && ("status" in event ==> event["status"] == Null) ==>
            Says(f, "status", Str("unknown")))
  {
    hide Content, NormalizeEvent, KindOf, EventId, Truthy;
    NormalizedCore(event, sequence, roundId, render);
    NormalizedCopy(event, sequence, roundId, render, "role");
    NormalizedCopy(event, sequence, roundId, render, "tool_call_id");
    NormalizedCopy(event, sequence, roundId, render, "tool_name");
    NormalizedArguments(event, sequence, roundId, render);
    NormalizedDefaults(event, sequence, roundId, render);
  }

  lemma {:induction false} NormalizedArguments(event: Fields, sequence: nat, roundId: string, render: Render)
    ensures Get(NormalizeEvent(event, sequence, roundId, render), "arguments")
         == (if Get(event, "arguments") != Null then event["arguments"]
             else if KindOf(event, render) == Str("tool_call") then Obj(map[]) else Null)
  {
    hide EventId, KindOf, Content, Truthy, KeepAll;
    var core := EventCore(event, sequence, roundId, render);
    KeptMember(event, core, OPTIONAL_KEYS, "arguments");
    KeptMember(event, core, OPTIONAL_KEYS, "kind");
  }

  // -------------------------------------------------------------------------------- hooks

  /** A tool call hook that finds no call of its id adds this event. */
  lemma {:induction false} StartedSays(r: string, c: Capture, explicit: string, tool: string, arguments: Fields,
                                       at: string)
    ensures var t, after := ToolCallId(r, c.events, explicit), After(r, c, ToolStarted(explicit, tool, arguments, at));
      if t in c.calls then after == c
      else
        && |after.events| == |c.events| + 1 && after.events[..|c.events|] == c.events
        && after.events[|c.events|] == map[
             "event_id" := Str(r + ":call:" + t), "kind" := Str("tool_call"), "tool_call_id" := Str(t),
             "tool_name" := Str(if tool == "" then "unknown" else tool), "arguments" := Obj(arguments),
             "started_at" := Str(at)]
  {
    hide ToolCallId;
  }

  /** What is shown of a tool's result: the error when there is nothing else to show. */
  predicate Shows(content: Json, output: Json, error: Option<string>) {
    var empty := output in [Null, Bool(false), Num(0.0), Str(""), Arr([]), Obj(map[])];
    content == if empty && error.Some? then Str(error.value) else if output == Null then Str("") else output
  }

  /** The status, when it is a known one. */
  predicate Reports(status: Json, given: string) {
    if given in ["success", "error", "cancelled", "unknown"] then status == Str(given) else status == Str("unknown")
  }

  /** The event of a result. */
  ghost predicate ResultSays(e: Fields, r: string, t: string, status: string, output: Json, error: Option<string>,
                             at: string)
  {
    && e.Keys == {"event_id", "kind", "tool_call_id", "status", "content", "completed_at"}
                 + (if error.Some? then {"error"} else {})
    && Says(e, "event_id", Str(r + ":result:" + t)) && Says(e, "kind", Str("tool_result"))
    && Says(e, "tool_call_id", Str(t)) && Reports(e["status"], status) && Shows(e["content"], output, error)
    && Says(e, "completed_at", Str(at)) && (error.Some? ==> Says(e, "error", Str(error.value)))
  }

  lemma {:induction false} ResultEventSays(r: string, t: string, status: string, output: Json, error: Option<string>,
                                           at: string)
    ensures ResultSays(ResultEvent(r, t, Status(status), ResultContent(output, error), error, at), r, t, status, output,
                       error, at)
  {
    hide Truthy;
    TruthyIff(output);
  }

  /** The call's event with its end noted, and the error if there was one. */
  ghost predicate CallEnded(before: Fields, after: Fields, error: Option<string>, at: string) {
    && (forall key :: key != "completed_at" && key != "error" ==>
          (key in after <==> key in before) && (key in before ==> after[key] == before[key]))
    && Says(after, "completed_at", Str(at))
    && (if error.Some? then Says(after, "error", Str(error.value))
        else ("error" in after <==> "error" in before) && ("error" in before ==> after["error"] == before["error"]))
  }

  /** A tool result hook that finds no result of its id adds its event last, after a call that it
      adds when there is none, and notes the end in the event the call's id points to; every other
      event is as it was. */
  lemma {:induction false} FinishedSays(r: string, c: Capture, explicit: string, tool: string, status: string,
                                        output: Json, error: Option<string>, at: string)
    requires Capturing(r, c)
    ensures var t := ToolCallId(r, c.events, explicit);
      var after := After(r, c, ToolFinished(explicit, tool, status, output, error, at));
      !HasResult(c.events, t) ==>
        && |after.events| == |c.events| + (if t in c.calls then 1 else 2)
        && ResultSays(after.events[|after.events| - 1], r, t, status, output, error, at)
        && var k := if t in c.calls then c.calls[t] else |c.events|;
           && k < |after.events| - 1 && (forall i :: 0 <= i < |c.events| && i != k ==> after.events[i] == c.events[i])
           && CallEnded(if t in c.calls then c.events[k] else CallEvent(r, t, ToolName(tool), map[], at),
                        after.events[k], error, at)
  {
    hide ToolCallId, HasResult, Capturing, CallEvent, ResultEvent, Finished, ResultSays, CallEnded;
    var t := ToolCallId(r, c.events, explicit);
    ResultEventSays(r, t, status, output, error, at);
    FinishedEnds(if t in c.calls && c.calls[t] < |c.events| then c.events[c.calls[t]]
                 else CallEvent(r, t, ToolName(tool), map[], at), error, at);
    if t !in c.calls {
      CallIsNoResult(r, t, tool, at);
      AddedIsNoResult(c.events, CallEvent(r, t, ToolName(tool), map[], at), t);
    } else {
      CallIndexed(r, c, t);
    }
  }

  lemma {:induction false} FinishedEnds(before: Fields, error: Option<string>, at: string)
    ensures CallEnded(before, Finished(before, error, at), error, at)
  {
  }

  /** An answer under a new id is added last; under an id in use it makes the first event of that
      id a final assistant message with its text, and every other event is as it was. */
  lemma {:induction false} AnswerSays(events: seq<Fields>, id: string, reply: string)
    ensures var after := AppendAssistant(events, id, reply);
      if forall i :: 0 <= i < |events| ==> !Says(events[i], "event_id", Str(id)) then
        after == events + [map["event_id" := Str(id), "kind" := Str("message"), "role" := Str("assistant"),
                               "final" := Bool(true), "content" := Str(reply)]]
      else
        |after| == |events| && exists k ::
          && 0 <= k < |events| && Says(events[k], "event_id", Str(id))
          && (forall i :: 0 <= i < k ==> !Says(events[i], "event_id", Str(id)))
          && (forall i :: 0 <= i < |events| && i != k ==> after[i] == events[i])
          && after[k] == events[k]["role" := Str("assistant")]["final" := Bool(true)]["content" := Str(reply)]
  {
    var k := IndexOfId(events, id);
    assert forall i :: 0 <= i < |events| ==> (Says(events[i], "event_id", Str(id)) <==>
      Get(events[i], "event_id") == Str(id));
    assert k < |events| ==> Says(events[k], "event_id", Str(id));
  }

  lemma {:induction false} CallIsNoResult(r: string, t: string, tool: string, at: string)
    ensures Get(CallEvent(r, t, ToolName(tool), map[], at), "kind") != Str("tool_result")
  {
  }

  lemma {:induction false} TruthyIff(j: Json)
    ensures Truthy(j) <==> j !in [Null, Bool(false), Num(0.0), Str(""), Arr([]), Obj(map[])]
  {
  }

  lemma {:induction false} CallIndexed(r: string, c: Capture, t: string)
    requires Capturing(r, c) && t in c.calls
    ensures c.calls[t] < |c.events|
  {
  }

  lemma {:induction false} AddedIsNoResult(events: seq<Fields>, e: Fields, t: string)
    requires Get(e, "kind") != Str("tool_result")
    ensures HasResult(events + [e], t) == HasResult(events, t)
  {
    if HasResult(events, t) {
      var i :| 0 <= i < |events| && Get(events[i], "kind") == Str("tool_result")
               && Get(events[i], "tool_call_id") == Str(t);
      assert (events + [e])[i] == events[i];
    }
  }

  /** The first user message of a round is added as it was given. */
  lemma {:induction false} UserSays(r: string, c: Capture, id: Option<string>, content: Json)
    ensures var after := After(r, c, UserSeen(id, content));
      if HasUser(c.events) then after == c
      else after == c.(events := c.events + [map[
        "event_id" := Str(if id.Some? then id.value else r + ":user"), "kind" := Str("message"), "role" := Str("user"),
        "content" := if content == Null then Str("") else content]])
  {
    hide HasUser;
  }

  /** The `k`-th event of the request is this message. */
  predicate Message(o: Fields, k: nat, id: string, role: string, text: string, final: bool) {
    && "round" in o && o["round"].Obj? && "events" in o["round"].fields && o["round"].fields["events"].Arr?
    && var events := o["round"].fields["events"].items;
      && k < |events| && events[k].Obj?
      && Says(events[k].fields, "event_id", Str(id)) && Says(events[k].fields, "kind", Str("message"))
      && Says(events[k].fields, "role", Str(role)) && Says(events[k].fields, "final", Bool(final))
      && Says(events[k].fields, "content", Arr([Obj(map["type" := Str("text"), "text" := Str(text)])]))
  }

  /** A message that was captured stands in the request, in its place and with its text. */
  lemma {:induction false} RequestHolds(lib: Library, spec: RoundSpec, events: seq<Fields>, k: nat, id: string,
                                        role: string, text: string, final: bool, render: Render)
    requires k < |events| && id != "" && Says(events[k], "event_id", Str(id))
    requires Says(events[k], "kind", Str("message")) && Says(events[k], "role", Str(role))
    requires Says(events[k], "content", Str(text))
    requires if final then Says(events[k], "final", Bool(true)) else "final" !in events[k]
    ensures Message(Build(lib, spec, events, render).value, k, id, role, text, final)
  {
    hide NormalizeEvent, Build;
    EventInPlace(lib, spec, events, k, render);
    NormalizedSays(events[k], k, spec.roundId, render);
    NormalizedKeeps(events[k], k, spec.roundId, render);
    assert "role" in ["role", "tool_call_id", "tool_name", "arguments", "status"] by {
      assert ["role", "tool_call_id", "tool_name", "arguments", "status"][0] == "role";
    }
    assert "message" in ["message", "tool_call", "tool_result"] by {
      assert ["message", "tool_call", "tool_result"][0] == "message";
    }
  }

  lemma {:induction false} EventInPlace(lib: Library, spec: RoundSpec, events: seq<Fields>, k: nat, render: Render)
    requires k < |events|
    ensures var o := Build(lib, spec, events, render).value;
      && "round" in o && o["round"].Obj? && "events" in o["round"].fields && o["round"].fields["events"].Arr?
      && |o["round"].fields["events"].items| == |events|
      && o["round"].fields["events"].items[k] == Obj(NormalizeEvent(events[k], k, spec.roundId, render))
  {
    hide NormalizeEvent, Build;
    BuiltSays(lib, spec, events, render);
  }

  /** A request whose round was closed by an answer under an id of its own holds the answer's text
      as its last and final message, and the text of a prompt captured before it. */
  lemma {:induction false} RequestHoldsWords(lib: Library, spec: RoundSpec, events: seq<Fields>, k: nat, user: string,
                                             prompt: string, id: string, reply: string, render: Render)
    requires id != "" && forall i :: 0 <= i < |events| ==> Get(events[i], "event_id") != Str(id)
    requires k < |events| && user != ""
    requires events[k] == map["event_id" := Str(user), "kind" := Str("message"), "role" := Str("user"),
                              "content" := Str(prompt)]
    ensures var o := Build(lib, spec, AppendAssistant(events, id, reply), render).value;
      Message(o, |events|, id, "assistant", reply, true) && Message(o, k, user, "user", prompt, false)
  {
    hide Build, Message;
    var all := AppendAssistant(events, id, reply);
    assert all == events + [AssistantEvent(id, reply)];
    assert all[|events|] == AssistantEvent(id, reply) && all[k] == events[k];
    RequestHolds(lib, spec, all, |events|, id, "assistant", reply, true, render);
    RequestHolds(lib, spec, all, k, user, "user", prompt, false, render);
  }
}
