/** What is written to the spool for a round, member by member: the request of a captured round
    and the record of a deferred one, with the references to the context it was given. */
module RoundRecords {
  import opened Options
  import opened JsonValue
  import opened Canonical
  import opened RawRounds
  import opened RoundRequests
  import opened ContextIds

  datatype ContextView = ContextView(requestId: string, valueIds: seq<string>, formatted: string)

  function IdLists(views: seq<ContextView>): (r: seq<seq<string>>)
    ensures |r| == |views|
  {
    seq(|views|, i requires 0 <= i < |views| => views[i].valueIds)
  }

  function Strings(ids: seq<string>): (r: seq<Json>)
    ensures |r| == |ids|
  {
    seq(|ids|, i requires 0 <= i < |ids| => Str(ids[i]))
  }

  /** `_context_extensions`. */
  function ContextFields(requestId: string, ids: seq<string>): Fields {
    if requestId == "" then map[]
    else
      map["ledgermind_context" := Obj(map[
        "schema_version" := Num(1.0),
        "retrieval_request_id" := Str(requestId),
        "delivered_value_ids" := Arr(Strings(FirstHundred(ids)))])]
  }

  /** `_pending_metadata`, and the events that go with a capture. */
  function PendingFields(sessionId: string, roundId: string, turn: string, at: string, events: Option<seq<Fields>>,
                         extensions: Fields): Fields
  {
    var named := map[
      "session_id" := Str(sessionId), "round_id" := Str(roundId),
      "external_turn_id" := if turn == "" then Null else Str(turn), "completed_at" := Str(at)];
    var filled := if events.Some? then named["events" := Arr(AsJson(events.value))] else named;
    if extensions == map[] then filled else filled["extensions" := Obj(extensions)]
  }

  // ------------------------------------------------------------------------------- members

  /** The record refers to the context of these views: to the last request, and to the recorded
      ids; without views it refers to none. */
  predicate CarriesContext(o: Fields, views: seq<ContextView>) {
    if views == [] then "extensions" !in o
    else
      SaysIn(o, "extensions", "ledgermind_context", Obj(map[
        "schema_version" := Num(1.0),
        "retrieval_request_id" := Str(views[|views| - 1].requestId),
        "delivered_value_ids" := Arr(Strings(Recorded(IdLists(views))))]))
  }

  /** A request names its round and when it was completed, and holds its normalised events. */
  predicate RequestOf(o: Fields, sessionId: string, roundId: string, at: string, events: seq<Fields>, render: Render) {
    && SaysIn(o, "source", "session_id", Str(sessionId)) && SaysIn(o, "source", "round_id", Str(roundId))
    && SaysIn(o, "round", "completed_at", Str(at))
    && SaysIn(o, "round", "events", Arr(seq(|events|, i requires 0 <= i < |events| =>
         Obj(NormalizeEvent(events[i], i, roundId, render)))))
  }

  /** A pending record names its round and when it was put off. */
  predicate DeferralOf(o: Fields, sessionId: string, roundId: string, at: string) {
    Says(o, "session_id", Str(sessionId)) && Says(o, "round_id", Str(roundId)) && Says(o, "completed_at", Str(at))
  }

  lemma {:induction false} OneMoreView(views: seq<ContextView>, view: ContextView)
    ensures Recorded(IdLists(views + [view])) == Merge(Recorded(IdLists(views)), view.valueIds)
  {
    var more := IdLists(views + [view]);
    assert more[..|more| - 1] == IdLists(views) && more[|more| - 1] == view.valueIds;
  }

  lemma {:induction false} SourceSays(spec: RoundSpec, events: seq<Fields>)
    requires events != []
    ensures var source := SourceOf(spec, events);
      && Says(source, "system", Str(spec.system)) && Says(source, "instance_id", Str(spec.instanceId))
      && Says(source, "profile_id", Str(spec.profileId)) && Says(source, "session_id", Str(spec.sessionId))
      && Says(source, "round_id", Str(spec.roundId)) && Says(source, "adapter_version", Str(spec.adapterVersion))
      && Says(source, "source_schema_version", Num(spec.sourceSchemaVersion as real))
      && (spec.sourceExtensions != map[] ==> Says(source, "extensions", Obj(spec.sourceExtensions)))
  {
    hide Ids;
  }

  lemma {:induction false} RoundSays(spec: RoundSpec, events: seq<Fields>, render: Render)
    ensures var round := RoundOf(spec, Normalized(spec, events, render));
      && Says(round, "started_at", Str(spec.startedAt)) && Says(round, "completed_at", Str(spec.completedAt))
      && Says(round, "events", Arr(seq(|events|, i requires 0 <= i < |events| =>
           Obj(NormalizeEvent(events[i], i, spec.roundId, render)))))
  {
    hide NormalizeEvent;
    assert AsJson(Normalized(spec, events, render)) == seq(|events|, i requires 0 <= i < |events| =>
         Obj(NormalizeEvent(events[i], i, spec.roundId, render)));
  }

  lemma {:induction false} PayloadSays(spec: RoundSpec, events: seq<Fields>)
    requires events != []
    ensures var o := PayloadOf(spec, events);
      && Says(o, "schema_version", Num(2.0)) && Says(o, "memory_space_id", Str(spec.memorySpaceId))
      && Says(o, "source", Obj(SourceOf(spec, events))) && Says(o, "round", Obj(RoundOf(spec, events)))
      && (if spec.extensions == map[] then "extensions" !in o else Says(o, "extensions", Obj(spec.extensions)))
  {
    hide SourceOf, RoundOf;
  }

  lemma {:induction false} DigestsAdded(lib: Library, payload: Fields, key: string)
    requires CanonicalBody(payload).Ok? && key != "payload_digest" && key != "idempotency_key"
    ensures var o := WithPayloadDigest(lib, payload);
      (key in o <==> key in payload) && (key in payload ==> o[key] == payload[key])
  {
    hide CanonicalBody;
  }

  /** What a built request says of where its round comes from. */
  predicate SourceIs(o: Fields, spec: RoundSpec) {
    && SaysIn(o, "source", "system", Str(spec.system)) && SaysIn(o, "source", "instance_id", Str(spec.instanceId))
    && SaysIn(o, "source", "profile_id", Str(spec.profileId))
    && SaysIn(o, "source", "session_id", Str(spec.sessionId)) && SaysIn(o, "source", "round_id", Str(spec.roundId))
    && SaysIn(o, "source", "adapter_version", Str(spec.adapterVersion))
    && SaysIn(o, "source", "source_schema_version", Num(spec.sourceSchemaVersion as real))
    && (spec.sourceExtensions != map[] ==> SaysIn(o, "source", "extensions", Obj(spec.sourceExtensions)))
  }

  lemma {:induction false} BuiltSource(o: Fields, spec: RoundSpec, events: seq<Fields>)
    requires events != [] && Says(o, "source", Obj(SourceOf(spec, events)))
    ensures SourceIs(o, spec)
  {
    hide SourceOf;
    SourceSays(spec, events);
  }

  /** Every member of a built request, but for the ids and digests that acceptance speaks of. */
  lemma {:induction false} BuiltSays(lib: Library, spec: RoundSpec, events: seq<Fields>, render: Render)
    requires events != []
    ensures var o := Build(lib, spec, events, render).value;
      && RequestOf(o, spec.sessionId, spec.roundId, spec.completedAt, events, render)
      && SourceIs(o, spec)
      && Says(o, "schema_version", Num(2.0)) && Says(o, "memory_space_id", Str(spec.memorySpaceId))
      && SaysIn(o, "round", "started_at", Str(spec.startedAt))
      && (if spec.extensions == map[] then "extensions" !in o else Says(o, "extensions", Obj(spec.extensions)))
  {
    hide NormalizeEvent, CanonicalBody, SourceOf, RoundOf, PayloadOf, WithPayloadDigest, Normalized;
    var normalized := Normalized(spec, events, render);
    var payload := PayloadOf(spec, normalized);
    PayloadHasBody(spec, normalized);
    PayloadSays(spec, normalized);
    DigestsAdded(lib, payload, "schema_version");
    DigestsAdded(lib, payload, "memory_space_id");
    DigestsAdded(lib, payload, "source");
    DigestsAdded(lib, payload, "round");
    DigestsAdded(lib, payload, "extensions");
    var o := Build(lib, spec, events, render).value;
    assert Says(o, "source", Obj(SourceOf(spec, normalized)));
    BuiltSource(o, spec, normalized);
    RoundSays(spec, events, render);
  }

  lemma {:induction false} ContextIsThere(requestId: string, views: seq<ContextView>)
    requires Refers(requestId, views)
    ensures var extensions := ContextFields(requestId, Recorded(IdLists(views)));
      if views == [] then extensions == map[]
      else
        && extensions != map[]
        && Says(extensions, "ledgermind_context", Obj(map[
             "schema_version" := Num(1.0),
             "retrieval_request_id" := Str(views[|views| - 1].requestId),
             "delivered_value_ids" := Arr(Strings(Recorded(IdLists(views))))]))
  {
    hide Recorded, FirstHundred;
    RecordedIsShort(IdLists(views));
    assert requestId != "" ==> "ledgermind_context" in ContextFields(requestId, Recorded(IdLists(views)));
  }

  /** With the context of its views among the extensions, a request carries it. */
  lemma {:induction false} BuiltCarries(lib: Library, spec: RoundSpec, events: seq<Fields>, render: Render,
                                        requestId: string, views: seq<ContextView>)
    requires events != [] && spec.extensions == ContextFields(requestId, Recorded(IdLists(views)))
    requires Refers(requestId, views)
    ensures CarriesContext(Build(lib, spec, events, render).value, views)
  {
    hide Build, RequestOf, Recorded, ContextFields;
    BuiltSays(lib, spec, events, render);
    ContextIsThere(requestId, views);
  }

  lemma {:induction false} PendingCarries(sessionId: string, roundId: string, turn: string, at: string,
                                          events: Option<seq<Fields>>, requestId: string, views: seq<ContextView>)
    requires Refers(requestId, views)
    ensures var o := PendingFields(sessionId, roundId, turn, at, events,
                                   ContextFields(requestId, Recorded(IdLists(views))));
      && CarriesContext(o, views) && DeferralOf(o, sessionId, roundId, at)
      && Says(o, "external_turn_id", if turn == "" then Null else Str(turn))
      && (if events.None? then "events" !in o else Says(o, "events", Arr(AsJson(events.value))))
  {
    hide Recorded, ContextFields, AsJson;
    ContextIsThere(requestId, views);
  }

  /** The request id of the last view; none while there are no views. */
  predicate Refers(requestId: string, views: seq<ContextView>) {
    if views == [] then requestId == "" else requestId == views[|views| - 1].requestId && requestId != ""
  }

  // ------------------------------------------------------------------- what is accepted says

  predicate UserMessage(f: Fields) {
    Says(f, "kind", Str("message")) && Says(f, "role", Str("user"))
  }

  predicate FinalAnswer(f: Fields) {
    Says(f, "kind", Str("message")) && Says(f, "role", Str("assistant")) && Says(f, "final", Bool(true))
  }

  predicate CallOf(f: Fields, t: Json) {
    Says(f, "kind", Str("tool_call")) && Says(f, "tool_call_id", t)
  }

  predicate ResultOf(f: Fields, t: Json) {
    Says(f, "kind", Str("tool_result")) && Says(f, "tool_call_id", t)
  }

  predicate NumberedAs(f: Fields, i: nat) {
    Says(f, "sequence", Num(i as real))
  }

  /** What the rules read of an event is what its members say. */
  ghost predicate SaidBy(f: Fields, v: View) {
    && IsMessage(v, "user") == UserMessage(f) && IsFinalAssistant(v) == FinalAnswer(f)
    && "event_id" in f && v.id == f["event_id"]
    && (forall i: nat :: v.sequence == Num(i as real) ==> NumberedAs(f, i))
    && (IsCall(v) ==> CallOf(f, v.callId)) && (IsResult(v) ==> ResultOf(f, v.callId))
    && (forall t :: CallOf(f, t) ==> IsCall(v) && v.callId == t)
    && (forall t :: ResultOf(f, t) ==> IsResult(v) && v.callId == t)
  }

  lemma {:induction false} ViewSays(f: Fields)
    requires ValidEvent(f)
    ensures SaidBy(f, ViewOf(f))
  {
    hide ValidPart;
  }

  /** The rules, over the members of the events: ids are distinct, events are numbered in order,
      one is the user's and exactly one the final answer, no two calls have one id, and every
      result names a call. */
  lemma {:induction false} RulesSay(events: seq<Fields>)
    requires AllValid(events) && RoundRules(Views(events))
    ensures forall i :: 0 <= i < |events| ==> "event_id" in events[i] && NumberedAs(events[i], i)
    ensures forall i, j :: 0 <= i < j < |events| ==> events[i]["event_id"] != events[j]["event_id"]
    ensures exists i :: 0 <= i < |events| && UserMessage(events[i])
    ensures exists i :: 0 <= i < |events| && FinalAnswer(events[i])
    ensures forall i, j :: 0 <= i < j < |events| ==> !(FinalAnswer(events[i]) && FinalAnswer(events[j]))
    ensures forall i, j, t :: 0 <= i < j < |events| ==> !(CallOf(events[i], t) && CallOf(events[j], t))
    ensures forall i, t :: 0 <= i < |events| && ResultOf(events[i], t) ==>
      exists j :: 0 <= j < |events| && CallOf(events[j], t)
  {
    hide ValidEvent, UserMessage, FinalAnswer, CallOf, ResultOf, NumberedAs, IsMessage, IsFinalAssistant, IsCall,
         IsResult, ViewOf;
    var vs := Views(events);
    forall i | 0 <= i < |events| ensures SaidBy(events[i], vs[i]) {
      ViewSays(events[i]);
    }
    forall i, t | 0 <= i < |events| && ResultOf(events[i], t)
      ensures exists j :: 0 <= j < |events| && CallOf(events[j], t)
    {
      assert SaidBy(events[i], vs[i]);
      var j :| 0 <= j < |vs| && IsCall(vs[j]) && vs[j].callId == vs[i].callId;
      assert SaidBy(events[j], vs[j]) && CallOf(events[j], t);
    }
    var u :| 0 <= u < |vs| && IsMessage(vs[u], "user");
    var a :| 0 <= a < |vs| && IsFinalAssistant(vs[a]);
    assert SaidBy(events[u], vs[u]) && SaidBy(events[a], vs[a]);
    forall i, j | 0 <= i < j < |events|
      ensures "event_id" in events[i] && "event_id" in events[j] && events[i]["event_id"] != events[j]["event_id"]
      ensures !(FinalAnswer(events[i]) && FinalAnswer(events[j]))
      ensures forall t :: !(CallOf(events[i], t) && CallOf(events[j], t))
    {
      assert SaidBy(events[i], vs[i]) && SaidBy(events[j], vs[j]);
    }
  }

  /** An accepted request says: its events, which obey the rules; their ids, with the first and the
      last, in its source; and twice the digest of what it serialises. */
  lemma {:induction false} AcceptedSays(lib: Library, o: Fields) returns (events: seq<Fields>)
    requires Accepts(lib, o)
    ensures events != [] && SaysIn(o, "round", "events", Arr(AsJson(events)))
    ensures AllValid(events) && RoundRules(Views(events))
    ensures SaysIn(o, "source", "event_ids",
                   Arr(seq(|events|, i requires 0 <= i < |events| => Get(events[i], "event_id"))))
    ensures SaysIn(o, "source", "first_event_id", Get(events[0], "event_id"))
    ensures SaysIn(o, "source", "final_event_id", Get(events[|events| - 1], "event_id"))
    ensures CanonicalBody(Dumped(o)).Ok? && forall key :: key in ["payload_digest", "idempotency_key"] ==>
      Says(o, key, Str(lib.bodyDigest(CanonicalBody(Dumped(o)).value)))
  {
    hide CanonicalBody, Dumped, ValidEvent, RoundRules, Views;
    events := FieldsOf(EventsOf(o));
    assert AsJson(events) == EventsOf(o);
    assert Ids(events) == seq(|events|, i requires 0 <= i < |events| => Get(events[i], "event_id"));
    assert Get(events[0], "event_id") != Null && Get(events[|events| - 1], "event_id") != Null by {
      assert ValidEvent(events[0]) && ValidEvent(events[|events| - 1]);
      HasId(events[0]);
      HasId(events[|events| - 1]);
    }
  }

  lemma {:induction false} HasId(f: Fields)
    requires ValidEvent(f)
    ensures Get(f, "event_id").Str?
  {
  }
}
