/** `build_raw_round` and the checks of a complete `RawRoundRequest`. */
module RoundRequests {
  import opened Options
  import opened JsonValue
  import opened Canonical
  import opened RawRounds

  /** Everything of a round but its events. The resolution identity is already among the source
      extensions. */
  datatype RoundSpec = RoundSpec(
    memorySpaceId: string,
    system: string,
    instanceId: string,
    profileId: string,
    sessionId: string,
    roundId: string,
    startedAt: string,
    completedAt: string,
    adapterVersion: string,
    sourceSchemaVersion: nat,
    extensions: Fields,
    sourceExtensions: Fields)

  function Normalized(spec: RoundSpec, events: seq<Fields>, render: Render): (r: seq<Fields>)
    ensures |r| == |events|
  {
    seq(|events|, i requires 0 <= i < |events| => NormalizeEvent(events[i], i, spec.roundId, render))
  }

  function AsJson(events: seq<Fields>): (r: seq<Json>)
    ensures |r| == |events|
  {
    seq(|events|, i requires 0 <= i < |events| => Obj(events[i]))
  }

  function Ids(events: seq<Fields>): (r: seq<Json>)
    ensures |r| == |events|
  {
    seq(|events|, i requires 0 <= i < |events| => Get(events[i], "event_id"))
  }

  function SourceOf(spec: RoundSpec, events: seq<Fields>): Fields
    requires events != []
  {
    var ids := Ids(events);
    var source := map[
      "system" := Str(spec.system),
      "instance_id" := Str(spec.instanceId),
      "profile_id" := Str(spec.profileId),
      "session_id" := Str(spec.sessionId),
      "round_id" := Str(spec.roundId),
      "first_event_id" := ids[0],
      "final_event_id" := ids[|ids| - 1],
      "event_ids" := Arr(ids),
      "source_schema_version" := Num(spec.sourceSchemaVersion as real),
      "adapter_version" := Str(spec.adapterVersion)];
    if spec.sourceExtensions == map[] then source else source["extensions" := Obj(spec.sourceExtensions)]
  }

  function RoundOf(spec: RoundSpec, events: seq<Fields>): Fields {
    map["started_at" := Str(spec.startedAt), "completed_at" := Str(spec.completedAt), "events" := Arr(AsJson(events))]
  }

  /** The payload before its digest is filled in. */
  function PayloadOf(spec: RoundSpec, events: seq<Fields>): Fields
    requires events != []
  {
    var payload := map[
      "schema_version" := Num(2.0),
      "memory_space_id" := Str(spec.memorySpaceId),
      "source" := Obj(SourceOf(spec, events)),
      "round" := Obj(RoundOf(spec, events))];
    if spec.extensions == map[] then payload else payload["extensions" := Obj(spec.extensions)]
  }

  /** `with_payload_digest`. */
  function WithPayloadDigest(lib: Library, payload: Fields): Fields
    requires CanonicalBody(payload).Ok?
  {
    var digest := Str(lib.bodyDigest(CanonicalBody(payload).value));
    payload["payload_digest" := digest]["idempotency_key" := digest]
  }

  lemma {:induction false} PayloadHasBody(spec: RoundSpec, events: seq<Fields>)
    requires events != []
    ensures CanonicalBody(PayloadOf(spec, events)).Ok?
    ensures HasEvents(PayloadOf(spec, events)) && EventsOf(PayloadOf(spec, events)) == AsJson(events)
  {
    hide SourceOf;
    var payload := PayloadOf(spec, events);
    assert payload["round"].fields["events"] == Arr(AsJson(events));
  }

  /** `build_raw_round` up to its last call, the validation. None: no events to take the first
      and final id from. */
  function Build(lib: Library, spec: RoundSpec, events: seq<Fields>, render: Render): (r: Option<Fields>)
    ensures r.Some? <==> events != []
  {
    if events == [] then None
    else
      PayloadHasBody(spec, Normalized(spec, events, render));
      Some(WithPayloadDigest(lib, PayloadOf(spec, Normalized(spec, events, render))))
  }

  // --------------------------------------------------------------------------- validation

  predicate IsMessage(v: View, role: string) {
    v.kind == Str("message") && v.role == Str(role)
  }

  predicate IsFinalAssistant(v: View) {
    IsMessage(v, "assistant") && v.final == Bool(true)
  }

  predicate IsCall(v: View) {
    v.kind == Str("tool_call")
  }

  predicate IsResult(v: View) {
    v.kind == Str("tool_result")
  }

  /** The rules over the events of one round. */
  predicate RoundRules(vs: seq<View>) {
    && (forall i, j :: 0 <= i < j < |vs| ==> vs[i].id != vs[j].id)
    && (forall i :: 0 <= i < |vs| ==> vs[i].sequence == Num(i as real))
    && (exists i :: 0 <= i < |vs| && IsMessage(vs[i], "user"))
    && (exists i :: 0 <= i < |vs| && IsFinalAssistant(vs[i]))
    && (forall i, j :: 0 <= i < j < |vs| ==> !(IsFinalAssistant(vs[i]) && IsFinalAssistant(vs[j])))
    && (forall i, j :: 0 <= i < j < |vs| && IsCall(vs[i]) && IsCall(vs[j]) ==> vs[i].callId != vs[j].callId)
    && (forall i :: 0 <= i < |vs| && IsResult(vs[i]) ==>
          exists j :: 0 <= j < |vs| && IsCall(vs[j]) && vs[j].callId == vs[i].callId)
  }

  function Views(events: seq<Fields>): (r: seq<View>)
    ensures |r| == |events|
  {
    seq(|events|, i requires 0 <= i < |events| => ViewOf(events[i]))
  }

  /** A model dumped with its null members left out. */
  function DropNulls(f: Fields): Fields {
    map k | k in f && f[k] != Null :: f[k]
  }

  function DumpPart(j: Json): Json {
    if j.Obj? then Obj(DropNulls(j.fields)) else j
  }

  function DumpParts(parts: seq<Json>): (r: seq<Json>)
    ensures |r| == |parts|
  {
    seq(|parts|, i requires 0 <= i < |parts| => DumpPart(parts[i]))
  }

  function DumpEvent(j: Json): Json {
    if j.Obj? then
      var f := DropNulls(j.fields);
      Obj(if Get(f, "content").Arr? then f["content" := Arr(DumpParts(f["content"].items))] else f)
    else j
  }

  function DumpEvents(events: seq<Json>): (r: seq<Json>)
    ensures |r| == |events|
  {
    seq(|events|, i requires 0 <= i < |events| => DumpEvent(events[i]))
  }

  /** What the model serialises of source and round when its own digest is recomputed. */
  function Dumped(payload: Fields): Fields
    requires HasEvents(payload)
  {
    map["source" := Obj(DropNulls(payload["source"].fields)),
        "round" := Obj(DropNulls(payload["round"].fields["events" := Arr(DumpEvents(EventsOf(payload)))]))]
  }

  function FieldsOf(events: seq<Json>): (r: seq<Fields>)
    requires AllObjects(events)
    ensures |r| == |events|
  {
    seq(|events|, i requires 0 <= i < |events| => events[i].fields)
  }

  predicate AllValid(events: seq<Fields>) {
    forall i :: 0 <= i < |events| ==> ValidEvent(events[i])
  }

  /** What `RawRoundRequest` requires of a payload with source and round objects. */
  predicate Accepts(lib: Library, payload: Fields) {
    && HasEvents(payload) && AllObjects(EventsOf(payload)) && EventsOf(payload) != []
    && var source := payload["source"].fields;
      var events := FieldsOf(EventsOf(payload));
      && AllValid(events)
      && Get(source, "event_ids") == Arr(Ids(events))
      && Get(source, "first_event_id") == Ids(events)[0]
      && Get(source, "final_event_id") == Ids(events)[|events| - 1]
      && RoundRules(Views(events))
      && Get(payload, "idempotency_key") == Get(payload, "payload_digest")
      && CanonicalBody(Dumped(payload)).Ok?
      && Get(payload, "payload_digest") == Str(lib.bodyDigest(CanonicalBody(Dumped(payload)).value))
  }

  // ---------------------------------------------------------------------- what is accepted

  predicate NoNulls(f: Fields) {
    forall k :: k in f ==> f[k] != Null
  }

  lemma {:induction false} DropNothing(f: Fields)
    requires NoNulls(f)
    ensures DropNulls(f) == f
  {
  }

  predicate CleanPart(j: Json) {
    j.Obj? ==> NoNulls(j.fields)
  }

  /** No content part carries an explicit null. */
  predicate CleanContent(event: Fields) {
    var parts := Content(Either(event, "content", "api_content"));
    forall i :: 0 <= i < |parts| ==> CleanPart(parts[i])
  }

  lemma {:induction false} NormalizedHasNoNulls(spec: RoundSpec, event: Fields, i: nat, render: Render)
    ensures NoNulls(NormalizeEvent(event, i, spec.roundId, render))
  {
    hide EventId, KindOf, Content, Truthy, KeepAll;
    var core := EventCore(event, i, spec.roundId, render);
    KindIsKnown(event, render);
    assert NoNulls(core);
    var kept := KeepAll(event, core, OPTIONAL_KEYS);
    forall k | k in kept ensures kept[k] != Null {
      KeptMember(event, core, OPTIONAL_KEYS, k);
    }
  }

  lemma {:induction false} CleanEventDumps(spec: RoundSpec, event: Fields, i: nat, render: Render)
    requires CleanContent(event)
    ensures var f := NormalizeEvent(event, i, spec.roundId, render); DumpEvent(Obj(f)) == Obj(f)
  {
    hide NormalizeEvent, Content, Truthy, KindOf, EventId;
    var f := NormalizeEvent(event, i, spec.roundId, render);
    NormalizedHasNoNulls(spec, event, i, render);
    NormalizedCore(event, i, spec.roundId, render);
    DropNothing(f);
    var parts := f["content"].items;
    forall j | 0 <= j < |parts| ensures DumpPart(parts[j]) == parts[j] {
      assert CleanPart(parts[j]);
      if parts[j].Obj? {
        DropNothing(parts[j].fields);
      }
    }
    assert DumpParts(parts) == parts;
    assert f["content" := Arr(parts)] == f;
  }

  /** Without explicit nulls the model serialises exactly what was digested. */
  lemma {:induction false} CleanRoundKeepsItsDigest(lib: Library, spec: RoundSpec, events: seq<Fields>, render: Render)
    requires events != [] && forall i :: 0 <= i < |events| ==> CleanContent(events[i])
    ensures var payload := PayloadOf(spec, Normalized(spec, events, render));
      HasEvents(payload) && CanonicalBody(Dumped(payload)) == CanonicalBody(payload)
  {
    hide NormalizeEvent, CleanContent, SourceOf, CanonicalEvents, DumpEvent;
    var normalized := Normalized(spec, events, render);
    var payload := PayloadOf(spec, normalized);
    PayloadHasBody(spec, normalized);
    forall i | 0 <= i < |normalized| ensures DumpEvent(Obj(normalized[i])) == Obj(normalized[i]) {
      CleanEventDumps(spec, events[i], i, render);
    }
    assert DumpEvents(AsJson(normalized)) == AsJson(normalized);
    SourceClean(spec, events, render);
    DropNothing(SourceOf(spec, normalized));
    DropNothing(RoundOf(spec, normalized));
    assert payload["round"].fields["events" := Arr(AsJson(normalized))] == RoundOf(spec, normalized);
  }

  lemma {:induction false} SourceClean(spec: RoundSpec, events: seq<Fields>, render: Render)
    requires events != []
    ensures NoNulls(SourceOf(spec, Normalized(spec, events, render)))
  {
    hide NormalizeEvent, EventId, KindOf, Content, Truthy;
    var normalized := Normalized(spec, events, render);
    NormalizedCore(events[0], 0, spec.roundId, render);
    NormalizedCore(events[|events| - 1], |events| - 1, spec.roundId, render);
    assert Ids(normalized)[0] != Null && Ids(normalized)[|events| - 1] != Null;
  }

  lemma {:induction false} BuiltParts(lib: Library, spec: RoundSpec, events: seq<Fields>, render: Render)
    requires events != []
    ensures var normalized := Normalized(spec, events, render);
      var built := Build(lib, spec, events, render).value;
      && Get(built, "source") == Obj(SourceOf(spec, normalized))
      && Get(built, "round") == Obj(RoundOf(spec, normalized))
      && Get(built, "idempotency_key") == Get(built, "payload_digest")
      && HasEvents(built) && EventsOf(built) == AsJson(normalized)
      && CanonicalBody(PayloadOf(spec, normalized)).Ok?
      && Get(built, "payload_digest") == Str(lib.bodyDigest(CanonicalBody(PayloadOf(spec, normalized)).value))
  {
    hide Normalized, SourceOf, CanonicalBody;
    var normalized := Normalized(spec, events, render);
    PayloadHasBody(spec, normalized);
    BodyReadsSourceAndRound(PayloadOf(spec, normalized), Build(lib, spec, events, render).value);
    RoundEvents(spec, normalized);
  }

  lemma {:induction false} RoundEvents(spec: RoundSpec, events: seq<Fields>)
    ensures Get(RoundOf(spec, events), "events") == Arr(AsJson(events)) && AllObjects(AsJson(events))
    ensures FieldsOf(AsJson(events)) == events
  {
  }

  lemma {:induction false} SourceIds(spec: RoundSpec, events: seq<Fields>)
    requires events != []
    ensures Get(SourceOf(spec, events), "event_ids") == Arr(Ids(events))
    ensures Get(SourceOf(spec, events), "first_event_id") == Ids(events)[0]
    ensures Get(SourceOf(spec, events), "final_event_id") == Ids(events)[|events| - 1]
  {
  }

  lemma {:induction false} DumpedHasBody(payload: Fields)
    requires HasEvents(payload) && AllObjects(EventsOf(payload))
    ensures CanonicalBody(Dumped(payload)).Ok?
  {
    hide DumpEvent, CanonicalEvents;
    var dumped := Dumped(payload);
    var events := DumpEvents(EventsOf(payload));
    forall i | 0 <= i < |events| ensures events[i].Obj? {
      DumpedIsObject(EventsOf(payload)[i]);
    }
    assert dumped["round"].fields["events"] == Arr(events);
  }

  lemma {:induction false} DumpedIsObject(j: Json)
    requires j.Obj?
    ensures DumpEvent(j).Obj?
  {
  }

  lemma {:induction false} DumpedReads(a: Fields, b: Fields)
    requires HasEvents(a) && HasEvents(b) && Get(a, "source") == Get(b, "source") && Get(a, "round") == Get(b, "round")
    ensures Dumped(a) == Dumped(b)
  {
    hide DropNulls, DumpEvents;
  }

  /** The recomputed digest is the one that was filled in. */
  ghost predicate DigestsAgree(lib: Library, payload: Fields) {
    && HasEvents(payload) && CanonicalBody(Dumped(payload)).Ok? && CanonicalBody(payload).Ok?
    && lib.bodyDigest(CanonicalBody(Dumped(payload)).value) == lib.bodyDigest(CanonicalBody(payload).value)
  }

  /** What `build_raw_round` assembles is accepted exactly when its events normalise to valid
      ones, obey the round rules, and serialise as they were digested: the source ids, the
      sequences and the two digest fields are right by construction. */
  lemma {:induction false} BuiltAcceptedIff(lib: Library, spec: RoundSpec, events: seq<Fields>, render: Render)
    requires events != []
    ensures var normalized := Normalized(spec, events, render);
      Accepts(lib, Build(lib, spec, events, render).value)
      <==>
      (AllValid(normalized) && RoundRules(Views(normalized)) && DigestsAgree(lib, PayloadOf(spec, normalized)))
  {
    hide Normalized, SourceOf, RoundOf, PayloadOf, CanonicalBody, Dumped, ValidEvent, RoundRules, Build, HasEvents;
    var normalized := Normalized(spec, events, render);
    var built := Build(lib, spec, events, render).value;
    BuiltParts(lib, spec, events, render);
    PayloadHasBody(spec, normalized);
    RoundEvents(spec, normalized);
    SourceIds(spec, normalized);
    PayloadParts(spec, normalized);
    DumpedReads(built, PayloadOf(spec, normalized));
    DumpedHasBody(built);
  }

  lemma {:induction false} PayloadParts(spec: RoundSpec, events: seq<Fields>)
    requires events != []
    ensures Get(PayloadOf(spec, events), "source") == Obj(SourceOf(spec, events))
    ensures Get(PayloadOf(spec, events), "round") == Obj(RoundOf(spec, events))
  {
    hide SourceOf, RoundOf;
  }

  /** Every part is clean: then validity and the round rules alone decide. */
  lemma {:induction false} CleanBuiltAcceptedIff(lib: Library, spec: RoundSpec, events: seq<Fields>, render: Render)
    requires events != [] && forall i :: 0 <= i < |events| ==> CleanContent(events[i])
    ensures var normalized := Normalized(spec, events, render);
      Accepts(lib, Build(lib, spec, events, render).value) <==> AllValid(normalized) && RoundRules(Views(normalized))
  {
    hide Normalized, PayloadOf, Accepts, Build, ValidEvent, RoundRules, CanonicalBody, CleanContent;
    BuiltAcceptedIff(lib, spec, events, render);
    CleanRoundKeepsItsDigest(lib, spec, events, render);
    PayloadHasBody(spec, Normalized(spec, events, render));
  }

  // ------------------------------------------------------------------- explicit nulls

  lemma {:induction false} UncleanPartDumps(parts: seq<Json>, j: nat)
    requires j < |parts| && !CleanPart(parts[j])
    ensures DumpParts(parts) != parts
  {
    var k :| k in parts[j].fields && parts[j].fields[k] == Null;
    assert k !in DropNulls(parts[j].fields);
    assert DumpParts(parts)[j] != parts[j];
  }

  lemma {:induction false} UncleanEventDumps(spec: RoundSpec, event: Fields, i: nat, render: Render)
    requires !CleanContent(event)
    ensures var f := NormalizeEvent(event, i, spec.roundId, render);
      var d := DumpEvent(Obj(f));
      d.Obj? && "content" in f && "content" in d.fields && d.fields["content"] != f["content"]
  {
    hide NormalizeEvent, Content, Truthy, KindOf, EventId, CleanPart, DumpPart;
    var f := NormalizeEvent(event, i, spec.roundId, render);
    NormalizedHasNoNulls(spec, event, i, render);
    NormalizedCore(event, i, spec.roundId, render);
    DropNothing(f);
    var parts := f["content"].items;
    var j :| 0 <= j < |parts| && !CleanPart(parts[j]);
    UncleanPartDumps(parts, j);
  }

  lemma {:induction false} CanonicalKeepsContent(event: Fields)
    requires "content" in event
    ensures "content" in CanonicalEvent(event) && CanonicalEvent(event)["content"] == event["content"]
  {
  }

  /** The body of what is serialised lists the dumped events. */
  lemma {:induction false} BodyEvents(payload: Fields, i: nat)
    requires HasEvents(payload) && AllObjects(EventsOf(payload)) && i < |EventsOf(payload)|
    ensures CanonicalBody(payload).Ok? && HasEvents(CanonicalBody(payload).value)
    ensures i < |EventsOf(CanonicalBody(payload).value)|
    ensures EventsOf(CanonicalBody(payload).value)[i] == Obj(CanonicalEvent(EventsOf(payload)[i].fields))
  {
    hide CanonicalEvent;
    var body := CanonicalBody(payload).value;
    assert body["round"].fields["events"] == Arr(CanonicalEvents(EventsOf(payload)));
  }

  lemma {:induction false} DumpedEvents(payload: Fields)
    requires HasEvents(payload) && AllObjects(EventsOf(payload))
    ensures HasEvents(Dumped(payload)) && EventsOf(Dumped(payload)) == DumpEvents(EventsOf(payload))
    ensures AllObjects(EventsOf(Dumped(payload)))
  {
    hide DumpEvent;
    var events := DumpEvents(EventsOf(payload));
    forall i | 0 <= i < |events| ensures events[i].Obj? {
      DumpedIsObject(EventsOf(payload)[i]);
    }
    assert Dumped(payload)["round"].fields["events"] == Arr(events);
  }

  lemma {:induction false} UncleanChangesTheBody(spec: RoundSpec, events: seq<Fields>, render: Render, i: nat)
    requires i < |events| && !CleanContent(events[i])
    ensures var payload := PayloadOf(spec, Normalized(spec, events, render));
      HasEvents(payload) && CanonicalBody(Dumped(payload)) != CanonicalBody(payload)
  {
    hide NormalizeEvent, CleanContent, SourceOf, CanonicalBody, DumpEvent, Dumped, CanonicalEvent;
    var normalized := Normalized(spec, events, render);
    var payload := PayloadOf(spec, normalized);
    PayloadHasBody(spec, normalized);
    assert EventsOf(payload)[i] == Obj(normalized[i]);
    assert normalized[i] == NormalizeEvent(events[i], i, spec.roundId, render);
    UncleanEventDumps(spec, events[i], i, render);
    DumpedEvents(payload);
    BodyEvents(payload, i);
    BodyEvents(Dumped(payload), i);
    CanonicalKeepsContent(normalized[i]);
    CanonicalKeepsContent(DumpEvent(Obj(normalized[i])).fields);
  }

  /** The model serialises what was digested exactly when no content part of the events carries
      an explicit null. */
  lemma {:induction false} SerialisedAsDigestedIff(lib: Library, spec: RoundSpec, events: seq<Fields>, render: Render)
    requires events != []
    ensures var payload := PayloadOf(spec, Normalized(spec, events, render));
      && HasEvents(payload)
      && (CanonicalBody(Dumped(payload)) == CanonicalBody(payload)
          <==> forall i :: 0 <= i < |events| ==> CleanContent(events[i]))
  {
    hide Normalized, PayloadOf, CanonicalBody, Dumped, CleanContent;
    PayloadHasBody(spec, Normalized(spec, events, render));
    if i :| 0 <= i < |events| && !CleanContent(events[i]) {
      UncleanChangesTheBody(spec, events, render, i);
    } else {
      CleanRoundKeepsItsDigest(lib, spec, events, render);
    }
  }

  /** The digest of a body differs from that of the same body without its explicit nulls. */
  ghost predicate TellsNullsApart(lib: Library) {
    forall payload: Fields ::
      HasEvents(payload) && CanonicalBody(Dumped(payload)).Ok? && CanonicalBody(payload).Ok?
      && CanonicalBody(Dumped(payload)) != CanonicalBody(payload)
      ==> !DigestsAgree(lib, payload)
  }

  /** With a digest that tells nulls apart, what `build_raw_round` assembles is accepted exactly
      when its events normalise to valid ones, obey the round rules, and no content part of
      theirs carries an explicit null. */
  lemma {:induction false} BuiltAcceptedExactly(lib: Library, spec: RoundSpec, events: seq<Fields>, render: Render)
    requires events != [] && TellsNullsApart(lib)
    ensures var normalized := Normalized(spec, events, render);
      Accepts(lib, Build(lib, spec, events, render).value)
      <==> && AllValid(normalized) && RoundRules(Views(normalized))
           && forall i :: 0 <= i < |events| ==> CleanContent(events[i])
  {
    hide Normalized, PayloadOf, Accepts, Build, ValidEvent, RoundRules, CanonicalBody, CleanContent, Dumped, AllValid;
    BuiltAcceptedIff(lib, spec, events, render);
    SerialisedAsDigestedIff(lib, spec, events, render);
    var payload := PayloadOf(spec, Normalized(spec, events, render));
    PayloadHasBody(spec, Normalized(spec, events, render));
    NormalizedObjects(spec, events, render);
    DumpedHasBody(payload);
  }

  lemma {:induction false} NormalizedObjects(spec: RoundSpec, events: seq<Fields>, render: Render)
    requires events != []
    ensures var payload := PayloadOf(spec, Normalized(spec, events, render));
      HasEvents(payload) && AllObjects(EventsOf(payload))
  {
    hide NormalizeEvent, SourceOf;
    PayloadHasBody(spec, Normalized(spec, events, render));
  }
}
