/** From captured events to a RawRound request, and the rules `RawRoundRequest` checks. Field
    lengths, ranges and timestamps are not part of the model. */
module RawRounds {
  import opened Options
  import opened JsonValue
  import opened Canonical
  import opened Decimals

  /** Python truth value. */
  predicate Truthy(j: Json) {
    match j
    case Null => false
    case Bool(b) => b
    case Num(v) => v != 0.0
    case Str(s) => s != ""
    case Arr(items) => items != []
    case Obj(fields) => fields != map[]
  }

  type Render = Json -> string

  /** `str(value)`; how anything but a string prints is the parameter `render`. */
  function Text(j: Json, render: Render): string {
    if j.Str? then j.s else render(j)
  }

  // ------------------------------------------------------------------------------ content

  const PART_KEYS := {"type", "text", "data", "uri"}

  predicate IsCanonicalPart(j: Json) {
    && j.Obj? && j.fields.Keys <= PART_KEYS
    && (|| (Get(j.fields, "type") == Str("text") && Get(j.fields, "text").Str?)
        || (Get(j.fields, "type") == Str("json") && Get(j.fields, "data") != Null)
        || (Get(j.fields, "type") == Str("reference") && Get(j.fields, "uri").Str?))
  }

  function TextPart(s: string): Json {
    Obj(map["type" := Str("text"), "text" := Str(s)])
  }

  function JsonPart(j: Json): Json {
    Obj(map["type" := Str("json"), "data" := j])
  }

  /** `_content`. */
  function Content(value: Json): seq<Json> {
    if value == Null then []
    else if value.Str? then [TextPart(value.s)]
    else if value.Arr? && forall i :: 0 <= i < |value.items| ==> IsCanonicalPart(value.items[i]) then value.items
    else [JsonPart(value)]
  }

  predicate NullOrText(j: Json) {
    j.Null? || j.Str?
  }

  /** What `RawContentPart` accepts. */
  predicate ValidPart(j: Json) {
    && j.Obj? && j.fields.Keys <= PART_KEYS
    && Get(j.fields, "type") in {Str("text"), Str("json"), Str("reference")}
    && NullOrText(Get(j.fields, "text")) && NullOrText(Get(j.fields, "uri"))
    && (Get(j.fields, "type") == Str("text") ==> Get(j.fields, "text") != Null)
    && (Get(j.fields, "type") == Str("json") ==> Get(j.fields, "data") != Null)
    && (Get(j.fields, "type") == Str("reference") ==> Get(j.fields, "uri") != Null)
  }

  /** A part whose text and uri, where present, are strings or null. */
  predicate StraysTyped(j: Json) {
    j.Obj? ==> NullOrText(Get(j.fields, "text")) && NullOrText(Get(j.fields, "uri"))
  }

  /** What `_content` produces is accepted exactly when no part handed in already canonical
      carries a `text` or `uri` of the wrong type beside its own payload. */
  lemma {:induction false} ContentAcceptedIff(value: Json)
    ensures (forall i :: 0 <= i < |Content(value)| ==> ValidPart(Content(value)[i]))
       <==> (forall i :: 0 <= i < |Content(value)| ==> StraysTyped(Content(value)[i]))
  {
    forall i | 0 <= i < |Content(value)| ensures ValidPart(Content(value)[i]) <==> StraysTyped(Content(value)[i]) {
      var part := Content(value)[i];
      if value.Str? {
        assert part == TextPart(value.s);
      } else if part != JsonPart(value) {
        assert IsCanonicalPart(part);
      }
    }
  }

  /** A part that passes `_is_canonical_content_part` and that `RawContentPart` rejects. */
  lemma {:induction false} StrayUriIsRejected()
    ensures var part := Obj(map["type" := Str("text"), "text" := Str("a"), "uri" := Num(5.0)]);
      Content(Arr([part])) == [part] && !ValidPart(part)
  {
    var part := Obj(map["type" := Str("text"), "text" := Str("a"), "uri" := Num(5.0)]);
    assert Get(part.fields, "uri") == Num(5.0);
    assert IsCanonicalPart(part);
  }

  // ------------------------------------------------------------------------------- events

  const KINDS := {Str("message"), Str("tool_call"), Str("tool_result")}

  function EventId(event: Fields, sequence: nat, roundId: string, render: Render): string {
    if Truthy(Get(event, "event_id")) then Text(event["event_id"], render)
    else if Truthy(Get(event, "id")) then Text(event["id"], render)
    else roundId + ":" + Decimal(sequence)
  }

  function KindOf(event: Fields, render: Render): Json {
    var kind := Str(if Truthy(Get(event, "kind")) then Text(event["kind"], render) else "message");
    if kind in KINDS then kind else Str("message")
  }

  /** Copies one optional member when it is present and not null. */
  function Keep(event: Fields, result: Fields, key: string): Fields {
    if Get(event, key) != Null then result[key := event[key]] else result
  }

  /** The always present part of a normalised event. */
  function EventCore(event: Fields, sequence: nat, roundId: string, render: Render): Fields {
    map["event_id" := Str(EventId(event, sequence, roundId, render)),
        "sequence" := Num(sequence as real),
        "kind" := KindOf(event, render),
        "content" := Arr(Content(Either(event, "content", "api_content"))),
        "final" := Bool(Truthy(Get(event, "final")))]
  }

  function WithDefaults(result: Fields): Fields {
    var called :=
      if Get(result, "kind") == Str("tool_call") && "arguments" !in result then result["arguments" := Obj(map[])]
      else result;
    if Get(called, "kind") == Str("tool_result") && "status" !in called then called["status" := Str("unknown")]
    else called
  }

  /** The optional members in `keys`, copied one after the other. */
  function KeepAll(event: Fields, result: Fields, keys: seq<string>): Fields {
    if keys == [] then result else Keep(event, KeepAll(event, result, keys[..|keys| - 1]), keys[|keys| - 1])
  }

  const OPTIONAL_KEYS: seq<string> := ["role", "tool_call_id", "tool_name", "arguments", "status"]

  /** `normalize_event`. */
  function NormalizeEvent(event: Fields, sequence: nat, roundId: string, render: Render): Fields {
    WithDefaults(KeepAll(event, EventCore(event, sequence, roundId, render), OPTIONAL_KEYS))
  }

  /** The same, step by step as the source fills its result. */
  method BuildNormalizedEvent(event: Fields, sequence: nat, roundId: string, render: Render)
    returns (result: Fields)
    ensures result == NormalizeEvent(event, sequence, roundId, render)
  {
    hide EventId, KindOf, Content, Truthy;
    var kind := KindOf(event, render);
    result := map["event_id" := Str(EventId(event, sequence, roundId, render)),
                  "sequence" := Num(sequence as real),
                  "kind" := kind,
                  "content" := Arr(Content(Either(event, "content", "api_content"))),
                  "final" := Bool(Truthy(Get(event, "final")))];
    ghost var core := result;
    var keys := OPTIONAL_KEYS;
    for i := 0 to |keys|
      invariant result == KeepAll(event, core, keys[..i])
      invariant Get(result, "kind") == kind
    {
      assert keys[..i + 1][..i] == keys[..i] && keys[i] != "kind";
      if keys[i] in event && event[keys[i]] != Null {
        result := result[keys[i] := event[keys[i]]];
      }
    }
    assert keys[..|keys|] == keys;
    if kind == Str("tool_call") && "arguments" !in result {
      result := result["arguments" := Obj(map[])];
    }
    if kind == Str("tool_result") && "status" !in result {
      result := result["status" := Str("unknown")];
    }
  }

  lemma {:induction false} KeptMember(event: Fields, core: Fields, keys: seq<string>, key: string)
    ensures Get(KeepAll(event, core, keys), key)
         == if key in keys && Get(event, key) != Null then event[key] else Get(core, key)
    ensures key in KeepAll(event, core, keys) <==> key in core || (key in keys && Get(event, key) != Null)
  {
    if keys != [] {
      KeptMember(event, core, keys[..|keys| - 1], key);
      assert keys == keys[..|keys| - 1] + [keys[|keys| - 1]];
    }
  }

  /** What the round rules read of an event. */
  datatype View = View(id: Json, sequence: Json, kind: Json, role: Json, final: Json, callId: Json)

  function ViewOf(f: Fields): View {
    View(Get(f, "event_id"), Get(f, "sequence"), Get(f, "kind"), Get(f, "role"), Get(f, "final"),
         Get(f, "tool_call_id"))
  }

  /** Members that no default touches. */
  lemma {:induction false} NormalizedMember(event: Fields, sequence: nat, roundId: string, render: Render, key: string)
    requires key != "arguments" && key != "status"
    ensures var core := EventCore(event, sequence, roundId, render);
      Get(NormalizeEvent(event, sequence, roundId, render), key)
        == if key in OPTIONAL_KEYS && Get(event, key) != Null then event[key] else Get(core, key)
    ensures key in NormalizeEvent(event, sequence, roundId, render)
        <==> key in EventCore(event, sequence, roundId, render) || (key in OPTIONAL_KEYS && Get(event, key) != Null)
  {
    hide EventCore, KeepAll;
    KeptMember(event, EventCore(event, sequence, roundId, render), OPTIONAL_KEYS, key);
  }

  lemma {:induction false} NormalizedCore(event: Fields, sequence: nat, roundId: string, render: Render)
    ensures var f := NormalizeEvent(event, sequence, roundId, render);
      && Get(f, "event_id") == Str(EventId(event, sequence, roundId, render))
      && Get(f, "sequence") == Num(sequence as real) && Get(f, "kind") == KindOf(event, render)
      && Get(f, "content") == Arr(Content(Either(event, "content", "api_content")))
      && Get(f, "final") == Bool(Truthy(Get(event, "final")))
  {
    hide EventId, KindOf, Content, Truthy, NormalizeEvent;
    NormalizedMember(event, sequence, roundId, render, "event_id");
    NormalizedMember(event, sequence, roundId, render, "sequence");
    NormalizedMember(event, sequence, roundId, render, "kind");
    NormalizedMember(event, sequence, roundId, render, "content");
    NormalizedMember(event, sequence, roundId, render, "final");
  }

  /** A role, call id or tool name is copied when it is not null, and left out otherwise. */
  lemma {:induction false} NormalizedCopy(event: Fields, sequence: nat, roundId: string, render: Render, key: string)
    requires key == "role" || key == "tool_call_id" || key == "tool_name"
    ensures var f := NormalizeEvent(event, sequence, roundId, render);
      Get(f, key) == Get(event, key) && (key in f <==> Get(event, key) != Null)
  {
    hide EventId, KindOf, Content, Truthy, NormalizeEvent;
    NormalizedMember(event, sequence, roundId, render, key);
  }

  /** What normalisation does to the view. */
  lemma {:induction false} NormalizedView(event: Fields, sequence: nat, roundId: string, render: Render)
    ensures ViewOf(NormalizeEvent(event, sequence, roundId, render))
         == View(Str(EventId(event, sequence, roundId, render)), Num(sequence as real), KindOf(event, render),
                 Get(event, "role"), Bool(Truthy(Get(event, "final"))), Get(event, "tool_call_id"))
  {
    hide EventId, KindOf, Content, Truthy, NormalizeEvent, Get;
    NormalizedCore(event, sequence, roundId, render);
    NormalizedCopy(event, sequence, roundId, render, "role");
    NormalizedCopy(event, sequence, roundId, render, "tool_call_id");
  }

  predicate Optional(j: Json, allowed: set<string>) {
    j.Null? || (j.Str? && j.s in allowed)
  }

  const EVENT_KEYS := {"event_id", "sequence", "kind", "role", "content", "final", "tool_call_id", "tool_name",
                       "arguments", "status"}

  /** `validate_kind_shape`: a member counts as supplied when it is present, null or not. */
  predicate KindShape(f: Fields) {
    if Get(f, "kind") == Str("message") then
      Get(f, "role") != Null && "tool_call_id" !in f && "tool_name" !in f && "arguments" !in f && "status" !in f
    else if Get(f, "kind") == Str("tool_call") then
      Truthy(Get(f, "tool_call_id")) && Truthy(Get(f, "tool_name")) && "role" !in f && "status" !in f
    else
      Truthy(Get(f, "tool_call_id")) && Get(f, "status") != Null && "role" !in f
  }

  /** What `RawRoundEvent` accepts. */
  predicate ValidEvent(f: Fields) {
    && f.Keys <= EVENT_KEYS
    && Get(f, "event_id").Str? && Get(f, "event_id").s != ""
    && Get(f, "sequence").Num? && Get(f, "kind") in KINDS
    && Optional(Get(f, "role"), {"user", "assistant", "system"})
    && Get(f, "content").Arr? && (forall i :: 0 <= i < |f["content"].items| ==> ValidPart(f["content"].items[i]))
    && Get(f, "final").Bool?
    && NullOrText(Get(f, "tool_call_id")) && NullOrText(Get(f, "tool_name"))
    && Optional(Get(f, "status"), {"success", "error", "cancelled", "unknown"})
    && KindShape(f)
  }

  /** The events that normalise to something `RawRoundEvent` accepts. */
  predicate Acceptable(event: Fields, kind: Json) {
    && Optional(Get(event, "role"), {"user", "assistant", "system"})
    && NullOrText(Get(event, "tool_call_id")) && NullOrText(Get(event, "tool_name"))
    && Optional(Get(event, "status"), {"success", "error", "cancelled", "unknown"})
    && (kind == Str("message") ==>
          && Get(event, "role") != Null && Get(event, "tool_call_id") == Null && Get(event, "tool_name") == Null
          && Get(event, "arguments") == Null && Get(event, "status") == Null)
    && (kind == Str("tool_call") ==>
          && Truthy(Get(event, "tool_call_id")) && Truthy(Get(event, "tool_name"))
          && Get(event, "role") == Null && Get(event, "status") == Null)
    && (kind == Str("tool_result") ==> Truthy(Get(event, "tool_call_id")) && Get(event, "role") == Null)
    && var parts := Content(Either(event, "content", "api_content"));
      forall i :: 0 <= i < |parts| ==> StraysTyped(parts[i])
  }

  lemma {:induction false} NormalizedKeys(event: Fields, sequence: nat, roundId: string, render: Render)
    ensures NormalizeEvent(event, sequence, roundId, render).Keys <= EVENT_KEYS
  {
    hide EventId, KindOf, Content, Truthy, KeepAll;
    var core := EventCore(event, sequence, roundId, render);
    forall key | key in KeepAll(event, core, OPTIONAL_KEYS) ensures key in EVENT_KEYS {
      KeptMember(event, core, OPTIONAL_KEYS, key);
    }
  }

  /** The members normalisation may default. */
  lemma {:induction false} NormalizedDefaults(event: Fields, sequence: nat, roundId: string, render: Render)
    ensures var f := NormalizeEvent(event, sequence, roundId, render);
      && Get(f, "status")
         == (if Get(event, "status") == Null && KindOf(event, render) == Str("tool_result") then Str("unknown")
             else Get(event, "status"))
      && ("status" in f <==> Get(f, "status") != Null)
      && ("arguments" in f <==> Get(event, "arguments") != Null || KindOf(event, render) == Str("tool_call"))
  {
    hide EventId, KindOf, Content, Truthy, KeepAll;
    var core := EventCore(event, sequence, roundId, render);
    KeptMember(event, core, OPTIONAL_KEYS, "status");
    KeptMember(event, core, OPTIONAL_KEYS, "arguments");
    KeptMember(event, core, OPTIONAL_KEYS, "kind");
  }

  lemma {:induction false} KindIsKnown(event: Fields, render: Render)
    ensures KindOf(event, render) in KINDS
  {
  }

  /** Normalisation makes an event acceptable exactly when its role, tool members and parts
      already were: ids, sequences, kinds, finality and defaults are always repaired. */
  lemma {:induction false} NormalizedValidIff(event: Fields, sequence: nat, roundId: string, render: Render)
    requires EventId(event, sequence, roundId, render) != ""
    ensures ValidEvent(NormalizeEvent(event, sequence, roundId, render))
       <==> Acceptable(event, KindOf(event, render))
  {
    hide EventId, KindOf, Content, Truthy, NormalizeEvent, ValidPart, StraysTyped;
    var f := NormalizeEvent(event, sequence, roundId, render);
    NormalizedKeys(event, sequence, roundId, render);
    NormalizedCore(event, sequence, roundId, render);
    NormalizedCopy(event, sequence, roundId, render, "role");
    NormalizedCopy(event, sequence, roundId, render, "tool_call_id");
    NormalizedCopy(event, sequence, roundId, render, "tool_name");
    NormalizedDefaults(event, sequence, roundId, render);
    KindIsKnown(event, render);
    ContentAcceptedIff(Either(event, "content", "api_content"));
  }
}
