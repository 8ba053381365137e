/** The canonical body of a RawRound payload and the digests derived from it. SHA-256, with the
    RFC 3339 normalisation and the JSON encoding before it, is a parameter. */
module Canonical {
  import opened Options
  import opened JsonValue

  /** The hash functions, and which characters `str.strip` removes. */
  datatype Library = Library(bodyDigest: Fields -> string, sourceDigest: seq<string> -> string, isSpace: char -> bool)

  datatype BodyError = MissingParts | MissingEvents | EventNotObject

  /** An event with the defaults of `content` and `final` written out. */
  function CanonicalEvent(event: Fields): Fields {
    var withContent := if "content" in event then event else event["content" := Arr([])];
    if "final" in withContent then withContent else withContent["final" := Bool(false)]
  }

  predicate AllObjects(events: seq<Json>) {
    forall i :: 0 <= i < |events| ==> events[i].Obj?
  }

  function CanonicalEvents(events: seq<Json>): (r: seq<Json>)
    requires AllObjects(events)
    ensures |r| == |events|
  {
    seq(|events|, i requires 0 <= i < |events| => Obj(CanonicalEvent(events[i].fields)))
  }

  /** The payload has source and round objects and an events list. */
  predicate HasEvents(o: Fields) {
    Get(o, "source").Obj? && Get(o, "round").Obj? && Get(o["round"].fields, "events").Arr?
  }

  function EventsOf(o: Fields): seq<Json>
    requires HasEvents(o)
  {
    o["round"].fields["events"].items
  }

  function BodyWith(o: Fields, events: seq<Json>): Fields
    requires HasEvents(o)
  {
    map["source" := o["source"], "round" := Obj(o["round"].fields["events" := Arr(events)])]
  }

  function CanonicalBody(o: Fields): Result<Fields, BodyError> {
    if !Get(o, "source").Obj? || !Get(o, "round").Obj? then Err(MissingParts)
    else if !Get(o["round"].fields, "events").Arr? then Err(MissingEvents)
    else if !AllObjects(EventsOf(o)) then Err(EventNotObject)
    else Ok(BodyWith(o, CanonicalEvents(EventsOf(o))))
  }

  /** `canonical_body`: copies the events one by one. */
  method BuildCanonicalBody(o: Fields) returns (r: Result<Fields, BodyError>)
    ensures r == CanonicalBody(o)
  {
    if !Get(o, "source").Obj? || !Get(o, "round").Obj? {
      return Err(MissingParts);
    }
    var round := o["round"].fields;
    if !Get(round, "events").Arr? {
      return Err(MissingEvents);
    }
    var rawEvents := round["events"].items;
    var events: seq<Json> := [];
    for i := 0 to |rawEvents|
      invariant |events| == i
      invariant forall k :: 0 <= k < i ==> rawEvents[k].Obj? && events[k] == Obj(CanonicalEvent(rawEvents[k].fields))
    {
      if !rawEvents[i].Obj? {
        return Err(EventNotObject);
      }
      var event := rawEvents[i].fields;
      if "content" !in event {
        event := event["content" := Arr([])];
      }
      if "final" !in event {
        event := event["final" := Bool(false)];
      }
      events := events + [Obj(event)];
    }
    assert events == CanonicalEvents(rawEvents);
    r := Ok(map["source" := o["source"], "round" := Obj(round["events" := Arr(events)])]);
  }

  /** Writing the defaults out does not change the body: a payload and its canonical form have
      the same digest. */
  lemma {:induction false} CanonicalBodyStable(o: Fields)
    requires CanonicalBody(o).Ok?
    ensures CanonicalBody(CanonicalBody(o).value) == CanonicalBody(o)
  {
    var body := CanonicalBody(o).value;
    var events := EventsOf(body);
    assert events == CanonicalEvents(EventsOf(o));
    forall i | 0 <= i < |events| ensures CanonicalEvent(events[i].fields) == events[i].fields {
    }
    assert CanonicalEvents(events) == events;
    assert body["round"].fields["events" := Arr(events)] == body["round"].fields;
  }

  /** Only the source and the round count: whatever else a payload carries, its body is the same. */
  lemma {:induction false} BodyReadsSourceAndRound(a: Fields, b: Fields)
    requires Get(a, "source") == Get(b, "source") && Get(a, "round") == Get(b, "round")
    ensures CanonicalBody(a) == CanonicalBody(b) && HasEvents(a) == HasEvents(b)
  {
  }

  // ------------------------------------------------------------------------ source identity

  function Either(o: Fields, key: string, other: string): Json {
    if key in o then o[key] else Get(o, other)
  }

  function SourceValues(source: Fields): seq<Json> {
    [Either(source, "system", "source_system"),
     Either(source, "instance_id", "source_instance_id"),
     Either(source, "profile_id", "source_profile_id"),
     Either(source, "session_id", "source_session_id"),
     Either(source, "round_id", "source_round_id")]
  }

  predicate IsText(j: Json) {
    j.Str? && j.s != ""
  }

  /** `calculate_source_round_key`: None where Python raises. */
  function SourceRoundKey(lib: Library, source: Fields): Option<string> {
    var values := SourceValues(source);
    if forall i :: 0 <= i < 5 ==> IsText(values[i]) then
      Some(lib.sourceDigest([values[0].s, values[1].s, values[2].s, values[3].s, values[4].s]))
    else None
  }

  /** The source says this under the name, or, when the name is missing, under the other one. */
  predicate Identifies(source: Fields, key: string, other: string, value: string) {
    && value != ""
    && if key in source then source[key] == Str(value) else other in source && source[other] == Str(value)
  }

  /** The key is the digest of the five public members, each under its short or its long name,
      and there is one exactly when each of them is a text. */
  lemma {:induction false} SourceKeyIff(lib: Library, source: Fields, key: string)
    ensures SourceRoundKey(lib, source) == Some(key)
       <==> exists a, b, c, d, e ::
              && Identifies(source, "system", "source_system", a)
              && Identifies(source, "instance_id", "source_instance_id", b)
              && Identifies(source, "profile_id", "source_profile_id", c)
              && Identifies(source, "session_id", "source_session_id", d)
              && Identifies(source, "round_id", "source_round_id", e)
              && key == lib.sourceDigest([a, b, c, d, e])
  {
    EitherIdentifies(source, "system", "source_system");
    EitherIdentifies(source, "instance_id", "source_instance_id");
    EitherIdentifies(source, "profile_id", "source_profile_id");
    EitherIdentifies(source, "session_id", "source_session_id");
    EitherIdentifies(source, "round_id", "source_round_id");
    var vs := SourceValues(source);
    if SourceRoundKey(lib, source).Some? {
      assert IsText(vs[0]) && IsText(vs[1]) && IsText(vs[2]) && IsText(vs[3]) && IsText(vs[4]);
    }
  }

  lemma {:induction false} EitherIdentifies(source: Fields, key: string, other: string)
    ensures forall v :: Identifies(source, key, other, v) <==> v != "" && Either(source, key, other) == Str(v)
    ensures IsText(Either(source, key, other)) ==> Identifies(source, key, other, Either(source, key, other).s)
  {
  }
}
