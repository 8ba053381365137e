/** Rewriting one persisted spool record to the current protocol names. */
module RecordMigration {
  import opened Options
  import opened JsonValue
  import opened Canonical

  datatype MigrationError =
    | Unreadable
    | UnsupportedSchema
    | ConflictingSchemas
    | ExtensionsNotObject
    | BothContextNames
    | ContextNotObject
    | UnsupportedContextSchema
    | InvalidContext
    | BadEvents
    | IdentityChanged

  type Migrated = Result<Fields, MigrationError>

  const MAX_IDENTIFIER_LENGTH := 500
  const MAX_CONTEXT_IDS := 100

  function MigrateSchemaField(o: Fields): Migrated {
    if "api_version" !in o then Ok(o)
    else
      var rest := o - {"api_version"};
      var current := Get(rest, "schema_version");
      if !PyEqual(o["api_version"], Num(2.0)) && o["api_version"] != Str("2") then Err(UnsupportedSchema)
      else if current != Null && !PyEqual(current, Num(2.0)) then Err(ConflictingSchemas)
      else Ok(rest["schema_version" := Num(2.0)])
  }

  predicate IsIdentifier(lib: Library, j: Json) {
    && j.Str? && |j.s| <= MAX_IDENTIFIER_LENGTH
    && exists i :: 0 <= i < |j.s| && !lib.isSpace(j.s[i])
  }

  /** What `LedgerMindContext` accepts. */
  predicate ValidContext(lib: Library, context: Fields) {
    && IsIdentifier(lib, Get(context, "retrieval_request_id"))
    && Get(context, "delivered_value_ids").Arr?
    && var ids := context["delivered_value_ids"].items;
      && |ids| <= MAX_CONTEXT_IDS
      && (forall i :: 0 <= i < |ids| ==> IsIdentifier(lib, ids[i]))
      && (forall i, k :: 0 <= i < k < |ids| ==> ids[i] != ids[k])
  }

  function StableContext(context: Fields): Fields {
    map["schema_version" := Num(1.0),
        "retrieval_request_id" := Get(context, "retrieval_request_id"),
        "delivered_value_ids" := Get(context, "delivered_value_ids")]
  }

  function MigrateExtensions(lib: Library, value: Json): Migrated {
    if !value.Obj? then Err(ExtensionsNotObject)
    else
      var extensions := value.fields;
      var oldPresent := "ledgermind_context_v1" in extensions;
      if oldPresent && "ledgermind_context" in extensions then Err(BothContextNames)
      else
        var key := if oldPresent then "ledgermind_context_v1" else "ledgermind_context";
        if key !in extensions then Ok(extensions)
        else if !extensions[key].Obj? then Err(ContextNotObject)
        else
          var context := extensions[key].fields;
          var schema := if "schema_version" in context then context["schema_version"] else Num(1.0);
          if !PyEqual(schema, Num(1.0)) && schema != Str("1") then Err(UnsupportedContextSchema)
          else if !ValidContext(lib, StableContext(context)) then Err(InvalidContext)
          else Ok((extensions - {"ledgermind_context_v1"})["ledgermind_context" := Obj(StableContext(context))])
  }

  /** The record with its own `extensions` member, if any, migrated. */
  function MigrateExtensionsIn(lib: Library, o: Fields): Migrated {
    if "extensions" !in o then Ok(o)
    else
      var extensions :- MigrateExtensions(lib, o["extensions"]);
      Ok(o["extensions" := Obj(extensions)])
  }

  function SourceIdentity(lib: Library, o: Fields): Option<string> {
    if Get(o, "source").Obj? then SourceRoundKey(lib, o["source"].fields) else None
  }

  predicate IsRawRound(o: Fields) {
    "source" in o && "round" in o && ("api_version" in o || "schema_version" in o)
  }

  /** Both digest fields set to the digest of the body; payloads without events are left alone. */
  function Digested(lib: Library, o: Fields): Migrated {
    if !HasEvents(o) then Ok(o)
    else if CanonicalBody(o).Err? then Err(BadEvents)
    else
      var digest := Str(lib.bodyDigest(CanonicalBody(o).value));
      Ok(o["payload_digest" := digest]["idempotency_key" := digest])
  }

  function MigrateRawRound(lib: Library, o: Fields): Migrated {
    var schema :- MigrateSchemaField(o);
    var extended :- MigrateExtensionsIn(lib, schema);
    var result :- Digested(lib, extended);
    if SourceIdentity(lib, o).Some? && SourceIdentity(lib, result) != SourceIdentity(lib, o) then Err(IdentityChanged)
    else Ok(result)
  }

  function MigrateNested(lib: Library, o: Fields): Migrated {
    if IsRawRound(o) then MigrateRawRound(lib, o) else MigrateExtensionsIn(lib, o)
  }

  function MigrateMember(lib: Library, o: Fields, key: string): Migrated {
    if !Get(o, key).Obj? then Ok(o)
    else
      var nested :- MigrateNested(lib, o[key].fields);
      Ok(o[key := Obj(nested)])
  }

  function MigrateRecord(lib: Library, o: Fields): Migrated {
    var schema :- MigrateSchemaField(o);
    var request :- MigrateMember(lib, schema, "request");
    var rawRound :- MigrateMember(lib, request, "raw_round");
    var payload :- MigrateMember(lib, rawRound, "payload");
    var extended :- MigrateExtensionsIn(lib, payload);
    if IsRawRound(extended) then MigrateRawRound(lib, extended) else Ok(extended)
  }

  // ------------------------------------------------------------------- the current format

  /** Extensions that need no rewriting: the old context name is gone and a context, if there
      is one, has exactly the three current members. */
  predicate CurrentExtensions(lib: Library, value: Json) {
    && value.Obj? && "ledgermind_context_v1" !in value.fields
    && ("ledgermind_context" in value.fields ==>
          && value.fields["ledgermind_context"].Obj?
          && var context := value.fields["ledgermind_context"].fields;
            context == StableContext(context) && ValidContext(lib, context))
  }

  predicate CurrentExtensionsIn(lib: Library, o: Fields) {
    "extensions" in o ==> CurrentExtensions(lib, o["extensions"])
  }

  /** Payload digest and idempotency key are both the digest of the body. */
  predicate CurrentDigests(lib: Library, o: Fields) {
    HasEvents(o) ==>
      && CanonicalBody(o).Ok?
      && Get(o, "payload_digest") == Str(lib.bodyDigest(CanonicalBody(o).value))
      && Get(o, "idempotency_key") == Str(lib.bodyDigest(CanonicalBody(o).value))
  }

  predicate CurrentRawRound(lib: Library, o: Fields) {
    "api_version" !in o && CurrentExtensionsIn(lib, o) && CurrentDigests(lib, o)
  }

  predicate CurrentNested(lib: Library, o: Fields) {
    if IsRawRound(o) then CurrentRawRound(lib, o) else CurrentExtensionsIn(lib, o)
  }

  predicate CurrentMember(lib: Library, o: Fields, key: string) {
    Get(o, key).Obj? ==> CurrentNested(lib, o[key].fields)
  }

  predicate CurrentRecord(lib: Library, o: Fields) {
    && "api_version" !in o && CurrentExtensionsIn(lib, o)
    && CurrentMember(lib, o, "request") && CurrentMember(lib, o, "raw_round") && CurrentMember(lib, o, "payload")
    && (IsRawRound(o) ==> CurrentDigests(lib, o))
  }

  // ----------------------------------------------------------------------------- theorems

  lemma {:induction false} ExtensionsBecomeCurrent(lib: Library, o: Fields)
    requires MigrateExtensionsIn(lib, o).Ok?
    ensures var r := MigrateExtensionsIn(lib, o).value;
      CurrentExtensionsIn(lib, r) && r - {"extensions"} == o - {"extensions"} && r.Keys == o.Keys
  {
  }

  lemma {:induction false} CurrentExtensionsStay(lib: Library, o: Fields)
    requires CurrentExtensionsIn(lib, o)
    ensures MigrateExtensionsIn(lib, o) == Ok(o)
  {
    if "extensions" in o && "ledgermind_context" in o["extensions"].fields {
      var extensions := o["extensions"].fields;
      var context := extensions["ledgermind_context"].fields;
      assert context["schema_version"] == Num(1.0);
      assert extensions - {"ledgermind_context_v1"} == extensions;
      assert extensions["ledgermind_context" := Obj(context)] == extensions;
    }
    if "extensions" in o {
      assert o["extensions" := o["extensions"]] == o;
    }
  }

  lemma {:induction false} DigestsBecomeCurrent(lib: Library, o: Fields)
    requires Digested(lib, o).Ok?
    ensures var r := Digested(lib, o).value;
      CurrentDigests(lib, r) && SamePayload(o, r) && Get(r, "extensions") == Get(o, "extensions")
      && ("extensions" in r <==> "extensions" in o)
  {
    BodyReadsSourceAndRound(o, Digested(lib, o).value);
  }

  lemma {:induction false} CurrentDigestsStay(lib: Library, o: Fields)
    requires CurrentDigests(lib, o)
    ensures Digested(lib, o) == Ok(o)
  {
    if HasEvents(o) {
      var digest := Str(lib.bodyDigest(CanonicalBody(o).value));
      assert o["payload_digest" := digest]["idempotency_key" := digest] == o;
    }
  }

  /** Source, round and the presence of a schema version are the same. */
  predicate SamePayload(a: Fields, b: Fields) {
    && Get(a, "source") == Get(b, "source") && Get(a, "round") == Get(b, "round")
    && ("source" in a <==> "source" in b) && ("round" in a <==> "round" in b)
    && ("schema_version" in a <==> "schema_version" in b) && ("api_version" in a <==> "api_version" in b)
  }

  lemma {:induction false} SchemaBecomesCurrent(o: Fields)
    requires MigrateSchemaField(o).Ok?
    ensures var r := MigrateSchemaField(o).value;
      && "api_version" !in r && (IsRawRound(r) <==> IsRawRound(o))
      && Get(r, "source") == Get(o, "source") && Get(r, "round") == Get(o, "round")
  {
  }

  lemma {:induction false} ExtensionsKeepPayload(lib: Library, o: Fields)
    requires MigrateExtensionsIn(lib, o).Ok?
    ensures SamePayload(o, MigrateExtensionsIn(lib, o).value)
  {
  }

  lemma {:induction false} SameIdentity(lib: Library, a: Fields, b: Fields)
    requires Get(a, "source") == Get(b, "source")
    ensures SourceIdentity(lib, a) == SourceIdentity(lib, b)
  {
  }

  /** A migrated raw round is in the current format, with the same source and round. */
  lemma {:induction false} RawRoundBecomesCurrent(lib: Library, o: Fields)
    requires MigrateRawRound(lib, o).Ok?
    ensures var r := MigrateRawRound(lib, o).value;
      && CurrentRawRound(lib, r) && (IsRawRound(r) <==> IsRawRound(o))
      && Get(r, "source") == Get(o, "source") && Get(r, "round") == Get(o, "round")
  {
    hide MigrateSchemaField, MigrateExtensionsIn, Digested, SourceIdentity, CurrentDigests, CurrentExtensions;
    var schema := MigrateSchemaField(o).value;
    var extended := MigrateExtensionsIn(lib, schema).value;
    SchemaBecomesCurrent(o);
    ExtensionsBecomeCurrent(lib, schema);
    ExtensionsKeepPayload(lib, schema);
    DigestsBecomeCurrent(lib, extended);
  }

  lemma {:induction false} CurrentRawRoundStays(lib: Library, o: Fields)
    requires CurrentRawRound(lib, o)
    ensures MigrateRawRound(lib, o) == Ok(o)
  {
    hide MigrateExtensionsIn, Digested, SourceIdentity, CurrentDigests, CurrentExtensionsIn;
    CurrentExtensionsStay(lib, o);
    CurrentDigestsStay(lib, o);
  }

  /** The check that migration left the source identity alone can never fail. */
  lemma {:induction false} IdentityNeverChanges(lib: Library, o: Fields)
    ensures MigrateRawRound(lib, o) != Err(IdentityChanged)
  {
    hide Digested, SourceIdentity, CurrentDigests, CurrentExtensionsIn, CurrentExtensions, ValidContext;
    var schema := MigrateSchemaField(o);
    if schema.Ok? {
      SchemaBecomesCurrent(o);
      var extended := MigrateExtensionsIn(lib, schema.value);
      if extended.Ok? {
        ExtensionsKeepPayload(lib, schema.value);
        var result := Digested(lib, extended.value);
        DigestedNotIdentity(lib, extended.value);
        if result.Ok? {
          DigestsBecomeCurrent(lib, extended.value);
          SameIdentity(lib, o, result.value);
        }
      }
    }
  }

  lemma {:induction false} DigestedNotIdentity(lib: Library, o: Fields)
    ensures Digested(lib, o) != Err(IdentityChanged)
  {
  }

  lemma {:induction false} NestedBecomesCurrent(lib: Library, o: Fields)
    requires MigrateNested(lib, o).Ok?
    ensures CurrentNested(lib, MigrateNested(lib, o).value)
  {
    hide MigrateRawRound, MigrateExtensionsIn, CurrentRawRound, CurrentExtensionsIn;
    if IsRawRound(o) {
      RawRoundBecomesCurrent(lib, o);
    } else {
      ExtensionsBecomeCurrent(lib, o);
      ExtensionsKeepPayload(lib, o);
    }
  }

  lemma {:induction false} CurrentNestedStays(lib: Library, o: Fields)
    requires CurrentNested(lib, o)
    ensures MigrateNested(lib, o) == Ok(o)
  {
    hide MigrateRawRound, MigrateExtensionsIn, CurrentRawRound, CurrentExtensionsIn;
    if IsRawRound(o) {
      CurrentRawRoundStays(lib, o);
    } else {
      CurrentExtensionsStay(lib, o);
    }
  }

  lemma {:induction false} MemberBecomesCurrent(lib: Library, o: Fields, key: string)
    requires MigrateMember(lib, o, key).Ok?
    ensures var r := MigrateMember(lib, o, key).value;
      CurrentMember(lib, r, key) && r - {key} == o - {key} && r.Keys == o.Keys
  {
    hide MigrateNested, CurrentNested;
    if Get(o, key).Obj? {
      NestedBecomesCurrent(lib, o[key].fields);
    }
  }

  lemma {:induction false} CurrentMemberStays(lib: Library, o: Fields, key: string)
    requires CurrentMember(lib, o, key)
    ensures MigrateMember(lib, o, key) == Ok(o)
  {
    hide MigrateNested, CurrentNested;
    if Get(o, key).Obj? {
      CurrentNestedStays(lib, o[key].fields);
      assert o[key := o[key]] == o;
    }
  }

  /** Outside the members named in `keys` the two records are the same. */
  predicate SameBut(a: Fields, b: Fields, keys: set<string>) {
    a - keys == b - keys
  }

  lemma {:induction false} SameElsewhere(lib: Library, a: Fields, b: Fields, keys: set<string>, key: string)
    requires SameBut(a, b, keys) && key !in keys
    ensures (key in a <==> key in b) && Get(a, key) == Get(b, key)
    ensures CurrentMember(lib, a, key) == CurrentMember(lib, b, key)
  {
    hide CurrentNested;
    assert key in a ==> key in a - keys;
    assert key in b ==> key in b - keys;
    assert key in a ==> a[key] == (a - keys)[key];
    assert key in b ==> b[key] == (b - keys)[key];
  }

  /** What migrating a raw round rewrites. */
  const ROUND_KEYS := {"api_version", "schema_version", "extensions", "payload_digest", "idempotency_key"}

  lemma {:induction false} RawRoundKeepsTheRest(lib: Library, o: Fields)
    requires MigrateRawRound(lib, o).Ok?
    ensures SameBut(o, MigrateRawRound(lib, o).value, ROUND_KEYS)
  {
    hide SourceIdentity, ValidContext, CanonicalBody;
    var schema := MigrateSchemaField(o).value;
    var extended := MigrateExtensionsIn(lib, schema).value;
    assert SameBut(o, schema, ROUND_KEYS);
    assert SameBut(schema, extended, ROUND_KEYS);
    assert SameBut(extended, Digested(lib, extended).value, ROUND_KEYS);
  }

  /** The record before its own digests are looked at. */
  function MigrateMembers(lib: Library, o: Fields): Migrated {
    var request :- MigrateMember(lib, o, "request");
    var rawRound :- MigrateMember(lib, request, "raw_round");
    var payload :- MigrateMember(lib, rawRound, "payload");
    MigrateExtensionsIn(lib, payload)
  }

  const MEMBER_KEYS := {"request", "raw_round", "payload", "extensions"}

  predicate CurrentMembers(lib: Library, o: Fields) {
    && CurrentExtensionsIn(lib, o)
    && CurrentMember(lib, o, "request") && CurrentMember(lib, o, "raw_round") && CurrentMember(lib, o, "payload")
  }

  lemma {:induction false} MembersBecomeCurrent(lib: Library, o: Fields)
    requires MigrateMembers(lib, o).Ok?
    ensures var r := MigrateMembers(lib, o).value;
      CurrentMembers(lib, r) && SameBut(o, r, MEMBER_KEYS) && r.Keys == o.Keys
  {
    hide MigrateMember, MigrateExtensionsIn, CurrentMember, CurrentExtensionsIn;
    var request := MigrateMember(lib, o, "request").value;
    var rawRound := MigrateMember(lib, request, "raw_round").value;
    var payload := MigrateMember(lib, rawRound, "payload").value;
    var r := MigrateExtensionsIn(lib, payload).value;
    MemberBecomesCurrent(lib, o, "request");
    MemberBecomesCurrent(lib, request, "raw_round");
    MemberBecomesCurrent(lib, rawRound, "payload");
    ExtensionsBecomeCurrent(lib, payload);
    SameElsewhere(lib, rawRound, request, {"raw_round"}, "request");
    SameElsewhere(lib, payload, rawRound, {"payload"}, "request");
    SameElsewhere(lib, payload, rawRound, {"payload"}, "raw_round");
    SameElsewhere(lib, r, payload, {"extensions"}, "request");
    SameElsewhere(lib, r, payload, {"extensions"}, "raw_round");
    SameElsewhere(lib, r, payload, {"extensions"}, "payload");
    SameButMore(o, request, {"request"}, MEMBER_KEYS);
    SameButMore(request, rawRound, {"raw_round"}, MEMBER_KEYS);
    SameButMore(rawRound, payload, {"payload"}, MEMBER_KEYS);
    SameButMore(payload, r, {"extensions"}, MEMBER_KEYS);
  }

  lemma {:induction false} SameButMore(a: Fields, b: Fields, keys: set<string>, more: set<string>)
    requires SameBut(a, b, keys) && keys <= more
    ensures SameBut(a, b, more)
  {
    assert a - more == (a - keys) - more;
    assert b - more == (b - keys) - more;
  }

  lemma {:induction false} CurrentMembersStay(lib: Library, o: Fields)
    requires CurrentMembers(lib, o)
    ensures MigrateMembers(lib, o) == Ok(o)
  {
    hide MigrateMember, MigrateExtensionsIn, CurrentMember, CurrentExtensionsIn;
    CurrentMemberStays(lib, o, "request");
    CurrentMemberStays(lib, o, "raw_round");
    CurrentMemberStays(lib, o, "payload");
    CurrentExtensionsStay(lib, o);
  }

  lemma {:induction false} RecordByMembers(lib: Library, o: Fields)
    ensures MigrateRecord(lib, o) ==
      var schema :- MigrateSchemaField(o);
      var extended :- MigrateMembers(lib, schema);
      if IsRawRound(extended) then MigrateRawRound(lib, extended) else Ok(extended)
  {
    hide MigrateMember, MigrateExtensionsIn, MigrateRawRound, MigrateSchemaField, IsRawRound;
  }

  /** Whatever migration accepts comes out in the current format. */
  lemma {:induction false} RecordBecomesCurrent(lib: Library, o: Fields)
    requires MigrateRecord(lib, o).Ok?
    ensures CurrentRecord(lib, MigrateRecord(lib, o).value)
  {
    hide MigrateMembers, MigrateRecord, MigrateRawRound, MigrateSchemaField, CurrentExtensionsIn, CurrentMember,
         CurrentDigests;
    RecordByMembers(lib, o);
    var schema := MigrateSchemaField(o).value;
    var extended := MigrateMembers(lib, schema).value;
    var r := MigrateRecord(lib, o).value;
    SchemaBecomesCurrent(o);
    MembersBecomeCurrent(lib, schema);
    SameElsewhere(lib, schema, extended, MEMBER_KEYS, "api_version");
    if IsRawRound(extended) {
      RawRoundBecomesCurrent(lib, extended);
      RawRoundKeepsTheRest(lib, extended);
      SameElsewhere(lib, extended, r, ROUND_KEYS, "request");
      SameElsewhere(lib, extended, r, ROUND_KEYS, "raw_round");
      SameElsewhere(lib, extended, r, ROUND_KEYS, "payload");
    }
  }

  /** A record in the current format is left exactly as it is. */
  lemma {:induction false} CurrentRecordStays(lib: Library, o: Fields)
    requires CurrentRecord(lib, o)
    ensures MigrateRecord(lib, o) == Ok(o)
  {
    hide MigrateMembers, MigrateRecord, MigrateRawRound, CurrentExtensionsIn, CurrentMember, CurrentDigests;
    RecordByMembers(lib, o);
    CurrentMembersStay(lib, o);
    if IsRawRound(o) {
      CurrentRawRoundStays(lib, o);
    }
  }

  /** Migration reaches its fixpoint after one application. */
  lemma {:induction false} MigrationIsFixpoint(lib: Library, o: Fields)
    requires MigrateRecord(lib, o).Ok?
    ensures MigrateRecord(lib, MigrateRecord(lib, o).value) == MigrateRecord(lib, o)
  {
    RecordBecomesCurrent(lib, o);
    CurrentRecordStays(lib, MigrateRecord(lib, o).value);
  }

  /** The delivery part plays no role: replacing it in a current record gives a current record. */
  lemma {:induction false} DeliveryIsIgnored(lib: Library, o: Fields, delivery: Json)
    requires CurrentRecord(lib, o)
    ensures CurrentRecord(lib, o["delivery" := delivery])
  {
    hide CurrentExtensionsIn, CurrentMember, CurrentDigests;
    var r := o["delivery" := delivery];
    assert r - {"delivery"} == o - {"delivery"};
    SameElsewhere(lib, o, r, {"delivery"}, "request");
    SameElsewhere(lib, o, r, {"delivery"}, "raw_round");
    SameElsewhere(lib, o, r, {"delivery"}, "payload");
    SameExtensions(lib, o, r);
    SameDigests(lib, o, r);
  }

  lemma {:induction false} SameExtensions(lib: Library, a: Fields, b: Fields)
    requires ("extensions" in a <==> "extensions" in b) && Get(a, "extensions") == Get(b, "extensions")
    ensures CurrentExtensionsIn(lib, a) == CurrentExtensionsIn(lib, b)
  {
    hide CurrentExtensions;
  }

  lemma {:induction false} SameDigests(lib: Library, a: Fields, b: Fields)
    requires Get(a, "source") == Get(b, "source") && Get(a, "round") == Get(b, "round")
    requires Get(a, "payload_digest") == Get(b, "payload_digest")
    requires Get(a, "idempotency_key") == Get(b, "idempotency_key")
    ensures CurrentDigests(lib, a) == CurrentDigests(lib, b)
  {
    BodyReadsSourceAndRound(a, b);
  }

  /** A migrated raw round with an events list carries the digest of its body twice, and the
      body is the one it had before. */
  lemma {:induction false} MigratedRoundIsDigested(lib: Library, o: Fields)
    requires MigrateRawRound(lib, o).Ok? && HasEvents(o)
    ensures var r := MigrateRawRound(lib, o).value;
      && CanonicalBody(r).Ok? && CanonicalBody(r) == CanonicalBody(o)
      && Get(r, "idempotency_key") == Get(r, "payload_digest") == Str(lib.bodyDigest(CanonicalBody(r).value))
  {
    hide MigrateRawRound, CanonicalBody, HasEvents, CurrentExtensionsIn;
    RawRoundBecomesCurrent(lib, o);
    BodyReadsSourceAndRound(o, MigrateRawRound(lib, o).value);
  }

  /** What migration may rewrite in a record. */
  const RECORD_KEYS := ROUND_KEYS + MEMBER_KEYS

  lemma {:induction false} RecordKeepsTheRest(lib: Library, o: Fields)
    requires MigrateRecord(lib, o).Ok?
    ensures SameBut(o, MigrateRecord(lib, o).value, RECORD_KEYS)
  {
    hide MigrateMembers, MigrateRecord, MigrateRawRound;
    RecordByMembers(lib, o);
    var schema := MigrateSchemaField(o).value;
    var extended := MigrateMembers(lib, schema).value;
    assert SameBut(o, schema, RECORD_KEYS);
    MembersBecomeCurrent(lib, schema);
    SameButMore(schema, extended, MEMBER_KEYS, RECORD_KEYS);
    if IsRawRound(extended) {
      RawRoundKeepsTheRest(lib, extended);
      SameButMore(extended, MigrateRecord(lib, o).value, ROUND_KEYS, RECORD_KEYS);
    }
  }

  /** The current format is exactly what migration leaves alone. */
  lemma {:induction false} CurrentIffUnchanged(lib: Library, o: Fields)
    ensures CurrentRecord(lib, o) <==> MigrateRecord(lib, o) == Ok(o)
  {
    hide MigrateRecord, CurrentRecord;
    if CurrentRecord(lib, o) {
      CurrentRecordStays(lib, o);
    }
    if MigrateRecord(lib, o) == Ok(o) {
      RecordBecomesCurrent(lib, o);
    }
  }

  lemma {:induction false} NestedIdentityNeverChanges(lib: Library, o: Fields, key: string)
    ensures MigrateMember(lib, o, key) != Err(IdentityChanged)
  {
    hide MigrateRawRound, MigrateExtensions;
    if Get(o, key).Obj? {
      IdentityNeverChanges(lib, o[key].fields);
      ExtensionsNotIdentity(lib, o[key].fields);
    }
  }

  lemma {:induction false} ExtensionsNotIdentity(lib: Library, o: Fields)
    ensures MigrateExtensionsIn(lib, o) != Err(IdentityChanged)
  {
    hide ValidContext;
  }

  /** No record, whatever it holds, makes migration report a changed source identity. */
  lemma {:induction false} RecordIdentityNeverChanges(lib: Library, o: Fields)
    ensures MigrateRecord(lib, o) != Err(IdentityChanged)
  {
    hide MigrateMember, MigrateExtensionsIn, MigrateRawRound, IsRawRound;
    var schema := MigrateSchemaField(o);
    if schema.Ok? {
      NestedIdentityNeverChanges(lib, schema.value, "request");
      var request := MigrateMember(lib, schema.value, "request");
      if request.Ok? {
        NestedIdentityNeverChanges(lib, request.value, "raw_round");
        var rawRound := MigrateMember(lib, request.value, "raw_round");
        if rawRound.Ok? {
          NestedIdentityNeverChanges(lib, rawRound.value, "payload");
          var payload := MigrateMember(lib, rawRound.value, "payload");
          if payload.Ok? {
            ExtensionsNotIdentity(lib, payload.value);
            var extended := MigrateExtensionsIn(lib, payload.value);
            if extended.Ok? {
              IdentityNeverChanges(lib, extended.value);
            }
          }
        }
      }
    }
  }
}
