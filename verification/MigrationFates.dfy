/** What migration does to a record and to each file of a spool, read off their members: which
    are accepted, what becomes of a context, of the schema name and of the digests, and what
    stays as it is. */
module MigrationFates {
  import opened Options
  import opened JsonValue
  import opened Disks
  import opened Canonical
  import opened RecordMigration
  import SpoolMigration
  import opened Members

  // ------------------------------------------------------------------------- the extensions

  predicate Identifier(lib: Library, j: Json) {
    j.Str? && |j.s| <= 500 && exists i :: 0 <= i < |j.s| && !lib.isSpace(j.s[i])
  }

  /** A context that can be kept: of the first schema, which it need not name, with an identifier
      and at most a hundred distinct ones. */
  predicate ContextAccepted(lib: Library, c: Fields) {
    && ("schema_version" in c ==> c["schema_version"] in [Num(1.0), Bool(true), Str("1")])
    && "retrieval_request_id" in c && Identifier(lib, c["retrieval_request_id"])
    && "delivered_value_ids" in c && c["delivered_value_ids"].Arr?
    && var ids := c["delivered_value_ids"].items;
      && |ids| <= 100
      && (forall i :: 0 <= i < |ids| ==> Identifier(lib, ids[i]))
      && (forall i, k :: 0 <= i < k < |ids| ==> ids[i] != ids[k])
  }

  predicate ExtensionsAccepted(lib: Library, e: Json) {
    && e.Obj? && !("ledgermind_context_v1" in e.fields && "ledgermind_context" in e.fields)
    && forall key :: key in ["ledgermind_context_v1", "ledgermind_context"] && key in e.fields ==>
         e.fields[key].Obj? && ContextAccepted(lib, e.fields[key].fields)
  }

  /** The context under its new name: the request id and the value ids it had, and no more. */
  ghost predicate ContextKept(c: Fields, r: Fields) {
    && r.Keys == {"schema_version", "retrieval_request_id", "delivered_value_ids"}
    && r["schema_version"] == Num(1.0)
    && "retrieval_request_id" in c && r["retrieval_request_id"] == c["retrieval_request_id"]
    && "delivered_value_ids" in c && r["delivered_value_ids"] == c["delivered_value_ids"]
  }

  ghost predicate ExtensionsKept(a: Fields, b: Fields) {
    && AlikeBut(a, b, {"ledgermind_context_v1", "ledgermind_context"}) && "ledgermind_context_v1" !in b
    && ("ledgermind_context" in b <==> "ledgermind_context" in a || "ledgermind_context_v1" in a)
    && forall key :: key in ["ledgermind_context_v1", "ledgermind_context"] && key in a ==>
         && a[key].Obj? && "ledgermind_context" in b && b["ledgermind_context"].Obj?
         && ContextKept(a[key].fields, b["ledgermind_context"].fields)
  }

  lemma {:induction false} SchemaOfContext(j: Json)
    ensures PyEqual(j, Num(1.0)) || j == Str("1") <==> j in [Num(1.0), Bool(true), Str("1")]
  {
  }

  lemma {:induction false} ContextAcceptedIff(lib: Library, c: Fields)
    ensures ContextAccepted(lib, c) <==>
      var schema := if "schema_version" in c then c["schema_version"] else Num(1.0);
      (PyEqual(schema, Num(1.0)) || schema == Str("1")) && ValidContext(lib, StableContext(c))
  {
    SchemaOfContext(if "schema_version" in c then c["schema_version"] else Num(1.0));
    assert forall j :: IsIdentifier(lib, j) <==> Identifier(lib, j);
  }

  lemma {:induction false} AcceptedIsKept(lib: Library, c: Fields)
    ensures ContextAccepted(lib, c) ==> ContextKept(c, StableContext(c))
  {
  }

  /** Extensions migrate exactly when their context can be kept, and then it is. */
  lemma {:induction false} ExtensionsMigrate(lib: Library, e: Json)
    ensures MigrateExtensions(lib, e).Ok? <==> ExtensionsAccepted(lib, e)
    ensures MigrateExtensions(lib, e).Ok? ==> ExtensionsKept(e.fields, MigrateExtensions(lib, e).value)
  {
    hide ContextAccepted, ValidContext, PyEqual;
    var names := ["ledgermind_context_v1", "ledgermind_context"];
    if e.Obj? {
      forall key | key in names && key in e.fields && e.fields[key].Obj?
        ensures var c := e.fields[key].fields;
          ContextAccepted(lib, c) <==>
          var schema := if "schema_version" in c then c["schema_version"] else Num(1.0);
          (PyEqual(schema, Num(1.0)) || schema == Str("1")) && ValidContext(lib, StableContext(c))
        ensures var c := e.fields[key].fields; ContextAccepted(lib, c) ==> ContextKept(c, StableContext(c))
      {
        ContextAcceptedIff(lib, e.fields[key].fields);
        AcceptedIsKept(lib, e.fields[key].fields);
      }
      assert names[0] in names && names[1] in names;
    }
  }

  // -------------------------------------------------------------------- rounds and records

  /** The old schema name, if there is one, says two, and the new one does not contradict it. */
  predicate SchemaAccepted(o: Fields) {
    "api_version" in o ==>
      && o["api_version"] in [Num(2.0), Str("2")]
      && ("schema_version" in o ==> o["schema_version"] in [Null, Num(2.0)])
  }

  predicate OwnExtensionsAccepted(lib: Library, o: Fields) {
    "extensions" in o ==> ExtensionsAccepted(lib, o["extensions"])
  }

  /** A raw round by its shape. */
  predicate Rawish(o: Fields) {
    "source" in o && "round" in o && ("api_version" in o || "schema_version" in o)
  }

  /** The round holds an events list. */
  predicate ListsEvents(o: Fields) {
    && "source" in o && o["source"].Obj? && "round" in o && o["round"].Obj?
    && "events" in o["round"].fields && o["round"].fields["events"].Arr?
  }

  predicate EventsAccepted(o: Fields) {
    ListsEvents(o) ==>
      var events := o["round"].fields["events"].items; forall i :: 0 <= i < |events| ==> events[i].Obj?
  }

  predicate NestedAccepted(lib: Library, o: Fields) {
    OwnExtensionsAccepted(lib, o) && (Rawish(o) ==> SchemaAccepted(o) && EventsAccepted(o))
  }

  predicate RecordAccepted(lib: Library, o: Fields) {
    && SchemaAccepted(o) && OwnExtensionsAccepted(lib, o) && (Rawish(o) ==> EventsAccepted(o))
    && MemberAccepted(lib, o, "request") && MemberAccepted(lib, o, "raw_round") && MemberAccepted(lib, o, "payload")
  }

  /** The member `extensions` is there or not as before, and migrated. */
  ghost predicate OwnExtensionsKept(o: Fields, r: Fields) {
    && ("extensions" in o <==> "extensions" in r)
    && ("extensions" in o ==>
          && o["extensions"].Obj? && r["extensions"].Obj?
          && ExtensionsKept(o["extensions"].fields, r["extensions"].fields))
  }

  /** The old schema name is gone; where it stood, the new one says two. */
  ghost predicate SchemaRenamed(o: Fields, r: Fields) {
    && "api_version" !in r
    && (if "api_version" in o then Says(r, "schema_version", Num(2.0))
        else AlikeIn(o, r, "schema_version"))
  }

  ghost predicate AlikeIn(a: Fields, b: Fields, key: string) {
    (key in a <==> key in b) && (key in a ==> a[key] == b[key])
  }

  /** Both digest members say the digest of the body, which was there before. */
  ghost predicate DigestsSet(lib: Library, o: Fields, r: Fields) {
    if ListsEvents(o) then
      CanonicalBody(o).Ok? && forall key :: key in ["payload_digest", "idempotency_key"] ==>
        Says(r, key, Str(lib.bodyDigest(CanonicalBody(o).value)))
    else AlikeIn(o, r, "payload_digest") && AlikeIn(o, r, "idempotency_key")
  }

  /** A raw round after migration. */
  ghost predicate RoundMigrated(lib: Library, o: Fields, r: Fields) {
    && SchemaRenamed(o, r) && OwnExtensionsKept(o, r) && DigestsSet(lib, o, r)
    && AlikeBut(o, r, {"api_version", "schema_version", "extensions", "payload_digest", "idempotency_key"})
  }

  ghost predicate NestedMigrated(lib: Library, o: Fields, r: Fields) {
    if Rawish(o) then RoundMigrated(lib, o, r) else OwnExtensionsKept(o, r) && AlikeBut(o, r, {"extensions"})
  }

  ghost predicate MemberMigrated(lib: Library, o: Fields, r: Fields, key: string) {
    if key in o && o[key].Obj? then key in r && r[key].Obj? && NestedMigrated(lib, o[key].fields, r[key].fields)
    else AlikeIn(o, r, key)
  }

  /** A record after migration. */
  ghost predicate RecordMigrated(lib: Library, o: Fields, r: Fields) {
    && SchemaRenamed(o, r) && OwnExtensionsKept(o, r)
    && (if Rawish(o) then DigestsSet(lib, o, r)
        else AlikeIn(o, r, "payload_digest") && AlikeIn(o, r, "idempotency_key"))
    && MemberMigrated(lib, o, r, "request") && MemberMigrated(lib, o, r, "raw_round")
    && MemberMigrated(lib, o, r, "payload")
    && AlikeBut(o, r, {"api_version", "schema_version", "extensions", "payload_digest", "idempotency_key",
                       "request", "raw_round", "payload"})
  }

  lemma {:induction false} SchemaMigrates(o: Fields)
    ensures MigrateSchemaField(o).Ok? <==> SchemaAccepted(o)
    ensures MigrateSchemaField(o).Ok? ==>
      SchemaRenamed(o, MigrateSchemaField(o).value)
      && AlikeBut(o, MigrateSchemaField(o).value, {"api_version", "schema_version"})
  {
  }

  lemma {:induction false} OwnExtensionsMigrate(lib: Library, o: Fields)
    ensures MigrateExtensionsIn(lib, o).Ok? <==> OwnExtensionsAccepted(lib, o)
    ensures MigrateExtensionsIn(lib, o).Ok? ==>
      OwnExtensionsKept(o, MigrateExtensionsIn(lib, o).value)
      && AlikeBut(o, MigrateExtensionsIn(lib, o).value, {"extensions"})
  {
    hide MigrateExtensions, ExtensionsAccepted, ExtensionsKept;
    if "extensions" in o {
      ExtensionsMigrate(lib, o["extensions"]);
      ExtensionsNeedObject(lib, o["extensions"]);
    }
  }

  lemma {:induction false} ExtensionsNeedObject(lib: Library, e: Json)
    ensures MigrateExtensions(lib, e).Ok? ==> e.Obj?
  {
  }

  lemma {:induction false} DigestsMigrate(lib: Library, o: Fields)
    ensures Digested(lib, o).Ok? <==> EventsAccepted(o)
    ensures Digested(lib, o).Ok? ==>
      DigestsSet(lib, o, Digested(lib, o).value)
      && AlikeBut(o, Digested(lib, o).value, {"payload_digest", "idempotency_key"})
  {
    assert HasEvents(o) <==> ListsEvents(o);
  }

  /** Records that agree on these members agree on what is asked of them. */
  lemma {:induction false} AlikeAccepted(lib: Library, o: Fields, r: Fields)
    ensures AlikeIn(o, r, "extensions") ==> OwnExtensionsAccepted(lib, o) == OwnExtensionsAccepted(lib, r)
    ensures AlikeIn(o, r, "source") && AlikeIn(o, r, "round") ==>
      EventsAccepted(o) == EventsAccepted(r) && ListsEvents(o) == ListsEvents(r) && CanonicalBody(o) == CanonicalBody(r)
  {
    hide ExtensionsAccepted;
    if AlikeIn(o, r, "source") && AlikeIn(o, r, "round") {
      BodyReadsSourceAndRound(o, r);
    }
  }

  lemma {:induction false} RoundInSteps(lib: Library, o: Fields, schema: Fields, extended: Fields, r: Fields)
    requires SchemaRenamed(o, schema) && AlikeBut(o, schema, {"api_version", "schema_version"})
    requires OwnExtensionsKept(schema, extended) && AlikeBut(schema, extended, {"extensions"})
    requires DigestsSet(lib, extended, r) && AlikeBut(extended, r, {"payload_digest", "idempotency_key"})
    ensures RoundMigrated(lib, o, r)
  {
    hide CanonicalBody, ExtensionsKept, ListsEvents, AlikeBut;
    AlikeOutside(o, schema, {"api_version", "schema_version"});
    AlikeOutside(schema, extended, {"extensions"});
    AlikeOutside(extended, r, {"payload_digest", "idempotency_key"});
    AlikeThen(o, schema, extended, {"api_version", "schema_version"}, {"extensions"});
    AlikeOutside(o, extended, {"api_version", "schema_version"} + {"extensions"});
    AlikeThen(o, extended, r, {"api_version", "schema_version"} + {"extensions"},
              {"payload_digest", "idempotency_key"});
    AlikeAccepted(lib, o, extended);
    assert {"api_version", "schema_version"} + {"extensions"} + {"payload_digest", "idempotency_key"}
        == {"api_version", "schema_version", "extensions", "payload_digest", "idempotency_key"};
  }

  lemma {:induction false} AlikeOutside(a: Fields, b: Fields, keys: set<string>)
    requires AlikeBut(a, b, keys)
    ensures forall k :: k !in keys ==> AlikeIn(a, b, k)
  {
  }

  lemma {:induction false} AlikeThen(a: Fields, b: Fields, c: Fields, k1: set<string>, k2: set<string>)
    requires AlikeBut(a, b, k1) && AlikeBut(b, c, k2)
    ensures AlikeBut(a, c, k1 + k2)
  {
  }

  /** A raw round migrates exactly when it is accepted, and this becomes of it. */
  lemma {:induction false} RoundMigrates(lib: Library, o: Fields)
    ensures MigrateRawRound(lib, o).Ok? <==> SchemaAccepted(o) && OwnExtensionsAccepted(lib, o) && EventsAccepted(o)
    ensures MigrateRawRound(lib, o).Ok? ==> RoundMigrated(lib, o, MigrateRawRound(lib, o).value)
  {
    hide MigrateSchemaField, MigrateExtensionsIn, Digested, SchemaAccepted, OwnExtensionsAccepted, EventsAccepted;
    hide RoundMigrated, SchemaRenamed, OwnExtensionsKept, DigestsSet, CanonicalBody, SourceIdentity;
    IdentityNeverChanges(lib, o);
    SchemaMigrates(o);
    if SchemaAccepted(o) {
      var schema := MigrateSchemaField(o).value;
      assert AlikeIn(o, schema, "extensions");
      AlikeAccepted(lib, o, schema);
      OwnExtensionsMigrate(lib, schema);
      if OwnExtensionsAccepted(lib, schema) {
        var extended := MigrateExtensionsIn(lib, schema).value;
        assert AlikeIn(o, extended, "source") && AlikeIn(o, extended, "round");
        AlikeAccepted(lib, o, extended);
        DigestsMigrate(lib, extended);
        if EventsAccepted(extended) {
          RoundInSteps(lib, o, schema, extended, Digested(lib, extended).value);
        }
      }
    }
  }

  lemma {:induction false} NestedMigrates(lib: Library, o: Fields)
    ensures MigrateNested(lib, o).Ok? <==> NestedAccepted(lib, o)
    ensures MigrateNested(lib, o).Ok? ==> NestedMigrated(lib, o, MigrateNested(lib, o).value)
  {
    hide MigrateRawRound, MigrateExtensionsIn, SchemaAccepted, OwnExtensionsAccepted, EventsAccepted, RoundMigrated;
    hide OwnExtensionsKept, AlikeBut;
    RoundMigrates(lib, o);
    OwnExtensionsMigrate(lib, o);
  }

  predicate MemberAccepted(lib: Library, o: Fields, key: string) {
    key in o && o[key].Obj? ==> NestedAccepted(lib, o[key].fields)
  }

  lemma {:induction false} MemberMigrates(lib: Library, o: Fields, key: string)
    ensures MigrateMember(lib, o, key).Ok? <==> MemberAccepted(lib, o, key)
    ensures MigrateMember(lib, o, key).Ok? ==>
      MemberMigrated(lib, o, MigrateMember(lib, o, key).value, key)
      && AlikeBut(o, MigrateMember(lib, o, key).value, {key})
  {
    hide MigrateNested, NestedAccepted, NestedMigrated;
    if key in o && o[key].Obj? {
      NestedMigrates(lib, o[key].fields);
    }
  }

  lemma {:induction false} MemberElsewhere(lib: Library, a: Fields, b: Fields, c: Fields, key: string)
    requires AlikeIn(a, b, key)
    ensures MemberAccepted(lib, a, key) == MemberAccepted(lib, b, key)
    ensures MemberMigrated(lib, a, c, key) == MemberMigrated(lib, b, c, key)
  {
    hide NestedAccepted, NestedMigrated;
  }

  lemma {:induction false} MemberLater(lib: Library, a: Fields, b: Fields, c: Fields, key: string)
    requires AlikeIn(b, c, key) && MemberMigrated(lib, a, b, key)
    ensures MemberMigrated(lib, a, c, key)
  {
    hide NestedMigrated;
  }

  /** The members of a record, when it is migrated but for its own schema and digests. */
  ghost predicate MembersMigrated(lib: Library, o: Fields, r: Fields) {
    && OwnExtensionsKept(o, r)
    && MemberMigrated(lib, o, r, "request") && MemberMigrated(lib, o, r, "raw_round")
    && MemberMigrated(lib, o, r, "payload")
    && AlikeBut(o, r, {"request", "raw_round", "payload", "extensions"})
  }

  predicate MembersAccepted(lib: Library, o: Fields) {
    && OwnExtensionsAccepted(lib, o)
    && MemberAccepted(lib, o, "request") && MemberAccepted(lib, o, "raw_round") && MemberAccepted(lib, o, "payload")
  }

  lemma {:induction false} MembersInSteps(lib: Library, o: Fields, a: Fields, b: Fields, c: Fields, r: Fields)
    requires MemberMigrated(lib, o, a, "request") && AlikeBut(o, a, {"request"})
    requires MemberMigrated(lib, a, b, "raw_round") && AlikeBut(a, b, {"raw_round"})
    requires MemberMigrated(lib, b, c, "payload") && AlikeBut(b, c, {"payload"})
    requires OwnExtensionsKept(c, r) && AlikeBut(c, r, {"extensions"})
    ensures MembersMigrated(lib, o, r)
  {
    hide MemberMigrated, ExtensionsKept, AlikeBut;
    AlikeThen(o, a, b, {"request"}, {"raw_round"});
    AlikeThen(o, b, c, {"request"} + {"raw_round"}, {"payload"});
    AlikeThen(o, c, r, {"request"} + {"raw_round"} + {"payload"}, {"extensions"});
    AlikeThen(b, c, r, {"payload"}, {"extensions"});
    AlikeThen(a, b, c, {"raw_round"}, {"payload"});
    AlikeThen(a, c, r, {"raw_round"} + {"payload"}, {"extensions"});
    assert {"request"} + {"raw_round"} + {"payload"} + {"extensions"}
        == {"request", "raw_round", "payload", "extensions"};
    AlikeOutside(o, a, {"request"});
    AlikeOutside(o, b, {"request"} + {"raw_round"});
    AlikeOutside(o, c, {"request"} + {"raw_round"} + {"payload"});
    AlikeOutside(a, r, {"raw_round"} + {"payload"} + {"extensions"});
    AlikeOutside(b, r, {"payload"} + {"extensions"});
    AlikeOutside(c, r, {"extensions"});
    MemberLater(lib, o, a, r, "request");
    MemberLater(lib, a, b, r, "raw_round");
    MemberLater(lib, b, c, r, "payload");
    MemberElsewhere(lib, o, a, r, "raw_round");
    MemberElsewhere(lib, o, b, r, "payload");
  }

  lemma {:induction false} MembersMigrate(lib: Library, o: Fields)
    ensures MigrateMembers(lib, o).Ok? <==> MembersAccepted(lib, o)
    ensures MigrateMembers(lib, o).Ok? ==> MembersMigrated(lib, o, MigrateMembers(lib, o).value)
  {
    hide MigrateMember, MigrateExtensionsIn, MemberAccepted, MemberMigrated, OwnExtensionsAccepted, OwnExtensionsKept;
    hide AlikeBut, AlikeIn, MembersMigrated;
    MemberMigrates(lib, o, "request");
    if MemberAccepted(lib, o, "request") {
      var a := MigrateMember(lib, o, "request").value;
      MembersUntouched(lib, o, a, {"request"});
      MemberMigrates(lib, a, "raw_round");
      if MemberAccepted(lib, a, "raw_round") {
        var b := MigrateMember(lib, a, "raw_round").value;
        MembersUntouched(lib, a, b, {"raw_round"});
        MemberMigrates(lib, b, "payload");
        if MemberAccepted(lib, b, "payload") {
          var c := MigrateMember(lib, b, "payload").value;
          MembersUntouched(lib, b, c, {"payload"});
          OwnExtensionsMigrate(lib, c);
          if OwnExtensionsAccepted(lib, c) {
            MembersInSteps(lib, o, a, b, c, MigrateExtensionsIn(lib, c).value);
          }
        }
      }
    }
  }

  /** What is not touched is accepted as before. */
  lemma {:induction false} MembersUntouched(lib: Library, a: Fields, b: Fields, keys: set<string>)
    requires AlikeBut(a, b, keys)
    ensures "raw_round" !in keys ==> MemberAccepted(lib, a, "raw_round") == MemberAccepted(lib, b, "raw_round")
    ensures "payload" !in keys ==> MemberAccepted(lib, a, "payload") == MemberAccepted(lib, b, "payload")
    ensures "request" !in keys ==> MemberAccepted(lib, a, "request") == MemberAccepted(lib, b, "request")
    ensures "extensions" !in keys ==> OwnExtensionsAccepted(lib, a) == OwnExtensionsAccepted(lib, b)
  {
    hide NestedAccepted, ExtensionsAccepted, AlikeBut;
    AlikeOutside(a, b, keys);
  }

  // -------------------------------------------------------------------------- whole records

  /** Keeping twice is keeping. */
  lemma {:induction false} KeptTwice(a: Fields, b: Fields, c: Fields)
    requires ExtensionsKept(a, b) && ExtensionsKept(b, c)
    ensures ExtensionsKept(a, c)
  {
    hide ContextKept;
    var names := ["ledgermind_context_v1", "ledgermind_context"];
    assert names[0] in names && names[1] in names;
    forall key | key in names && key in a
      ensures "ledgermind_context" in c && c["ledgermind_context"].Obj?
        && ContextKept(a[key].fields, c["ledgermind_context"].fields)
    {
      ContextTwice(a[key].fields, b["ledgermind_context"].fields, c["ledgermind_context"].fields);
    }
  }

  lemma {:induction false} ContextTwice(a: Fields, b: Fields, c: Fields)
    requires ContextKept(a, b) && ContextKept(b, c)
    ensures ContextKept(a, c)
  {
  }

  lemma {:induction false} RecordInSteps(lib: Library, o: Fields, schema: Fields, x: Fields, r: Fields)
    requires SchemaRenamed(o, schema) && AlikeBut(o, schema, {"api_version", "schema_version"})
    requires MembersMigrated(lib, schema, x)
    requires if Rawish(o) then RoundMigrated(lib, x, r) else r == x
    ensures RecordMigrated(lib, o, r)
  {
    hide CanonicalBody, ExtensionsKept, ListsEvents, AlikeBut, MemberMigrated, DigestsSet, OwnExtensionsKept, AlikeIn;
    var members := {"request", "raw_round", "payload", "extensions"};
    var own := {"api_version", "schema_version", "extensions", "payload_digest", "idempotency_key"};
    var all := {"api_version", "schema_version", "extensions", "payload_digest", "idempotency_key",
                "request", "raw_round", "payload"};
    var versions := {"api_version", "schema_version"};
    AlikeThen(o, schema, x, versions, members);
    AlikeOutside(o, x, versions + members);
    MembersAfterSchema(lib, o, schema, x);
    SchemaThen(o, schema, x);
    if Rawish(o) {
      RoundOnTop(lib, o, x, r);
      AlikeThen(o, x, r, versions + members, own);
      AlikeOutside(x, r, own);
      MemberLater(lib, o, x, r, "request");
      MemberLater(lib, o, x, r, "raw_round");
      MemberLater(lib, o, x, r, "payload");
      AlikeMore(o, r, versions + members + own, all);
      SchemaThen(o, x, r);
    } else {
      AlikeMore(o, r, versions + members, all);
    }
  }

  lemma {:induction false} MembersAfterSchema(lib: Library, o: Fields, schema: Fields, x: Fields)
    requires AlikeBut(o, schema, {"api_version", "schema_version"}) && MembersMigrated(lib, schema, x)
    ensures MemberMigrated(lib, o, x, "request") && MemberMigrated(lib, o, x, "raw_round")
    ensures MemberMigrated(lib, o, x, "payload") && OwnExtensionsKept(o, x)
    ensures AlikeIn(schema, x, "schema_version") && AlikeIn(schema, x, "api_version")
  {
    hide MemberMigrated, ExtensionsKept, AlikeBut;
    AlikeOutside(o, schema, {"api_version", "schema_version"});
    AlikeOutside(schema, x, {"request", "raw_round", "payload", "extensions"});
    MemberElsewhere(lib, o, schema, x, "request");
    MemberElsewhere(lib, o, schema, x, "raw_round");
    MemberElsewhere(lib, o, schema, x, "payload");
    assert AlikeIn(o, schema, "extensions");
  }

  lemma {:induction false} SchemaThen(o: Fields, a: Fields, b: Fields)
    requires SchemaRenamed(o, a) && AlikeIn(a, b, "schema_version") && AlikeIn(a, b, "api_version")
    ensures SchemaRenamed(o, b)
  {
  }

  lemma {:induction false} AlikeMore(a: Fields, b: Fields, keys: set<string>, more: set<string>)
    requires AlikeBut(a, b, keys) && keys <= more
    ensures AlikeBut(a, b, more)
  {
  }

  /** The record's own round, migrated after its members. */
  lemma {:induction false} RoundOnTop(lib: Library, o: Fields, x: Fields, r: Fields)
    requires "api_version" !in x && AlikeIn(o, x, "source") && AlikeIn(o, x, "round")
    requires AlikeIn(o, x, "payload_digest") && AlikeIn(o, x, "idempotency_key")
    requires OwnExtensionsKept(o, x) && RoundMigrated(lib, x, r)
    ensures AlikeIn(x, r, "schema_version") && AlikeIn(x, r, "api_version")
    ensures OwnExtensionsKept(o, r) && DigestsSet(lib, o, r)
  {
    hide CanonicalBody, ExtensionsKept, ListsEvents, AlikeBut;
    AlikeAccepted(lib, o, x);
    if "extensions" in o {
      KeptTwice(o["extensions"].fields, x["extensions"].fields, r["extensions"].fields);
    }
  }

  /** A record migrates exactly when it is accepted, and this becomes of it. */
  lemma {:induction false} RecordMigrates(lib: Library, o: Fields)
    ensures MigrateRecord(lib, o).Ok? <==> RecordAccepted(lib, o)
    ensures MigrateRecord(lib, o).Ok? ==> RecordMigrated(lib, o, MigrateRecord(lib, o).value)
  {
    hide MigrateSchemaField, MigrateMembers, MigrateRawRound, MigrateRecord, SchemaAccepted, EventsAccepted;
    hide MemberAccepted, OwnExtensionsAccepted, RoundMigrated, RecordMigrated, SchemaRenamed, MembersMigrated, AlikeBut;
    hide CurrentExtensionsIn, CurrentMember;
    RecordByMembers(lib, o);
    SchemaMigrates(o);
    if SchemaAccepted(o) {
      var schema := MigrateSchemaField(o).value;
      MembersUntouched(lib, o, schema, {"api_version", "schema_version"});
      MembersMigrate(lib, schema);
      if MembersAccepted(lib, schema) {
        var x := MigrateMembers(lib, schema).value;
        SameShape(lib, o, schema, x);
        MembersBecomeCurrent(lib, schema);
        CurrentExtensionsStay(lib, x);
        OwnExtensionsMigrate(lib, x);
        RoundMigrates(lib, x);
        if !Rawish(o) || EventsAccepted(o) {
          RecordInSteps(lib, o, schema, x, MigrateRecord(lib, o).value);
        }
      }
    }
  }

  lemma {:induction false} SameShape(lib: Library, o: Fields, schema: Fields, x: Fields)
    requires SchemaRenamed(o, schema) && AlikeBut(o, schema, {"api_version", "schema_version"})
    requires MembersMigrated(lib, schema, x)
    ensures Rawish(o) == Rawish(x) && EventsAccepted(o) == EventsAccepted(x) && SchemaAccepted(x)
  {
    hide ExtensionsKept, MemberMigrated, AlikeBut, EventsAccepted, OwnExtensionsKept;
    AlikeOutside(o, schema, {"api_version", "schema_version"});
    AlikeOutside(schema, x, {"request", "raw_round", "payload", "extensions"});
    assert AlikeIn(o, schema, "source") && AlikeIn(o, schema, "round");
    assert AlikeIn(schema, x, "source") && AlikeIn(schema, x, "round");
    assert AlikeIn(schema, x, "schema_version") && AlikeIn(schema, x, "api_version");
    AlikeAccepted(lib, o, x);
  }

  // ------------------------------------------------------------------------- the whole spool

  /** A failed record that is to be tried again. */
  predicate WantsRetry(o: Fields) {
    && "request" in o && o["request"].Obj? && "delivery" in o && o["delivery"].Obj?
    && (Says(o["delivery"].fields, "retryable", Bool(true)) || Says(o, "retryable", Bool(true)))
  }

  /** Every file that is read can be read and is accepted; a ready file that an inflight file of
      its name replaces is not read. */
  ghost predicate AllAccepted(lib: Library, d: Disk) {
    forall p :: p in d ==>
      || (Readable(d[p]) && RecordAccepted(lib, d[p].value.fields))
      || (p.dir == Ready && Path(Inflight, p.name) in d)
  }

  /** The file holds the migrated record, or is as before when Python calls the two equal. */
  ghost predicate InPlace(lib: Library, f: File, f': File) {
    && Readable(f)
    && exists r :: RecordMigrated(lib, f.value.fields, r)
         && f' == if PyEqual(Obj(r), f.value) then f else Doc(Obj(r))
  }

  /** The file holds the migrated record, due at once, with these members cleared from its
      delivery part. */
  ghost predicate MadeReady(lib: Library, f: File, f': File, cleared: set<string>) {
    && Readable(f) && Readable(f')
    && exists r :: RecordMigrated(lib, f.value.fields, r)
         && Redelivered(r, f'.value.fields, cleared + {"next_attempt_at"})
         && (forall k :: k in cleared ==> k !in f'.value.fields["delivery"].fields)
         && Says(f'.value.fields["delivery"].fields, "next_attempt_at", Num(0.0))
  }

  /** Where the files of one name end. */
  ghost predicate NameMigrated(lib: Library, d: Disk, d': Disk, name: string) {
    var pending, ready, inflight, failed :=
      Path(Pending, name), Path(Ready, name), Path(Inflight, name), Path(Failed, name);
    var again := failed in d && Readable(d[failed]) && WantsRetry(d[failed].value.fields);
    && inflight !in d'
    && (pending in d <==> pending in d') && (pending in d ==> InPlace(lib, d[pending], d'[pending]))
    && (failed in d' <==> failed in d && !again) && (failed in d' ==> InPlace(lib, d[failed], d'[failed]))
    && (ready in d' <==> again || inflight in d || ready in d)
    && (ready in d' ==>
          if again then
            MadeReady(lib, d[failed], d'[ready], {"failure_reason", "worker_id", "claimed_at"})
          else if inflight in d then MadeReady(lib, d[inflight], d'[ready], {"worker_id", "claimed_at"})
          else InPlace(lib, d[ready], d'[ready]))
  }

  lemma {:induction false} RetryAsBefore(lib: Library, o: Fields, r: Fields)
    requires RecordMigrated(lib, o, r)
    ensures SpoolMigration.Retryable(r) <==> WantsRetry(o)
  {
    hide NestedMigrated, SchemaRenamed, OwnExtensionsKept, DigestsSet, ListsEvents;
    assert AlikeIn(o, r, "delivery") && AlikeIn(o, r, "retryable");
  }

  /** What the plan makes of a file, in terms of its members. */
  ghost predicate MigratesAs(lib: Library, f: File) {
    && (SpoolMigration.Migratable(lib, f) <==> Readable(f) && RecordAccepted(lib, f.value.fields))
    && (SpoolMigration.Migratable(lib, f) ==>
          var r := SpoolMigration.MigrateFile(lib, f).value;
          && InPlace(lib, f, SpoolMigration.Settled(lib, f))
          && (SpoolMigration.Retryable(r) <==> WantsRetry(f.value.fields))
          && MadeReady(lib, f, Doc(Obj(SpoolMigration.Recovered(r))), {"worker_id", "claimed_at"})
          && MadeReady(lib, f, Doc(Obj(SpoolMigration.Promoted(r))), {"failure_reason", "worker_id", "claimed_at"}))
  }

  lemma {:induction false} FileMigrates(lib: Library, f: File)
    ensures MigratesAs(lib, f)
  {
    hide MigrateRecord, RecordAccepted, RecordMigrated, PyEqual;
    if Readable(f) {
      RecordMigrates(lib, f.value.fields);
      if MigrateRecord(lib, f.value.fields).Ok? {
        RetryAsBefore(lib, f.value.fields, MigrateRecord(lib, f.value.fields).value);
      }
    }
  }

  /** `migrate_spool` succeeds exactly when every file it reads is accepted, and then the files
      of every name end as their members say. */
  lemma {:induction false} SpoolMigrates(lib: Library, d: Disk)
    ensures var m := SpoolMigration.MigratePlan(lib, d);
      && (m.result.Ok? <==> AllAccepted(lib, d))
      && (m.result.Ok? ==> forall name :: NameMigrated(lib, d, Run(d, m.prims), name))
  {
    hide Run, RecordAccepted, SpoolMigration.MigratePlan, SpoolMigration.Migratable, SpoolMigration.IsFinal;
    hide SpoolMigration.SameAlong, SpoolMigration.Finished, NameMigrated;
    var m := SpoolMigration.MigratePlan(lib, d);
    SpoolMigration.MigrationWorks(lib, d);
    forall p | p in d
      ensures SpoolMigration.GoodAt(lib, d, p) <==>
        (Readable(d[p]) && RecordAccepted(lib, d[p].value.fields)) || (p.dir == Ready && Path(Inflight, p.name) in d)
    {
      FileMigrates(lib, d[p]);
    }
    if m.result.Ok? {
      forall name ensures NameMigrated(lib, d, Run(d, m.prims), name) {
        FinalByName(lib, d, Run(d, m.prims), name);
      }
    }
  }

  lemma {:induction false} FinalByName(lib: Library, d: Disk, d': Disk, name: string)
    requires SpoolMigration.Good(lib, d) && SpoolMigration.IsFinal(lib, d, d')
    ensures NameMigrated(lib, d, d', name)
  {
    hide SpoolMigration.Migratable, SpoolMigration.MigrateFile, SpoolMigration.Retryable, SpoolMigration.Settled;
    hide SpoolMigration.Recovered, SpoolMigration.Promoted, InPlace, MadeReady, RecordAccepted;
    forall dir: Dir
      ensures SpoolMigration.At(d', Path(dir, name)) == SpoolMigration.FinalAt(lib, d, Path(dir, name))
      ensures SpoolMigration.GoodAt(lib, d, Path(dir, name))
    {
    }
    forall dir: Dir | Path(dir, name) in d ensures MigratesAs(lib, d[Path(dir, name)]) {
      FileMigrates(lib, d[Path(dir, name)]);
    }
    assert SpoolMigration.GoodAt(lib, d, Path(Failed, name)) && SpoolMigration.GoodAt(lib, d, Path(Inflight, name));
    assert SpoolMigration.GoodAt(lib, d, Path(Pending, name)) && SpoolMigration.GoodAt(lib, d, Path(Ready, name));
  }
}
