/** A closed Hermes round against the rules of `RawRoundRequest`. */
module HermesRounds {
  import opened Options
  import opened JsonValue
  import opened Canonical
  import opened RawRounds
  import opened RoundRequests
  import opened HermesEvents

  predicate DistinctIds(ms: seq<Mark>) {
    forall i, j :: 0 <= i < j < |ms| ==> ms[i].id != ms[j].id
  }

  predicate UsesId(ms: seq<Mark>, id: string) {
    exists i :: 0 <= i < |ms| && ms[i].id == id
  }

  /** The round rules on marks. */
  ghost predicate MarkRules(ms: seq<Mark>) {
    && DistinctIds(ms)
    && (exists i :: 0 <= i < |ms| && ms[i].User?)
    && (exists i :: 0 <= i < |ms| && ms[i].Final?)
    && (forall i, j :: 0 <= i < j < |ms| ==> !(ms[i].Final? && ms[j].Final?))
    && (forall i, j :: 0 <= i < j < |ms| && ms[i].Call? && ms[j].Call? ==> ms[i].callId != ms[j].callId)
    && (forall i :: 0 <= i < |ms| && ms[i].Result? ==>
          exists j :: 0 <= j < |ms| && ms[j].Call? && ms[j].callId == ms[i].callId)
  }

  function EventView(spec: RoundSpec, f: Fields, i: nat, render: Render): View {
    ViewOf(NormalizeEvent(f, i, spec.roundId, render))
  }

  lemma {:induction false} ShapedId(f: Fields, i: nat, roundId: string, render: Render)
    requires Shaped(f)
    ensures EventId(f, i, roundId, render) == MarkOf(f).id != ""
    ensures KindOf(f, render) == Get(f, "kind")
  {
  }

  /** Marks and views say the same about an event the hooks made. */
  lemma {:induction false} MarkView(spec: RoundSpec, f: Fields, i: nat, render: Render)
    requires Shaped(f)
    ensures var v, m := EventView(spec, f, i, render), MarkOf(f);
      && v.id == Str(m.id) && v.sequence == Num(i as real)
      && (IsCall(v) <==> m.Call?) && (m.Call? ==> v.callId == Str(m.callId))
      && (IsResult(v) <==> m.Result?) && (m.Result? ==> v.callId == Str(m.callId))
      && (IsMessage(v, "user") <==> m.User?) && (IsFinalAssistant(v) <==> m.Final?)
  {
    hide EventId, KindOf, NormalizeEvent;
    ShapedId(f, i, spec.roundId, render);
    NormalizedView(f, i, spec.roundId, render);
  }

  lemma {:induction false} RulesByMarks(spec: RoundSpec, events: seq<Fields>, render: Render)
    requires forall i :: 0 <= i < |events| ==> Shaped(events[i])
    ensures RoundRules(Views(Normalized(spec, events, render))) <==> MarkRules(Marks(events))
  {
    hide Shaped, MarkOf, NormalizeEvent, ViewOf, IsCall, IsResult, IsMessage, IsFinalAssistant;
    var vs, ms := Views(Normalized(spec, events, render)), Marks(events);
    forall i | 0 <= i < |events|
      ensures vs[i].id == Str(ms[i].id) && vs[i].sequence == Num(i as real)
      ensures (IsCall(vs[i]) <==> ms[i].Call?) && (ms[i].Call? ==> vs[i].callId == Str(ms[i].callId))
      ensures (IsResult(vs[i]) <==> ms[i].Result?) && (ms[i].Result? ==> vs[i].callId == Str(ms[i].callId))
      ensures (IsMessage(vs[i], "user") <==> ms[i].User?) && (IsFinalAssistant(vs[i]) <==> ms[i].Final?)
    {
      MarkView(spec, events[i], i, render);
      assert vs[i] == EventView(spec, events[i], i, render);
    }
    RulesTransfer(vs, ms);
  }

  lemma {:induction false} RulesTransfer(vs: seq<View>, ms: seq<Mark>)
    requires |vs| == |ms|
    requires forall i :: 0 <= i < |vs| ==> vs[i].id == Str(ms[i].id) && vs[i].sequence == Num(i as real)
    requires forall i ::
      0 <= i < |vs| ==> (IsCall(vs[i]) <==> ms[i].Call?) && (ms[i].Call? ==> vs[i].callId == Str(ms[i].callId))
    requires forall i ::
      0 <= i < |vs| ==> (IsResult(vs[i]) <==> ms[i].Result?) && (ms[i].Result? ==> vs[i].callId == Str(ms[i].callId))
    requires forall i ::
      0 <= i < |vs| ==> (IsMessage(vs[i], "user") <==> ms[i].User?) && (IsFinalAssistant(vs[i]) <==> ms[i].Final?)
    ensures RoundRules(vs) <==> MarkRules(ms)
  {
    hide IsCall, IsResult, IsMessage, IsFinalAssistant;
    assert DistinctIds(ms) <==> forall i, j :: 0 <= i < j < |vs| ==> vs[i].id != vs[j].id;
    if RoundRules(vs) {
      forall i | 0 <= i < |ms| && ms[i].Result?
        ensures exists j :: 0 <= j < |ms| && ms[j].Call? && ms[j].callId == ms[i].callId
      {
        var j :| 0 <= j < |vs| && IsCall(vs[j]) && vs[j].callId == vs[i].callId;
        assert ms[j].Call? && ms[j].callId == ms[i].callId;
      }
    }
    if MarkRules(ms) {
      forall i | 0 <= i < |vs| && IsResult(vs[i])
        ensures exists j :: 0 <= j < |vs| && IsCall(vs[j]) && vs[j].callId == vs[i].callId
      {
        var j :| 0 <= j < |ms| && ms[j].Call? && ms[j].callId == ms[i].callId;
        assert IsCall(vs[j]) && vs[j].callId == vs[i].callId;
      }
    }
  }

  /** The content parts of an event are typed and free of nulls. */
  predicate CleanEvent(f: Fields) {
    && CleanContent(f)
    && var parts := Content(Either(f, "content", "api_content")); forall i :: 0 <= i < |parts| ==> StraysTyped(parts[i])
  }

  lemma {:induction false} TextIsClean(f: Fields)
    requires Get(f, "content").Str?
    ensures CleanEvent(f)
  {
    assert Content(f["content"]) == [TextPart(f["content"].s)];
  }

  lemma {:induction false} ShapedIsValid(spec: RoundSpec, f: Fields, i: nat, render: Render)
    requires Shaped(f) && CleanEvent(f)
    ensures ValidEvent(NormalizeEvent(f, i, spec.roundId, render))
  {
    hide EventId, KindOf, NormalizeEvent, ValidEvent, Content, StraysTyped, CleanContent;
    ShapedId(f, i, spec.roundId, render);
    NormalizedValidIff(f, i, spec.roundId, render);
  }

  /** A call or result that was turned into the answer is rejected. */
  lemma {:induction false} AnsweredToolIsInvalid(spec: RoundSpec, f: Fields, i: nat, render: Render, content: string)
    requires Shaped(f) && Get(f, "kind") != Str("message")
    ensures !ValidEvent(NormalizeEvent(Answered(f, content), i, spec.roundId, render))
  {
    hide EventId, KindOf, NormalizeEvent, ValidEvent, Content, StraysTyped;
    AnsweredId(f, i, spec.roundId, render, content);
    NormalizedValidIff(Answered(f, content), i, spec.roundId, render);
  }

  lemma {:induction false} AnsweredId(f: Fields, i: nat, roundId: string, render: Render, content: string)
    requires Shaped(f)
    ensures EventId(Answered(f, content), i, roundId, render) != ""
    ensures KindOf(Answered(f, content), render) == Get(f, "kind") == Get(Answered(f, content), "kind")
    ensures Get(Answered(f, content), "role") == Str("assistant")
  {
  }

  // ---------------------------------------------------------------------- closing a round

  ghost predicate AllClean(events: seq<Fields>) {
    forall i :: 0 <= i < |events| ==> CleanEvent(events[i])
  }

  lemma {:induction false} IdOfShaped(f: Fields)
    requires Shaped(f)
    ensures Get(f, "event_id") == Str(MarkOf(f).id)
  {
  }

  lemma {:induction false} IndexFindsId(events: seq<Fields>, id: string)
    requires forall i :: 0 <= i < |events| ==> Shaped(events[i])
    ensures IndexOfId(events, id) < |events| <==> UsesId(Marks(events), id)
  {
    hide Shaped, MarkOf, IndexOfId;
    forall i | 0 <= i < |events| ensures Get(events[i], "event_id") == Str(Marks(events)[i].id) {
      IdOfShaped(events[i]);
    }
    var k := IndexOfId(events, id);
    if k < |events| {
      assert Marks(events)[k].id == id;
    }
  }

  /** With its answer appended under an unused id, a tracked round obeys every rule. */
  lemma {:induction false} FreshAnswerObeys(r: string, c: Capture, id: string, content: string)
    requires Capturing(r, c) && HasUser(c.events) && id != ""
    requires DistinctIds(Marks(c.events)) && !UsesId(Marks(c.events), id)
    ensures MarkRules(Marks(AppendAssistant(c.events, id, content)))
    ensures AppendAssistant(c.events, id, content) == c.events + [AssistantEvent(id, content)]
  {
    hide MarkOf, Shaped, IndexOfId, AssistantEvent, HasUser, HasMark;
    IndexFindsId(c.events, id);
    FinalMark(id, content);
    var events := AppendAssistant(c.events, id, content);
    var ms := Marks(c.events);
    MarksAppend(c.events, AssistantEvent(id, content));
    assert Marks(events) == ms + [Final(id)];
    UserByMark(c.events);
    var u :| 0 <= u < |ms| && MarkOf(c.events[u]).User?;
    FreshFinalRules(r, ms, u, id);
  }

  lemma {:induction false} FreshFinalRules(r: string, ms: seq<Mark>, u: nat, id: string)
    requires Tracking(r, ms) && u < |ms| && ms[u].User? && DistinctIds(ms) && !UsesId(ms, id)
    ensures MarkRules(ms + [Final(id)])
  {
    var after := ms + [Final(id)];
    assert after[u].User? && after[|ms|].Final?;
    forall i | 0 <= i < |after| && after[i].Result?
      ensures exists j :: 0 <= j < |after| && after[j].Call? && after[j].callId == after[i].callId
    {
      assert HasMark(ms, Call(CallEventId(r, ms[i].callId), ms[i].callId));
      var j :| 0 <= j < |ms| && ms[j] == Call(CallEventId(r, ms[i].callId), ms[i].callId);
      assert after[j].Call? && after[j].callId == after[i].callId;
    }
  }

  lemma {:induction false} AnswerIsShaped(r: string, c: Capture, id: string, content: string)
    requires Capturing(r, c) && id != "" && !UsesId(Marks(c.events), id)
    ensures var events := AppendAssistant(c.events, id, content); forall i :: 0 <= i < |events| ==> Shaped(events[i])
    ensures AllClean(c.events) ==> AllClean(AppendAssistant(c.events, id, content))
  {
    hide MarkOf, Shaped, IndexOfId, CleanEvent, Tracking;
    IndexFindsId(c.events, id);
    FinalMark(id, content);
    TextIsClean(AssistantEvent(id, content));
  }

  /** An answer under an id already in use breaks the round: it overwrites the user message, or
      gives a tool event a role. */
  lemma {:induction false} UsedAnswerBreaks(spec: RoundSpec, c: Capture, id: string, content: string, render: Render)
    requires Capturing(spec.roundId, c) && UsesId(Marks(c.events), id)
    ensures var normalized := Normalized(spec, AppendAssistant(c.events, id, content), render);
      !(AllValid(normalized) && RoundRules(Views(normalized)))
  {
    hide MarkOf, Shaped, IndexOfId, NormalizeEvent, ValidEvent, Answered, RoundRules, HasMark;
    IndexFindsId(c.events, id);
    var k := IndexOfId(c.events, id);
    var events := AppendAssistant(c.events, id, content);
    var normalized := Normalized(spec, events, render);
    if Get(c.events[k], "kind") == Str("message") {
      OverwrittenUser(spec, c, k, content, render);
    } else {
      AnsweredToolIsInvalid(spec, c.events[k], k, render, content);
      assert !ValidEvent(normalized[k]);
    }
  }

  lemma {:induction false} OverwrittenUser(spec: RoundSpec, c: Capture, k: nat, content: string, render: Render)
    requires Capturing(spec.roundId, c) && k < |c.events| && Get(c.events[k], "kind") == Str("message")
    ensures !RoundRules(Views(Normalized(spec, c.events[k := Answered(c.events[k], content)], render)))
  {
    hide MarkOf, NormalizeEvent, Answered, HasMark, Shaped, Normalized, RoundRules;
    var events := c.events[k := Answered(c.events[k], content)];
    AnsweredMark(c.events[k], content);
    AnsweredShaped(c.events[k], content);
    RulesByMarks(spec, events, render);
    MessageIsUser(spec.roundId, c, k);
    var ms := Marks(events);
    forall i | 0 <= i < |ms| ensures !ms[i].User? {
      if i != k {
        assert ms[i] == Marks(c.events)[i];
        assert Marks(c.events)[k].User?;
      }
    }
  }

  lemma {:induction false} AnsweredShaped(f: Fields, content: string)
    requires Shaped(f) && Get(f, "kind") == Str("message")
    ensures Shaped(Answered(f, content))
  {
  }

  lemma {:induction false} MessageIsUser(r: string, c: Capture, k: nat)
    requires Capturing(r, c) && k < |c.events| && Get(c.events[k], "kind") == Str("message")
    ensures MarkOf(c.events[k]).User?
  {
    assert Marks(c.events)[k] == MarkOf(c.events[k]);
  }

  lemma {:induction false} SameIdsBreak(spec: RoundSpec, c: Capture, id: string, content: string, render: Render)
    requires Capturing(spec.roundId, c) && !UsesId(Marks(c.events), id) && !DistinctIds(Marks(c.events)) && id != ""
    ensures !RoundRules(Views(Normalized(spec, AppendAssistant(c.events, id, content), render)))
  {
    hide MarkOf, Shaped, IndexOfId, NormalizeEvent, AssistantEvent, Tracking, RoundRules, Normalized;
    IndexFindsId(c.events, id);
    FinalMark(id, content);
    var events := AppendAssistant(c.events, id, content);
    MarksAppend(c.events, AssistantEvent(id, content));
    RulesByMarks(spec, events, render);
    var i, j :| 0 <= i < j < |c.events| && Marks(c.events)[i].id == Marks(c.events)[j].id;
    assert Marks(events)[i].id == Marks(events)[j].id;
  }

  /** The request a reply leads to is accepted exactly when the answer's event id is not in use
      and the ids captured before it are distinct. */
  lemma {:induction false} ReplyAcceptedIff(lib: Library, spec: RoundSpec, c: Capture, id: string, content: string,
                                            render: Render)
    requires Capturing(spec.roundId, c) && HasUser(c.events) && AllClean(c.events) && id != ""
    ensures Accepts(lib, Build(lib, spec, AppendAssistant(c.events, id, content), render).value)
       <==> DistinctIds(Marks(c.events)) && !UsesId(Marks(c.events), id)
  {
    hide MarkOf, Shaped, IndexOfId, NormalizeEvent, AssistantEvent, Tracking, RoundRules, MarkRules, Normalized, Build,
         Accepts, ValidEvent, DistinctIds, UsesId, CleanEvent, Capturing, Answered, HasUser;
    var events := AppendAssistant(c.events, id, content);
    var normalized := Normalized(spec, events, render);
    if UsesId(Marks(c.events), id) {
      UsedAnswerBreaks(spec, c, id, content, render);
      BuiltAcceptedIff(lib, spec, events, render);
    } else {
      AnswerIsShaped(spec.roundId, c, id, content);
      forall i | 0 <= i < |events| ensures ValidEvent(normalized[i]) && CleanContent(events[i]) {
        NormalizedAt(spec, events, i, render);
        ShapedIsValid(spec, events[i], i, render);
        CleanIsClean(events[i]);
      }
      CleanBuiltAcceptedIff(lib, spec, events, render);
      if DistinctIds(Marks(c.events)) {
        FreshAnswerObeys(spec.roundId, c, id, content);
        RulesByMarks(spec, events, render);
      } else {
        SameIdsBreak(spec, c, id, content, render);
      }
    }
  }

  /** A mistyped stray member in some part makes the event invalid. */
  lemma {:induction false} StrayIsInvalid(spec: RoundSpec, f: Fields, i: nat, render: Render)
    requires Shaped(f) && CleanContent(f) && !CleanEvent(f)
    ensures !ValidEvent(NormalizeEvent(f, i, spec.roundId, render))
  {
    hide EventId, KindOf, NormalizeEvent, ValidEvent, Content, StraysTyped, CleanContent;
    ShapedId(f, i, spec.roundId, render);
    NormalizedValidIff(f, i, spec.roundId, render);
  }

  /** The same for content of any kind, with a digest that tells explicit nulls apart: the
      captured contents must be typed and free of nulls, too. */
  lemma {:induction false} ReplyAcceptedExactly(lib: Library, spec: RoundSpec, c: Capture, id: string, content: string,
                                                render: Render)
    requires Capturing(spec.roundId, c) && HasUser(c.events) && id != "" && TellsNullsApart(lib)
    ensures Accepts(lib, Build(lib, spec, AppendAssistant(c.events, id, content), render).value)
       <==> AllClean(c.events) && DistinctIds(Marks(c.events)) && !UsesId(Marks(c.events), id)
  {
    hide MarkOf, Shaped, IndexOfId, NormalizeEvent, AssistantEvent, Tracking, RoundRules, MarkRules, Normalized, Build,
         Accepts, ValidEvent, DistinctIds, UsesId, CleanEvent, Capturing, Answered, HasUser, TellsNullsApart,
         CleanContent;
    if AllClean(c.events) {
      ReplyAcceptedIff(lib, spec, c, id, content, render);
    } else {
      var events := AppendAssistant(c.events, id, content);
      BuiltAcceptedExactly(lib, spec, events, render);
      if UsesId(Marks(c.events), id) {
        UsedAnswerBreaks(spec, c, id, content, render);
      } else {
        var i :| 0 <= i < |c.events| && !CleanEvent(c.events[i]);
        AnswerIsShaped(spec.roundId, c, id, content);
        IndexFindsUnused(spec.roundId, c, id, content, i);
        if CleanContent(c.events[i]) {
          NormalizedAt(spec, events, i, render);
          StrayIsInvalid(spec, c.events[i], i, render);
        }
      }
    }
  }

  lemma {:induction false} IndexFindsUnused(r: string, c: Capture, id: string, content: string, i: nat)
    requires Capturing(r, c) && !UsesId(Marks(c.events), id) && i < |c.events|
    ensures var events := AppendAssistant(c.events, id, content); i < |events| && events[i] == c.events[i]
  {
    hide MarkOf, Shaped, IndexOfId, AssistantEvent, Tracking;
    IndexFindsId(c.events, id);
  }

  /** A text part with an explicit null beside its text: it passes `_is_canonical_content_part`
      and `RawContentPart`. */
  function NullPart(text: string): Json {
    Obj(map["type" := Str("text"), "text" := Str(text), "data" := Null])
  }

  lemma {:induction false} NullPartIsUnclean(id: string, text: string)
    requires id != ""
    ensures var f := UserEvent(id, Arr([NullPart(text)]));
      && IsCanonicalPart(NullPart(text)) && ValidPart(NullPart(text)) && !CleanContent(f)
      && Content(Either(f, "content", "api_content")) == [NullPart(text)]
  {
    var part, f := NullPart(text), UserEvent(id, Arr([NullPart(text)]));
    assert part.fields["data"] == Null && !CleanPart(part);
    assert IsCanonicalPart(part);
    var parts := Content(Either(f, "content", "api_content"));
    assert parts == [part] && !CleanPart(parts[0]);
  }

  /** A round whose user message has such a part: every event is valid and every rule is met, and
      the built request is rejected for its digest. */
  lemma {:induction false} NullPartIsRejected(lib: Library, spec: RoundSpec, user: string, answer: string, text: string,
                                              reply: string, render: Render)
    requires TellsNullsApart(lib) && user != "" && answer != "" && user != answer
    ensures var events := [UserEvent(user, Arr([NullPart(text)])), AssistantEvent(answer, reply)];
      var normalized := Normalized(spec, events, render);
      && AllValid(normalized) && RoundRules(Views(normalized))
      && !Accepts(lib, Build(lib, spec, events, render).value)
  {
    hide NormalizeEvent, RoundRules, Normalized, Build, Accepts, ValidEvent, TellsNullsApart, CleanContent, UserEvent,
         AssistantEvent, NullPart, Shaped, MarkOf, Content;
    var events := [UserEvent(user, Arr([NullPart(text)])), AssistantEvent(answer, reply)];
    NullPartIsUnclean(user, text);
    UserMark(user, Arr([NullPart(text)]));
    FinalMark(answer, reply);
    assert Marks(events) == [User(user), Final(answer)];
    TwoMarksObey(user, answer);
    RulesByMarks(spec, events, render);
    var normalized := Normalized(spec, events, render);
    forall i | 0 <= i < |events| ensures ValidEvent(normalized[i]) {
      NormalizedAt(spec, events, i, render);
      if i == 0 {
        NullEventIsValid(spec, events[0], text, render);
      } else {
        TextContent(answer, reply);
        TextIsClean(events[1]);
        ShapedIsValid(spec, events[1], 1, render);
      }
    }
    BuiltAcceptedExactly(lib, spec, events, render);
  }

  lemma {:induction false} TextContent(id: string, content: string)
    ensures Get(AssistantEvent(id, content), "content").Str?
  {
  }

  lemma {:induction false} TwoMarksObey(user: string, answer: string)
    requires user != answer
    ensures MarkRules([User(user), Final(answer)])
  {
    var ms := [User(user), Final(answer)];
    assert ms[0].User? && ms[1].Final?;
  }

  lemma {:induction false} NullEventIsValid(spec: RoundSpec, f: Fields, text: string, render: Render)
    requires Shaped(f) && Content(Either(f, "content", "api_content")) == [NullPart(text)]
    ensures ValidEvent(NormalizeEvent(f, 0, spec.roundId, render))
  {
    hide EventId, KindOf, NormalizeEvent, ValidEvent, Content;
    ShapedId(f, 0, spec.roundId, render);
    NormalizedValidIff(f, 0, spec.roundId, render);
  }

  lemma {:induction false} NormalizedAt(spec: RoundSpec, events: seq<Fields>, i: nat, render: Render)
    requires i < |events|
    ensures Normalized(spec, events, render)[i] == NormalizeEvent(events[i], i, spec.roundId, render)
  {
    hide NormalizeEvent;
  }

  lemma {:induction false} CleanIsClean(f: Fields)
    requires CleanEvent(f)
    ensures CleanContent(f)
  {
    hide CleanContent;
  }
}
