/** The payload compaction of the lifecycle bridge: sheds the largest tool payloads of a round
    until it fits, with exact byte accounting. */
module Compaction {
  import opened JsonValue
  import opened RawRounds
  import opened InlineBinary
  import Utf8

  /** How values are encoded: the length of printed numbers and the encoding itself, of which
      only the digest is used. */
  datatype Codec = Codec(tools: Tools, numLen: NumLen, encode: Json -> seq<Utf8.Byte>)

  function Omitted(value: Json, codec: Codec): Json {
    var marker: Fields := map[
      "ledgermind_omitted" := Bool(true),
      "reason" := Str("raw_round_payload_budget"),
      "original_bytes" := Num(Size(value, codec.numLen) as real),
      "sha256" := Str(codec.tools.hash(codec.encode(value)))];
    Obj(if value.Str? && !IsInline(value.s) then marker["preview" := Str(Upto(value.s, 512))] else marker)
  }

  /** The payload member of a tool event, or "" when it has none. */
  function PayloadField(event: Json): string {
    if !event.Obj? then ""
    else if Get(event.fields, "kind") == Str("tool_call") && "arguments" in event.fields then "arguments"
    else if Get(event.fields, "kind") == Str("tool_result") && "content" in event.fields then "content"
    else ""
  }

  function PayloadOf(event: Json): Json
    requires PayloadField(event) != ""
  {
    event.fields[PayloadField(event)]
  }

  function PayloadSize(event: Json, codec: Codec): nat
    requires PayloadField(event) != ""
  {
    Size(PayloadOf(event), codec.numLen)
  }

  /** The event with its payload omitted. */
  function Shed(event: Json, codec: Codec): Json {
    if PayloadField(event) == "" then event
    else Obj(event.fields[PayloadField(event) := Omitted(PayloadOf(event), codec)])
  }

  // ------------------------------------------------------------------------- candidates

  datatype Candidate = Candidate(size: nat, index: nat)

  /** Descending by size, then by index. */
  predicate Precedes(a: Candidate, b: Candidate) {
    a.size > b.size || (a.size == b.size && a.index > b.index)
  }

  ghost predicate Descending(cs: seq<Candidate>) {
    forall i, j :: 0 <= i < j < |cs| ==> Precedes(cs[i], cs[j])
  }

  function Insert(c: Candidate, cs: seq<Candidate>): seq<Candidate> {
    if cs == [] || Precedes(c, cs[0]) then [c] + cs else [cs[0]] + Insert(c, cs[1..])
  }

  predicate IndicesBelow(cs: seq<Candidate>, n: nat) {
    forall i :: 0 <= i < |cs| ==> cs[i].index < n
  }

  /** The tool payloads among the first `n` events, largest first. */
  function Candidates(events: seq<Json>, n: nat, codec: Codec): seq<Candidate>
    requires n <= |events|
  {
    if n == 0 then []
    else
      var before := Candidates(events, n - 1, codec);
      if PayloadField(events[n - 1]) == "" then before
      else Insert(Candidate(PayloadSize(events[n - 1], codec), n - 1), before)
  }

  lemma {:induction false} InsertKeeps(c: Candidate, cs: seq<Candidate>)
    requires Descending(cs) && forall i :: 0 <= i < |cs| ==> cs[i].index != c.index
    ensures Descending(Insert(c, cs)) && forall x :: x in Insert(c, cs) <==> x == c || x in cs
  {
    if cs != [] && !Precedes(c, cs[0]) {
      var tail := cs[1..];
      InsertKeeps(c, tail);
      var rest := Insert(c, tail);
      assert forall x :: x in cs <==> x == cs[0] || x in tail;
      forall j | 0 <= j < |rest| ensures Precedes(cs[0], rest[j]) {
        assert rest[j] in rest;
        if rest[j] != c {
          var k :| 0 <= k < |tail| && tail[k] == rest[j];
          assert Precedes(cs[0], cs[k + 1]);
        }
      }
    }
  }

  predicate IsCandidate(events: seq<Json>, n: nat, codec: Codec, c: Candidate)
    requires n <= |events|
  {
    c.index < n && PayloadField(events[c.index]) != "" && c.size == PayloadSize(events[c.index], codec)
  }

  lemma {:induction false} CandidatesAreRight(events: seq<Json>, n: nat, codec: Codec)
    requires n <= |events|
    ensures Descending(Candidates(events, n, codec))
    ensures forall c :: c in Candidates(events, n, codec) <==> IsCandidate(events, n, codec, c)
  {
    hide Size, PayloadField;
    if n > 0 {
      CandidatesAreRight(events, n - 1, codec);
      var before := Candidates(events, n - 1, codec);
      forall i | 0 <= i < |before| ensures before[i].index != n - 1 {
        assert before[i] in before;
      }
      if PayloadField(events[n - 1]) != "" {
        InsertKeeps(Candidate(PayloadSize(events[n - 1], codec), n - 1), before);
      }
    }
  }

  // --------------------------------------------------------------------------- the result

  function Sizes(events: seq<Json>, codec: Codec): (r: seq<nat>)
    ensures |r| == |events|
  {
    seq(|events|, i requires 0 <= i < |events| => Size(events[i], codec.numLen))
  }

  function Total(events: seq<Json>, codec: Codec): nat {
    SumSeq(Sizes(events, codec))
  }

  /** The events with the payloads of the first `k` candidates omitted. */
  function ShedFirst(events: seq<Json>, order: seq<Candidate>, k: nat, codec: Codec): (r: seq<Json>)
    requires k <= |order| && IndicesBelow(order, |events|)
    ensures |r| == |events|
  {
    if k == 0 then events
    else
      var before := ShedFirst(events, order, k - 1, codec);
      var i := order[k - 1].index;
      before[i := Shed(before[i], codec)]
  }

  /** Nothing more needs to go: the round fits, and the largest payload left does. */
  predicate Fits(events: seq<Json>, order: seq<Candidate>, k: nat, maxEncoded: int, maxItem: int, codec: Codec)
    requires k <= |order| && IndicesBelow(order, |events|)
  {
    Total(ShedFirst(events, order, k, codec), codec) <= maxEncoded && (k < |order| ==> order[k].size <= maxItem)
  }

  /** `k` candidates were omitted: the fewest, from the largest down, that make it fit, or all. */
  predicate IsShortest(events: seq<Json>, order: seq<Candidate>, k: nat, maxEncoded: int, maxItem: int, codec: Codec)
    requires IndicesBelow(order, |events|)
  {
    && k <= |order| && (k < |order| ==> Fits(events, order, k, maxEncoded, maxItem, codec))
    && forall j :: 0 <= j < k ==> !Fits(events, order, j, maxEncoded, maxItem, codec)
  }

  function SanitizeAll(events: seq<Json>, codec: Codec): (r: seq<Json>)
    ensures |r| == |events|
  {
    seq(|events|, i requires 0 <= i < |events| => Sanitize(events[i], codec.tools))
  }

  lemma {:induction false} OrderIsBelow(events: seq<Json>, codec: Codec)
    ensures IndicesBelow(Candidates(events, |events|, codec), |events|)
  {
    var order := Candidates(events, |events|, codec);
    CandidatesAreRight(events, |events|, codec);
    forall i | 0 <= i < |order| ensures order[i].index < |events| {
      assert order[i] in order;
    }
  }

  /** Omitting one payload changes the total by exactly the difference of the two sizes. */
  lemma {:induction false} ShedSize(events: seq<Json>, i: nat, codec: Codec)
    requires i < |events| && PayloadField(events[i]) != ""
    ensures Total(events[i := Shed(events[i], codec)], codec)
         == Total(events, codec) - PayloadSize(events[i], codec)
            + Size(Omitted(PayloadOf(events[i]), codec), codec.numLen)
  {
    hide Size, PayloadField, Omitted;
    var after := Shed(events[i], codec);
    PayloadIsObject(events[i]);
    SizeOfReplacedField(events[i].fields, PayloadField(events[i]), Omitted(PayloadOf(events[i]), codec), codec.numLen);
    assert Sizes(events[i := after], codec) == Sizes(events, codec)[i := Size(after, codec.numLen)];
    SumSeqUpdate(Sizes(events, codec), i, Size(after, codec.numLen));
    assert events[i] == Obj(events[i].fields);
  }

  lemma {:induction false} PayloadIsObject(event: Json)
    requires PayloadField(event) != ""
    ensures event.Obj? && PayloadField(event) in event.fields
  {
  }

  predicate Untouched(order: seq<Candidate>, k: nat, i: nat)
    requires k <= |order|
  {
    forall j :: 0 <= j < k ==> order[j].index != i
  }

  /** Each event was shed at most once, and only if it is among the first `k`. */
  lemma {:induction false} ShedFirstAt(events: seq<Json>, order: seq<Candidate>, k: nat, codec: Codec, i: nat)
    requires k <= |order| && IndicesBelow(order, |events|) && i < |events|
    requires forall a, b :: 0 <= a < b < |order| ==> order[a].index != order[b].index
    ensures ShedFirst(events, order, k, codec)[i]
         == if Untouched(order, k, i) then events[i] else Shed(events[i], codec)
  {
    hide Shed;
    if k > 0 {
      ShedFirstAt(events, order, k - 1, codec, i);
    }
  }

  lemma {:induction false} OrderIndices(events: seq<Json>, codec: Codec)
    ensures var order := Candidates(events, |events|, codec);
      && IndicesBelow(order, |events|)
      && (forall a, b :: 0 <= a < b < |order| ==> order[a].index != order[b].index)
      && (forall a :: 0 <= a < |order| ==> IsCandidate(events, |events|, codec, order[a]))
  {
    hide Size, PayloadField;
    var order := Candidates(events, |events|, codec);
    CandidatesAreRight(events, |events|, codec);
    OrderIsBelow(events, codec);
    forall a | 0 <= a < |order| ensures IsCandidate(events, |events|, codec, order[a]) {
      assert order[a] in order;
    }
  }

  /** The next candidate's event is still as it was when it was measured. */
  lemma {:induction false} NextIsUntouched(events: seq<Json>, k: nat, codec: Codec)
    requires k < |Candidates(events, |events|, codec)|
    ensures var order := Candidates(events, |events|, codec);
      && IndicesBelow(order, |events|)
      && ShedFirst(events, order, k, codec)[order[k].index] == events[order[k].index]
      && PayloadField(events[order[k].index]) != "" && order[k].size == PayloadSize(events[order[k].index], codec)
  {
    hide Size, PayloadField, Shed;
    var order := Candidates(events, |events|, codec);
    OrderIndices(events, codec);
    ShedFirstAt(events, order, k, codec, order[k].index);
    assert IsCandidate(events, |events|, codec, order[k]);
  }

  /** `_compact_tool_events`. `k` counts the payloads omitted. */
  method CompactToolEvents(events: seq<Json>, maxEncoded: int, maxItem: int, codec: Codec)
    returns (compacted: seq<Json>, k: nat)
    ensures var clean := SanitizeAll(events, codec);
      var order := Candidates(clean, |clean|, codec);
      && IndicesBelow(order, |clean|) && IsShortest(clean, order, k, maxEncoded, maxItem, codec)
      && compacted == ShedFirst(clean, order, k, codec)
  {
    hide Size, PayloadField, Omitted, Shed, Sanitize;
    ghost var clean := SanitizeAll(events, codec);
    compacted := [];
    var currentSize := 0;
    for i := 0 to |events|
      invariant compacted == clean[..i] && currentSize == Total(compacted, codec)
    {
      var event := Sanitize(events[i], codec.tools);
      TotalAppend(compacted, event, codec);
      compacted := compacted + [event];
      currentSize := currentSize + Size(event, codec.numLen);
    }
    assert clean[..|events|] == clean;
    var candidates: seq<Candidate> := [];
    for i := 0 to |compacted|
      invariant candidates == Candidates(clean, i, codec)
    {
      if PayloadField(compacted[i]) != "" {
        candidates := Insert(Candidate(PayloadSize(compacted[i], codec), i), candidates);
      }
    }
    OrderIndices(clean, codec);
    k := 0;
    while k < |candidates|
      invariant k <= |candidates| && candidates == Candidates(clean, |clean|, codec)
      invariant IndicesBelow(candidates, |clean|)
      invariant compacted == ShedFirst(clean, candidates, k, codec)
      invariant currentSize == Total(compacted, codec)
      invariant forall j :: 0 <= j < k ==> !Fits(clean, candidates, j, maxEncoded, maxItem, codec)
    {
      if currentSize <= maxEncoded && candidates[k].size <= maxItem {
        return;
      }
      NextIsUntouched(clean, k, codec);
      var i := candidates[k].index;
      ShedSize(compacted, i, codec);
      ShedIsReplacement(compacted[i], codec);
      var marker := Omitted(PayloadOf(compacted[i]), codec);
      compacted := compacted[i := Obj(compacted[i].fields[PayloadField(compacted[i]) := marker])];
      currentSize := currentSize + Size(marker, codec.numLen) - candidates[k].size;
      k := k + 1;
    }
  }

  lemma {:induction false} ShedIsReplacement(event: Json, codec: Codec)
    requires PayloadField(event) != ""
    ensures event.Obj?
    ensures Shed(event, codec) == Obj(event.fields[PayloadField(event) := Omitted(PayloadOf(event), codec)])
  {
  }

  lemma {:induction false} TotalAppend(events: seq<Json>, event: Json, codec: Codec)
    ensures Total(events + [event], codec) == Total(events, codec) + Size(event, codec.numLen)
  {
    hide Size;
    assert Sizes(events + [event], codec) == Sizes(events, codec) + [Size(event, codec.numLen)];
    SumSeqAppend(Sizes(events, codec), Size(event, codec.numLen));
  }

  lemma {:induction false} SumSeqAppend(sizes: seq<nat>, v: nat)
    ensures SumSeq(sizes + [v]) == SumSeq(sizes) + v
  {
    if sizes != [] {
      SumSeqAppend(sizes[1..], v);
      assert (sizes + [v])[1..] == sizes[1..] + [v];
    }
  }

  // ------------------------------------------------------------------ what it guarantees

  /** Which payloads go is determined: there is only one shortest prefix. */
  lemma {:induction false} ShortestIsUnique(events: seq<Json>, order: seq<Candidate>, k: nat, l: nat, maxEncoded: int,
                                            maxItem: int, codec: Codec)
    requires IndicesBelow(order, |events|)
    requires IsShortest(events, order, k, maxEncoded, maxItem, codec)
    requires IsShortest(events, order, l, maxEncoded, maxItem, codec)
    ensures k == l
  {
    hide Fits;
  }

  /** Whatever payload is left is within the item limit, even when the round as a whole cannot
      be made to fit. */
  lemma {:induction false} PayloadsLeftFit(events: seq<Json>, k: nat, maxEncoded: int, maxItem: int, codec: Codec,
                                           i: nat)
    requires i < |events| && PayloadField(events[i]) != ""
    requires var order := Candidates(events, |events|, codec);
      IndicesBelow(order, |events|) && IsShortest(events, order, k, maxEncoded, maxItem, codec)
      && Untouched(order, k, i)
    ensures PayloadSize(events[i], codec) <= maxItem
  {
    hide Size, PayloadField, Total, ShedFirst;
    var order := Candidates(events, |events|, codec);
    var c := Candidate(PayloadSize(events[i], codec), i);
    CandidatesAreRight(events, |events|, codec);
    assert IsCandidate(events, |events|, codec, c);
    var p :| 0 <= p < |order| && order[p] == c;
    assert p >= k;
    if p > k {
      assert Precedes(order[k], order[p]);
    }
  }

  lemma {:induction false} ObjectSizeAtLeastTwo(event: Json, codec: Codec)
    requires event.Obj?
    ensures Size(event, codec.numLen) >= 2
  {
    ObjectSize(event.fields, codec.numLen);
  }

  lemma {:induction false} ShedStaysObject(event: Json, codec: Codec)
    requires event.Obj?
    ensures Shed(event, codec).Obj?
  {
  }

  /** A budget of one byte omits every tool payload. */
  lemma {:induction false} TinyBudgetShedsAll(events: seq<Json>, k: nat, maxItem: int, codec: Codec)
    requires var order := Candidates(events, |events|, codec);
      IndicesBelow(order, |events|) && IsShortest(events, order, k, 1, maxItem, codec)
    ensures k == |Candidates(events, |events|, codec)|
  {
    hide Size, PayloadField, Shed, SumSeq;
    var order := Candidates(events, |events|, codec);
    OrderIndices(events, codec);
    if k < |order| {
      var i := order[0].index;
      var after := ShedFirst(events, order, k, codec);
      ShedFirstAt(events, order, k, codec, i);
      PayloadIsObject(events[i]);
      ShedStaysObject(events[i], codec);
      ObjectSizeAtLeastTwo(after[i], codec);
      SumSeqMember(Sizes(after, codec), i);
    }
  }

  predicate NoInlineBinary(events: seq<Json>) {
    forall i :: 0 <= i < |events| ==> Clean(events[i])
  }

  lemma {:induction false} PreviewIsClean(s: string)
    requires !IsInline(s)
    ensures !IsInline(Upto(s, 512))
  {
    hide Contains;
    assert Upto(Upto(s, 512), 256) == Upto(s, 256);
    if "data:" <= Upto(s, 512) {
      assert "data:" <= s;
    }
  }

  lemma {:induction false} OmittedIsClean(value: Json, codec: Codec)
    requires Plain(codec.tools) && Clean(value)
    ensures Clean(Omitted(value, codec))
  {
    hide IsInline;
    NoSemicolonIsClean("raw_round_payload_budget");
    NoSemicolonIsClean(codec.tools.hash(codec.encode(value)));
    if value.Str? {
      PreviewIsClean(value.s);
    }
  }

  lemma {:induction false} ShedIsClean(event: Json, codec: Codec)
    requires Plain(codec.tools) && Clean(event)
    ensures Clean(Shed(event, codec))
  {
    hide IsInline, Omitted;
    if PayloadField(event) != "" {
      OmittedIsClean(PayloadOf(event), codec);
    }
  }

  /** Markers and previews bring no inline binary back. */
  lemma {:induction false} CompactedIsClean(events: seq<Json>, k: nat, codec: Codec)
    requires Plain(codec.tools)
    requires var clean := SanitizeAll(events, codec);
      k <= |Candidates(clean, |clean|, codec)| && IndicesBelow(Candidates(clean, |clean|, codec), |clean|)
    ensures var clean := SanitizeAll(events, codec);
      NoInlineBinary(ShedFirst(clean, Candidates(clean, |clean|, codec), k, codec))
  {
    hide Size, PayloadField, Shed, Sanitize, Clean;
    var clean := SanitizeAll(events, codec);
    var order := Candidates(clean, |clean|, codec);
    OrderIndices(clean, codec);
    forall i | 0 <= i < |clean| ensures Clean(ShedFirst(clean, order, k, codec)[i]) {
      SanitizeCleans(events[i], codec.tools);
      ShedFirstAt(clean, order, k, codec, i);
      ShedIsClean(clean[i], codec);
    }
  }

  /** The text of a content part, if it has one. */
  function PartText(part: Json): string {
    if part.Obj? && Get(part.fields, "text").Str? then part.fields["text"].s else ""
  }

  /** A content part's text is never longer than the encoding of the whole value. */
  lemma {:induction false} PartTextWithin(value: Json, i: nat, numLen: NumLen)
    requires i < |Content(value)|
    ensures |PartText(Content(value)[i])| <= Size(value, numLen)
  {
    hide CharsSize;
    var part := Content(value)[i];
    if value.Str? {
      assert part == TextPart(value.s);
    } else if value.Arr? && Content(value) == value.items {
      var sizes := seq(|value.items|, j requires 0 <= j < |value.items| => Size(value.items[j], numLen));
      SumSeqMember(sizes, i);
      if part.Obj? && "text" in part.fields {
        FieldSizeBound(part.fields, "text", numLen);
      }
    } else {
      assert PartText(JsonPart(value)) == "";
    }
  }

  lemma {:induction false} OmittedHasNoText(value: Json, codec: Codec, i: nat)
    requires i < |Content(Omitted(value, codec))|
    ensures PartText(Content(Omitted(value, codec))[i]) == ""
  {
    hide Size;
    assert Content(Omitted(value, codec)) == [JsonPart(Omitted(value, codec))];
  }

  lemma {:induction false} ShedPayload(event: Json, codec: Codec)
    requires PayloadField(event) != ""
    ensures PayloadField(Shed(event, codec)) == PayloadField(event)
    ensures PayloadOf(Shed(event, codec)) == Omitted(PayloadOf(event), codec)
  {
    hide Size, Omitted;
  }

  /** After compaction every text part made from a tool payload is within the item limit: with
      the default 190,000 it is within the 200,000 characters a part may have. */
  lemma {:induction false} PayloadTextsWithinCap(events: seq<Json>, k: nat, maxEncoded: int, maxItem: nat, codec: Codec,
                                                 i: nat, j: nat)
    requires i < |events| && PayloadField(events[i]) != ""
    requires var order := Candidates(events, |events|, codec);
      IndicesBelow(order, |events|) && IsShortest(events, order, k, maxEncoded, maxItem, codec)
    ensures var event := ShedFirst(events, Candidates(events, |events|, codec), k, codec)[i];
      PayloadField(event) != "" &&
      (j < |Content(PayloadOf(event))| ==> |PartText(Content(PayloadOf(event))[j])| <= maxItem)
  {
    hide Size, PayloadField, Shed, Omitted, Content, Total, Fits;
    var order := Candidates(events, |events|, codec);
    OrderIndices(events, codec);
    ShedFirstAt(events, order, k, codec, i);
    ShedPayload(events[i], codec);
    var event := ShedFirst(events, order, k, codec)[i];
    if j < |Content(PayloadOf(event))| {
      if Untouched(order, k, i) {
        PayloadsLeftFit(events, k, maxEncoded, maxItem, codec, i);
        PartTextWithin(PayloadOf(events[i]), j, codec.numLen);
      } else {
        OmittedHasNoText(PayloadOf(events[i]), codec, j);
      }
    }
  }

  // ------------------------------------------------------------------------------- members

  /** The member of a tool event that may be omitted. */
  predicate IsPayload(event: Json, key: string) {
    && event.Obj? && key in event.fields && "kind" in event.fields
    && (|| (key == "arguments" && event.fields["kind"] == Str("tool_call"))
        || (key == "content" && event.fields["kind"] == Str("tool_result")))
  }

  /** A marker in the place of a value: how long it was and its digest, and its first 512
      characters when it is text and no inline binary. */
  ghost predicate StandsFor(marker: Json, value: Json, codec: Codec) {
    marker == Obj(
      map["ledgermind_omitted" := Bool(true),
          "reason" := Str("raw_round_payload_budget"),
          "original_bytes" := Num(Size(value, codec.numLen) as real),
          "sha256" := Str(codec.tools.hash(codec.encode(value)))]
      + if value.Str? && !HoldsBinary(value.s) then
          map["preview" := Str(if |value.s| <= 512 then value.s else value.s[..512])]
        else map[])
  }

  /** The event with a marker in the place of its payload, and otherwise the same. */
  ghost predicate Replaced(event: Json, shed: Json, codec: Codec) {
    && event.Obj? && shed.Obj? && event.fields.Keys == shed.fields.Keys
    && (forall key :: key in event.fields && !IsPayload(event, key) ==> shed.fields[key] == event.fields[key])
    && (forall key :: IsPayload(event, key) ==> StandsFor(shed.fields[key], event.fields[key], codec))
  }

  lemma {:induction false} OmittedStandsFor(value: Json, codec: Codec)
    ensures StandsFor(Omitted(value, codec), value, codec)
  {
    hide Size, IsInline, HoldsBinary;
    if value.Str? {
      InlineIff(value.s);
    }
  }

  lemma {:induction false} ShedReplaces(event: Json, codec: Codec)
    ensures if exists key :: IsPayload(event, key) then Replaced(event, Shed(event, codec), codec)
      else Shed(event, codec) == event
  {
    hide Size, Omitted, StandsFor;
    assert PayloadField(event) != "" ==> IsPayload(event, PayloadField(event));
    assert forall key :: IsPayload(event, key) ==> PayloadField(event) == key;
    if PayloadField(event) != "" {
      OmittedStandsFor(PayloadOf(event), codec);
    }
  }

  /** What may be omitted: every payload, once, by its size and place, the largest first and of two
      of one size the later. */
  lemma {:induction false} CandidatesSay(events: seq<Json>, codec: Codec)
    ensures var order := Candidates(events, |events|, codec);
      && (forall i, key :: 0 <= i < |events| && IsPayload(events[i], key) ==>
            Candidate(Size(events[i].fields[key], codec.numLen), i) in order)
      && (forall c :: c in order ==> c.index < |events| && exists key ::
            IsPayload(events[c.index], key) && c.size == Size(events[c.index].fields[key], codec.numLen))
      && (forall a, b :: 0 <= a < b < |order| ==>
            order[a].size > order[b].size || (order[a].size == order[b].size && order[a].index > order[b].index))
  {
    hide Size;
    CandidatesAreRight(events, |events|, codec);
    var order := Candidates(events, |events|, codec);
    assert forall i, key :: 0 <= i < |events| && IsPayload(events[i], key) ==>
      && PayloadField(events[i]) == key
      && IsCandidate(events, |events|, codec, Candidate(PayloadSize(events[i], codec), i));
    forall c | c in order
      ensures c.index < |events| && exists key ::
        IsPayload(events[c.index], key) && c.size == Size(events[c.index].fields[key], codec.numLen)
    {
      assert IsCandidate(events, |events|, codec, c);
      assert IsPayload(events[c.index], PayloadField(events[c.index]));
    }
  }

  /** When everything fits, nothing is omitted. */
  lemma {:induction false} FittingStays(events: seq<Json>, k: nat, maxEncoded: int, maxItem: int, codec: Codec)
    requires var order := Candidates(events, |events|, codec);
      IndicesBelow(order, |events|) && IsShortest(events, order, k, maxEncoded, maxItem, codec)
    requires Total(events, codec) <= maxEncoded
    requires forall i, key ::
      0 <= i < |events| && IsPayload(events[i], key) ==> Size(events[i].fields[key], codec.numLen) <= maxItem
    ensures k == 0
  {
    hide Size, Total, ShedFirst;
    var order := Candidates(events, |events|, codec);
    CandidatesSay(events, codec);
    assert |order| > 0 ==> order[0] in order;
    assert ShedFirst(events, order, 0, codec) == events by {
      NothingShed(events, order, codec);
    }
    assert Fits(events, order, 0, maxEncoded, maxItem, codec);
  }

  lemma {:induction false} NothingShed(events: seq<Json>, order: seq<Candidate>, codec: Codec)
    requires IndicesBelow(order, |events|)
    ensures ShedFirst(events, order, 0, codec) == events
  {
  }

  /** Once all are omitted, every payload is a marker, and everything else is the same. */
  lemma {:induction false} AllShed(events: seq<Json>, i: nat, codec: Codec)
    requires i < |events|
    ensures var order := Candidates(events, |events|, codec);
      && IndicesBelow(order, |events|)
      && var after := ShedFirst(events, order, |order|, codec)[i];
         if exists key :: IsPayload(events[i], key) then Replaced(events[i], after, codec) else after == events[i]
  {
    hide Size, Shed, Replaced;
    var order := Candidates(events, |events|, codec);
    OrderIndices(events, codec);
    CandidatesSay(events, codec);
    ShedFirstAt(events, order, |order|, codec, i);
    ShedReplaces(events[i], codec);
    assert !Untouched(order, |order|, i) ==> exists key :: IsPayload(events[i], key) by {
      if !Untouched(order, |order|, i) {
        var j :| 0 <= j < |order| && order[j].index == i;
        assert order[j] in order;
      }
    }
  }
}
