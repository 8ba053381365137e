/** Source grounding of extracted claims: UTF-8 byte spans against code-point text, and the
    scan that lists every condition occurrence. */
module Grounding {
  import opened Options
  import opened Utf8
  import Scan

  datatype SpanError = NotPositive | LengthMismatch | ExceedsSource | InsideCharacter | TextMismatch

  function CheckClaimSpan(start: nat, end: nat, surface: string): Option<SpanError> {
    if end <= start then Some(NotPositive)
    else if end - start != |Encode(surface)| then Some(LengthMismatch)
    else None
  }

  function ValidateSourceSpan(source: string, start: nat, end: nat, surface: string): Result<nat, SpanError> {
    var fields := CheckClaimSpan(start, end, surface);
    var encoded := Encode(source);
    if fields.Some? then Err(fields.value)
    else if end > |encoded| then Err(ExceedsSource)
    else if end <= start then Err(NotPositive)
    else if Decode(encoded[..start]).None? || Decode(encoded[..end]).None?
         || Decode(encoded[start..end]).None? then Err(InsideCharacter)
    else if Decode(encoded[start..end]) != Some(surface) then Err(TextMismatch)
    else Ok(start)
  }

  /** `surface` stands in `source` at code point `i`. */
  predicate OccursAt(source: string, surface: string, i: nat) {
    i + |surface| <= |source| && source[i..i + |surface|] == surface
  }

  function ByteOffset(source: string, i: nat): nat
    requires i <= |source|
  {
    |Encode(source[..i])|
  }

  /** A byte span that decodes cleanly on both sides cuts `source` at code points. */
  lemma {:induction false} DecodablePrefixIsBoundary(source: string, p: nat) returns (i: nat)
    requires p <= |Encode(source)| && Decode(Encode(source)[..p]).Some?
    ensures i <= |source| && ByteOffset(source, i) == p
  {
    var prefix := Decode(Encode(source)[..p]).value;
    DecodeIff(Encode(source)[..p], prefix);
    EncodePrefix(prefix, source);
    i := |prefix|;
    assert source[..i] == prefix;
  }

  lemma {:induction false} OccurrenceBytes(source: string, surface: string, i: nat)
    requires OccursAt(source, surface, i)
    ensures ByteOffset(source, i) + |Encode(surface)| == ByteOffset(source, i + |surface|) <= |Encode(source)|
    ensures Encode(source)[ByteOffset(source, i)..ByteOffset(source, i + |surface|)] == Encode(surface)
  {
    SliceBytes(source, i, i + |surface|);
  }

  lemma {:induction false} AcceptedSpanStands(source: string, start: nat, end: nat, surface: string) returns (i: nat)
    requires ValidateSourceSpan(source, start, end, surface) == Ok(start)
    ensures OccursAt(source, surface, i) && ByteOffset(source, i) == start
  {
    var encoded := Encode(source);
    i := DecodablePrefixIsBoundary(source, start);
    var j := DecodablePrefixIsBoundary(source, end);
    OffsetsMonotone(source, j, i);
    assert i <= j;
    SliceBytes(source, i, j);
    DecodeIff(encoded[start..end], source[i..j]);
  }

  lemma {:induction false} SliceBytes(source: string, i: nat, j: nat)
    requires i <= j <= |source|
    ensures ByteOffset(source, i) <= ByteOffset(source, j) <= |Encode(source)|
    ensures Encode(source)[..ByteOffset(source, i)] == Encode(source[..i])
    ensures Encode(source)[ByteOffset(source, i)..ByteOffset(source, j)] == Encode(source[i..j])
  {
    EncodePrefixLengthInjective(source, i, j);
    EncodeConcat(source[..i], source[i..j]);
    assert source[..j] == source[..i] + source[i..j];
    EncodeSplit(source, j);
  }

  lemma {:induction false} StandingSpanAccepted(source: string, i: nat, surface: string)
    requires surface != "" && OccursAt(source, surface, i)
    ensures var start := ByteOffset(source, i);
      ValidateSourceSpan(source, start, start + |Encode(surface)|, surface) == Ok(start)
  {
    hide Encode, Decode;
    var encoded := Encode(source);
    var start := ByteOffset(source, i);
    var j := i + |surface|;
    var end := start + |Encode(surface)|;
    EncodeLength(surface);
    SliceBytes(source, i, j);
    SliceBytes(source, j, j);
    DecodeIff(encoded[..start], source[..i]);
    DecodeIff(encoded[..end], source[..j]);
    DecodeIff(encoded[start..end], surface);
  }

  /** Acceptance, exactly: the span starts at the byte length of some prefix of the source
      that the surface text follows, and is as long as the surface text. */
  lemma {:induction false} SpanAcceptedIff(source: string, start: nat, end: nat, surface: string)
    ensures ValidateSourceSpan(source, start, end, surface) == Ok(start)
       <==> && surface != "" && end == start + |Encode(surface)|
            && exists i: nat :: OccursAt(source, surface, i) && ByteOffset(source, i) == start
  {
    if ValidateSourceSpan(source, start, end, surface) == Ok(start) {
      var i := AcceptedSpanStands(source, start, end, surface);
      assert surface != "";
    }
    if surface != "" && end == start + |Encode(surface)|
      && exists i: nat :: OccursAt(source, surface, i) && ByteOffset(source, i) == start {
      var i: nat :| OccursAt(source, surface, i) && ByteOffset(source, i) == start;
      StandingSpanAccepted(source, i, surface);
    }
  }

  /** For a non-empty surface text the boundary checks add nothing: equal bytes already
      force both ends onto character boundaries (UTF-8 is self-synchronising). */
  lemma {:induction false} ByteEqualityForcesBoundaries(source: string, start: nat, end: nat, surface: string)
    requires surface != ""
    ensures ValidateSourceSpan(source, start, end, surface).Ok?
       <==> start <= end <= |Encode(source)| && Encode(source)[start..end] == Encode(surface)
  {
    var encoded := Encode(source);
    if ValidateSourceSpan(source, start, end, surface).Ok? {
      SpanAcceptedIff(source, start, end, surface);
      var i: nat :| OccursAt(source, surface, i) && ByteOffset(source, i) == start;
      OccurrenceBytes(source, surface, i);
    }
    if start <= end <= |encoded| && encoded[start..end] == Encode(surface) {
      EncodeLength(surface);
      assert encoded[start] == Encode(surface)[0] == EncodeChar(surface[0])[0];
      var i := NonTailIsBoundary(source, start);
      EncodeSplit(source, i);
      assert Encode(source[i..]) == encoded[start..];
      assert Encode(surface) <= Encode(source[i..]);
      EncodePrefix(surface, source[i..]);
      assert OccursAt(source, surface, i);
      SpanAcceptedIff(source, start, end, surface);
    }
  }

  // ---------------------------------------------------------------- condition occurrences

  /** Where `surface` occurs in `source`. */
  function Matches(source: string, surface: string): set<nat> {
    set i: nat | i <= |source| && OccursAt(source, surface, i)
  }

  /** `source.find(surface, from)`: the least match at or after `from`, or -1. */
  method Find(source: string, surface: string, from: nat) returns (found: int)
    ensures found == Scan.LeastFrom(Matches(source, surface), from, |source|)
  {
    var i := from;
    while i + |surface| <= |source|
      invariant from <= i
      invariant Scan.LeastFrom(Matches(source, surface), from, |source|)
             == Scan.LeastFrom(Matches(source, surface), i, |source|)
    {
      if source[i..i + |surface|] == surface {
        assert i in Matches(source, surface);
        return i;
      }
      i := i + 1;
    }
    NoMatchNearEnd(source, surface, i);
    return -1;
  }

  lemma {:induction false} NoMatchNearEnd(source: string, surface: string, from: nat)
    requires from + |surface| > |source|
    ensures Scan.LeastFrom(Matches(source, surface), from, |source|) == -1
    decreases |source| + 1 - from
  {
    if from <= |source| {
      NoMatchNearEnd(source, surface, from + 1);
    }
  }

  datatype Range = Range(start: nat, end: nat)

  function ByteRange(source: string, surface: string, i: nat): Range
    requires i <= |source|
  {
    Range(ByteOffset(source, i), ByteOffset(source, i) + |Encode(surface)|)
  }

  /** Code-point positions the scan reports. */
  function Scanned(source: string, surface: string): (ps: seq<nat>)
    requires surface != ""
    ensures forall k :: 0 <= k < |ps| ==> ps[k] <= |source|
  {
    Scan.PositionsBounded(Matches(source, surface), |surface|, 0, |source|);
    Scan.Positions(Matches(source, surface), |surface|, 0, |source|)
  }

  lemma {:induction false} ScannedMatch(source: string, surface: string, k: nat)
    requires surface != "" && k < |Scanned(source, surface)|
    ensures OccursAt(source, surface, Scanned(source, surface)[k])
  {
    Scan.PositionInRange(Matches(source, surface), |surface|, 0, |source|, k);
  }

  function ByteRanges(source: string, surface: string, ps: seq<nat>): seq<Range>
    requires forall k :: 0 <= k < |ps| ==> ps[k] <= |source|
  {
    seq(|ps|, k requires 0 <= k < |ps| => ByteRange(source, surface, ps[k]))
  }

  function ConditionRanges(source: string, surface: string): seq<Range>
    requires surface != ""
  {
    ByteRanges(source, surface, Scanned(source, surface))
  }

  /** The loop of `_condition_occurrences`; an empty surface text, which the claim fields
      refuse, would make it run for ever. */
  method ConditionOccurrences(source: string, surface: string) returns (occurrences: seq<Range>)
    requires surface != ""
    ensures occurrences == ConditionRanges(source, surface)
  {
    hide Encode, Decode, Matches, OccursAt, Scan.LeastFrom;
    occurrences := [];
    ghost var all := Scanned(source, surface);
    var characterOffset: nat := 0;
    while true
      invariant characterOffset <= |source| + |surface|
      invariant |occurrences| <= |all|
      invariant all[|occurrences|..]
             == Scan.Positions(Matches(source, surface), |surface|, characterOffset, |source|)
      invariant occurrences == ConditionRanges(source, surface)[..|occurrences|]
      decreases |source| + |surface| - characterOffset
    {
      var found := Find(source, surface, characterOffset);
      if found < 0 {
        return;
      }
      Scan.NextPosition(all, |occurrences|, Matches(source, surface), |surface|, characterOffset, |source|);
      var byteStart := |Encode(source[..found])|;
      var byteEnd := byteStart + |Encode(surface)|;
      occurrences := occurrences + [Range(byteStart, byteEnd)];
      characterOffset := found + |surface|;
    }
  }

  /** The reported byte ranges are increasing and disjoint, and each decodes to the text. */
  lemma {:induction false} RangesDecodeAndAscend(source: string, surface: string)
    requires surface != ""
    ensures var rs := ConditionRanges(source, surface);
      && (forall k :: 0 <= k < |rs| ==>
           && rs[k].start <= rs[k].end <= |Encode(source)|
           && Decode(Encode(source)[rs[k].start..rs[k].end]) == Some(surface))
      && (forall k, l :: 0 <= k < l < |rs| ==> rs[k].end <= rs[l].start)
  {
    hide Encode, Decode;
    var ps := Scanned(source, surface);
    var rs := ConditionRanges(source, surface);
    forall k | 0 <= k < |rs|
      ensures rs[k].start <= rs[k].end <= |Encode(source)|
           && Decode(Encode(source)[rs[k].start..rs[k].end]) == Some(surface)
    {
      ScannedMatch(source, surface, k);
      OccurrenceBytes(source, surface, ps[k]);
      DecodeIff(Encode(source)[rs[k].start..rs[k].end], surface);
    }
    forall k, l | 0 <= k < l < |rs| ensures rs[k].end <= rs[l].start {
      ScannedMatch(source, surface, k);
      ScannedMatch(source, surface, l);
      Scan.PositionsApart(Matches(source, surface), |surface|, 0, |source|, k, l);
      OccurrenceBytes(source, surface, ps[k]);
      OffsetsMonotone(source, ps[k] + |surface|, ps[l]);
    }
  }

  /** Any other increasing disjoint list of matches that leaves no match starting outside it
      is the scanned list. */
  lemma {:induction false} ScannedIsTheLeftmostCover(source: string, surface: string, ps: seq<nat>)
    requires surface != ""
    ensures Scan.IsLeftmostCover(Matches(source, surface), |surface|, 0, |source|, ps)
       <==> ps == Scanned(source, surface)
  {
    Scan.PositionsCover(Matches(source, surface), |surface|, 0, |source|);
    if Scan.IsLeftmostCover(Matches(source, surface), |surface|, 0, |source|, ps) {
      Scan.CoverUnique(Matches(source, surface), |surface|, 0, |source|, ps);
    }
  }

  // A border is a proper prefix that is also a suffix: the texts whose matches can overlap.
  predicate Border(surface: string, b: nat) {
    0 < b < |surface| && surface[..b] == surface[|surface| - b..]
  }

  predicate Unbordered(surface: string) {
    forall b :: 0 <= b < |surface| ==> !Border(surface, b)
  }

  ghost predicate ScanSeesEverything(surface: string)
    requires surface != ""
  {
    forall source, i: nat :: OccursAt(source, surface, i) ==> i in Scanned(source, surface)
  }

  /** Resuming after each match misses overlapping ones; it sees every occurrence in every
      source exactly when the condition text has no border. */
  lemma {:induction false} ScanCompleteIff(surface: string)
    requires surface != ""
    ensures ScanSeesEverything(surface) <==> Unbordered(surface)
  {
    if Unbordered(surface) {
      forall source, i: nat | OccursAt(source, surface, i)
        ensures i in Scanned(source, surface)
      {
        UnborderedScanSees(source, surface, i);
      }
    } else {
      var b :| 0 <= b < |surface| && Border(surface, b);
      BorderedScanMisses(surface, b);
    }
  }

  lemma {:induction false} UnborderedScanSees(source: string, surface: string, i: nat)
    requires surface != "" && Unbordered(surface) && OccursAt(source, surface, i)
    ensures i in Scanned(source, surface)
  {
    var ps := Scanned(source, surface);
    var k := Scan.CoveringPosition(Matches(source, surface), |surface|, 0, |source|, i);
    ScannedMatch(source, surface, k);
    if ps[k] < i {
      OverlapIsBorder(source, surface, ps[k], i);
    }
  }

  lemma {:induction false} OverlapIsBorder(source: string, surface: string, p: nat, i: nat)
    requires OccursAt(source, surface, p) && OccursAt(source, surface, i) && p < i < p + |surface|
    ensures Border(surface, p + |surface| - i)
  {
    var b := p + |surface| - i;
    assert surface[..b] == source[i..i + |surface|][..b] == source[i..i + b];
    assert surface[|surface| - b..] == source[p..p + |surface|][i - p..] == source[i..i + b];
  }

  lemma {:induction false} BorderedScanMisses(surface: string, b: nat)
    requires Border(surface, b)
    ensures var source := surface[..|surface| - b] + surface;
      OccursAt(source, surface, |surface| - b) && |surface| - b !in Scanned(source, surface)
  {
    var gap := |surface| - b;
    var source := surface[..gap] + surface;
    assert source[gap..gap + |surface|] == surface;
    assert source[0..|surface|] == surface[..gap] + surface[..b] == surface[..gap] + surface[gap..] == surface;
    var ps := Scanned(source, surface);
    assert 0 in Matches(source, surface);
    assert ps[0] == 0;
    forall l | 0 < l < |ps| ensures ps[l] >= |surface| {
      Scan.PositionsApart(Matches(source, surface), |surface|, 0, |source|, 0, l);
    }
  }

  // ------------------------------------------------------------------------------- claims

  datatype Subject = Subject(eventId: string, text: string, start: nat, end: nat)

  datatype Condition = Condition(eventId: string, text: string)

  datatype Claim = Claim(subject: Subject, conditions: seq<Condition>, eventIds: seq<string>)

  datatype ClaimError = BadFields | UnknownEvent(id: string) | BadSpan(why: SpanError)
                      | ConditionNotFound | SubjectInsideCondition

  predicate Distinct<T(==)>(xs: seq<T>) {
    forall i, j :: 0 <= i < j < |xs| ==> xs[i] != xs[j]
  }

  /** The structural part of the claim's own field checks. */
  predicate FieldsOk(c: Claim) {
    && c.subject.text != "" && CheckClaimSpan(c.subject.start, c.subject.end, c.subject.text).None?
    && (forall k :: 0 <= k < |c.conditions| ==> c.conditions[k].text != "")
    && Distinct(c.conditions) && c.eventIds != [] && Distinct(c.eventIds)
    && c.subject.eventId in c.eventIds
    && (forall k :: 0 <= k < |c.conditions| ==> c.conditions[k].eventId in c.eventIds)
  }

  predicate InsideSome(rs: seq<Range>, start: nat, end: nat) {
    exists k :: 0 <= k < |rs| && rs[k].start <= start && end <= rs[k].end
  }

  function CheckConditions(c: Claim, events: map<string, string>, k: nat): Option<ClaimError>
    requires FieldsOk(c) && k <= |c.conditions|
    decreases |c.conditions| - k
  {
    if k == |c.conditions| then None
    else
      var cond := c.conditions[k];
      if cond.eventId !in events then Some(UnknownEvent(cond.eventId))
      else
        var source := events[cond.eventId];
        var rs := ConditionRanges(source, cond.text);
        if rs == [] then Some(ConditionNotFound)
        else if cond.eventId == c.subject.eventId && InsideSome(rs, c.subject.start, c.subject.end) then
          Some(SubjectInsideCondition)
        else CheckConditions(c, events, k + 1)
  }

  function FirstUnknown(ids: seq<string>, events: map<string, string>): Option<string> {
    if ids == [] then None
    else if ids[0] !in events then Some(ids[0])
    else FirstUnknown(ids[1..], events)
  }

  function ValidateWithSource(c: Claim, events: map<string, string>): Option<ClaimError> {
    if !FieldsOk(c) then Some(BadFields)
    else if c.subject.eventId !in events then Some(UnknownEvent(c.subject.eventId))
    else
      var span := ValidateSourceSpan(events[c.subject.eventId], c.subject.start, c.subject.end, c.subject.text);
      if span.Err? then Some(BadSpan(span.error))
      else if FirstUnknown(c.eventIds, events).Some? then Some(UnknownEvent(FirstUnknown(c.eventIds, events).value))
      else CheckConditions(c, events, 0)
  }

  /** Grounding in code points: the subject stands at `i`, and condition text `u` occurs in
      its event with no scanned occurrence around the subject. */
  ghost predicate ConditionGrounded(c: Claim, cond: Condition, events: map<string, string>, i: nat)
    requires cond.text != "" && cond.eventId in events
  {
    var source := events[cond.eventId];
    && (exists p: nat :: OccursAt(source, cond.text, p))
    && (cond.eventId == c.subject.eventId ==>
          !InsideScanned(Scanned(source, cond.text), |cond.text|, i, |c.subject.text|))
  }

  ghost predicate SubjectStandsAt(c: Claim, events: map<string, string>, i: nat)
    requires c.subject.eventId in events
  {
    var source := events[c.subject.eventId];
    OccursAt(source, c.subject.text, i) && ByteOffset(source, i) == c.subject.start
  }

  lemma {:induction false} FirstUnknownNone(ids: seq<string>, events: map<string, string>)
    ensures FirstUnknown(ids, events).None? <==> forall id :: id in ids ==> id in events
  {
    if ids != [] {
      FirstUnknownNone(ids[1..], events);
      assert forall id :: id in ids <==> id == ids[0] || id in ids[1..];
    }
  }

  /** Containment of byte ranges is containment of code-point ranges. */
  lemma {:induction false} ContainmentInCodePoints(source: string, u: string, p: nat, v: string, i: nat)
    requires OccursAt(source, u, p) && OccursAt(source, v, i) && v != ""
    ensures var r := ByteRange(source, u, p);
      (r.start <= ByteOffset(source, i) && ByteOffset(source, i) + |Encode(v)| <= r.end)
       <==> (p <= i && i + |v| <= p + |u|)
  {
    OccurrenceBytes(source, u, p);
    OccurrenceBytes(source, v, i);
    OffsetsMonotone(source, p, i);
    OffsetsMonotone(source, i + |v|, p + |u|);
  }

  lemma {:induction false} OffsetsMonotone(source: string, a: nat, b: nat)
    requires a <= |source| && b <= |source|
    ensures ByteOffset(source, a) <= ByteOffset(source, b) <==> a <= b
  {
    if a <= b {
      EncodePrefixLengthInjective(source, a, b);
    } else {
      EncodePrefixLengthInjective(source, b, a);
    }
  }

  lemma {:induction false} ScanFindsSomethingIff(source: string, surface: string)
    requires surface != ""
    ensures ConditionRanges(source, surface) != [] <==> exists p: nat :: OccursAt(source, surface, p)
  {
    if p: nat :| OccursAt(source, surface, p) {
      var k := Scan.CoveringPosition(Matches(source, surface), |surface|, 0, |source|, p);
    }
    if ConditionRanges(source, surface) != [] {
      ScannedMatch(source, surface, 0);
    }
  }

  lemma {:induction false} RangeContains(source: string, u: string, v: string, i: nat, k: nat)
    requires u != "" && v != "" && OccursAt(source, v, i) && k < |Scanned(source, u)|
    ensures var r := ConditionRanges(source, u)[k]; var p := Scanned(source, u)[k];
      (r.start <= ByteOffset(source, i) && ByteOffset(source, i) + |Encode(v)| <= r.end)
      <==> (p <= i && i + |v| <= p + |u|)
  {
    ScannedMatch(source, u, k);
    ContainmentInCodePoints(source, u, Scanned(source, u)[k], v, i);
  }

  predicate InsideScanned(ps: seq<nat>, width: nat, i: nat, length: nat) {
    exists k :: 0 <= k < |ps| && ps[k] <= i && i + length <= ps[k] + width
  }

  lemma {:induction false} InsideSomeIff(source: string, u: string, v: string, i: nat)
    requires u != "" && v != "" && OccursAt(source, v, i)
    ensures InsideSome(ConditionRanges(source, u), ByteOffset(source, i), ByteOffset(source, i) + |Encode(v)|)
       <==> InsideScanned(Scanned(source, u), |u|, i, |v|)
  {
    hide Encode, Decode;
    var ps := Scanned(source, u);
    var rs := ConditionRanges(source, u);
    var start, end := ByteOffset(source, i), ByteOffset(source, i) + |Encode(v)|;
    if InsideSome(rs, start, end) {
      var k :| 0 <= k < |rs| && rs[k].start <= start && end <= rs[k].end;
      RangeContains(source, u, v, i, k);
    }
    if InsideScanned(ps, |u|, i, |v|) {
      var k :| 0 <= k < |ps| && ps[k] <= i && i + |v| <= ps[k] + |u|;
      RangeContains(source, u, v, i, k);
    }
  }

  lemma {:induction false} ConditionStep(c: Claim, cond: Condition, events: map<string, string>, i: nat)
    requires c.subject.eventId in events && c.subject.text != "" && SubjectStandsAt(c, events, i)
    requires c.subject.end == c.subject.start + |Encode(c.subject.text)|
    requires cond.text != "" && cond.eventId in events
    ensures ConditionGrounded(c, cond, events, i)
       <==> && ConditionRanges(events[cond.eventId], cond.text) != []
            && (cond.eventId == c.subject.eventId ==>
                  !InsideSome(ConditionRanges(events[cond.eventId], cond.text), c.subject.start, c.subject.end))
  {
    var source := events[cond.eventId];
    ScanFindsSomethingIff(source, cond.text);
    if cond.eventId == c.subject.eventId {
      InsideSomeIff(source, cond.text, c.subject.text, i);
    }
  }

  lemma {:induction false} ConditionsChecked(c: Claim, events: map<string, string>, k: nat, i: nat)
    requires FieldsOk(c) && k <= |c.conditions|
    requires c.subject.eventId in events && SubjectStandsAt(c, events, i)
    requires forall id :: id in c.eventIds ==> id in events
    ensures CheckConditions(c, events, k).None?
       <==> forall l :: k <= l < |c.conditions| ==>
              c.conditions[l].eventId in events && ConditionGrounded(c, c.conditions[l], events, i)
    decreases |c.conditions| - k
  {
    if k < |c.conditions| {
      ConditionStep(c, c.conditions[k], events, i);
      ConditionsChecked(c, events, k + 1, i);
    }
  }

  ghost predicate ClaimGroundedAt(c: Claim, events: map<string, string>, i: nat)
    requires FieldsOk(c) && c.subject.eventId in events
  {
    && SubjectStandsAt(c, events, i)
    && forall l :: 0 <= l < |c.conditions| ==>
         c.conditions[l].eventId in events && ConditionGrounded(c, c.conditions[l], events, i)
  }

  /** A claim is accepted exactly when its fields are consistent, its events are known, its
      subject stands at a code point of its event, and each condition is grounded. */
  lemma {:induction false} ClaimAcceptedIff(c: Claim, events: map<string, string>)
    ensures ValidateWithSource(c, events).None?
       <==> && FieldsOk(c) && (forall id :: id in c.eventIds ==> id in events)
            && exists i: nat :: ClaimGroundedAt(c, events, i)
    ensures FieldsOk(c)
       <==> && c.subject.text != "" && c.subject.end == c.subject.start + |Encode(c.subject.text)|
            && (forall k :: 0 <= k < |c.conditions| ==>
                  c.conditions[k].text != "" && c.conditions[k].eventId in c.eventIds)
            && (forall k, l :: 0 <= k < l < |c.conditions| ==>
                  c.conditions[k].eventId != c.conditions[l].eventId || c.conditions[k].text != c.conditions[l].text)
            && c.eventIds != [] && c.subject.eventId in c.eventIds
            && (forall k, l :: 0 <= k < l < |c.eventIds| ==> c.eventIds[k] != c.eventIds[l])
  {
    EncodeLength(c.subject.text);
    FirstUnknownNone(c.eventIds, events);
    if FieldsOk(c) && (forall id :: id in c.eventIds ==> id in events) {
      SpanAcceptedIff(events[c.subject.eventId], c.subject.start, c.subject.end, c.subject.text);
      if i: nat :| SubjectStandsAt(c, events, i) {
        ConditionsChecked(c, events, 0, i);
        assert ClaimGroundedAt(c, events, i) <==> CheckConditions(c, events, 0).None?;
      }
    }
    if ValidateWithSource(c, events).None? {
      var source := events[c.subject.eventId];
      var i: nat :| OccursAt(source, c.subject.text, i) && ByteOffset(source, i) == c.subject.start;
      assert SubjectStandsAt(c, events, i);
    } else if FieldsOk(c) && (forall id :: id in c.eventIds ==> id in events) {
      forall i: nat | SubjectStandsAt(c, events, i) ensures !ClaimGroundedAt(c, events, i) {
        ConditionsChecked(c, events, 0, i);
      }
    }
  }

  /** With an unbordered condition text the accepted subject lies inside no occurrence of it
      at all. */
  lemma {:induction false} AcceptedSubjectOutsideUnborderedCondition(c: Claim, events: map<string, string>, k: nat,
                                                                     p: nat)
    requires ValidateWithSource(c, events).None? && k < |c.conditions|
    requires c.conditions[k].eventId == c.subject.eventId && c.subject.eventId in events
    requires Unbordered(c.conditions[k].text)
    requires OccursAt(events[c.subject.eventId], c.conditions[k].text, p)
    ensures var source := events[c.subject.eventId];
            var r := ByteRange(source, c.conditions[k].text, p);
            !(r.start <= c.subject.start && c.subject.end <= r.end)
  {
    var source := events[c.subject.eventId];
    ClaimAcceptedIff(c, events);
    var i: nat :| ClaimGroundedAt(c, events, i);
    UnborderedScanSees(source, c.conditions[k].text, p);
    assert ConditionGrounded(c, c.conditions[k], events, i);
    ContainmentInCodePoints(source, c.conditions[k].text, p, c.subject.text, i);
  }

  /** A claim about the second of two overlapping occurrences of its own condition text. */
  function OverlapClaim(text: string, start: nat): Claim {
    Claim(Subject("e", text, start, start + |Encode(text)|), [Condition("e", text)], ["e"])
  }

  /** Every border of a condition text hides a subject: in the text that overlaps itself by it,
      the claim about the second occurrence is accepted, although that occurrence is exactly
      its subject. */
  lemma {:induction false} BorderHidesSubject(text: string, b: nat)
    requires Border(text, b)
    ensures var source := text[..|text| - b] + text;
      var start := ByteOffset(source, |text| - b);
      && OccursAt(source, text, |text| - b)
      && ValidateWithSource(OverlapClaim(text, start), map["e" := source]).None?
      && ByteRange(source, text, |text| - b) == Range(start, start + |Encode(text)|)
  {
    hide Encode, Decode;
    var gap := |text| - b;
    var source := text[..gap] + text;
    var start := ByteOffset(source, gap);
    var c, events := OverlapClaim(text, start), map["e" := source];
    BorderedScanMisses(text, b);
    NotEmptyBytes(text);
    OccurrenceBytes(source, text, gap);
    assert FieldsOk(c);
    assert ConditionGrounded(c, c.conditions[0], events, gap);
    assert ClaimGroundedAt(c, events, gap);
    ClaimAcceptedIff(c, events);
  }

  /** Accepted claims with this condition text have their subject outside all of its occurrences
      in the subject's event. */
  ghost predicate KeepsSubjectsOut(text: string) {
    forall c: Claim, events: map<string, string>, k: nat, p: nat ::
      HasSubjectInside(c, events, text, k, p) ==> !ValidateWithSource(c, events).None?
  }

  /** The k-th condition has this text, and the subject lies inside its occurrence at `p`. */
  predicate HasSubjectInside(c: Claim, events: map<string, string>, text: string, k: nat, p: nat) {
    && k < |c.conditions| && c.conditions[k] == Condition(c.subject.eventId, text) && c.subject.eventId in events
    && OccursAt(events[c.subject.eventId], text, p)
    && ByteRange(events[c.subject.eventId], text, p).start <= c.subject.start
    && c.subject.end <= ByteRange(events[c.subject.eventId], text, p).end
  }

  /** A condition text keeps the subjects of all accepted claims out of all its occurrences
      exactly when it has no border. */
  lemma {:induction false} KeepsSubjectsOutIff(text: string)
    requires text != ""
    ensures KeepsSubjectsOut(text) <==> Unbordered(text)
  {
    hide ValidateWithSource, Encode, Decode, ByteRange, OverlapClaim;
    if Unbordered(text) {
      forall c: Claim, events: map<string, string>, k: nat, p: nat | HasSubjectInside(c, events, text, k, p)
        ensures !ValidateWithSource(c, events).None?
      {
        if ValidateWithSource(c, events).None? {
          AcceptedSubjectOutsideUnborderedCondition(c, events, k, p);
        }
      }
    } else {
      var b :| 0 <= b < |text| && Border(text, b);
      var source := text[..|text| - b] + text;
      var start := ByteOffset(source, |text| - b);
      BorderHidesSubject(text, b);
      OverlapInside(text, source, start, |text| - b);
      assert !KeepsSubjectsOut(text);
    }
  }

  lemma {:induction false} OverlapInside(text: string, source: string, start: nat, p: nat)
    requires OccursAt(source, text, p) && ByteRange(source, text, p) == Range(start, start + |Encode(text)|)
    ensures HasSubjectInside(OverlapClaim(text, start), map["e" := source], text, 0, p)
  {
    hide Encode, Decode, ByteRange;
  }

  lemma {:induction false} NotEmptyBytes(text: string)
    requires text != ""
    ensures |Encode(text)| > 0
  {
  }
}
