/** Replacing inline binary strings by markers, at any depth. */
module InlineBinary {
  import opened JsonValue
  import Utf8

  /** `needle in text`. */
  predicate Contains(text: string, needle: string) {
    exists i :: 0 <= i <= |text| && StandsAt(text, needle, i)
  }

  predicate StandsAt(text: string, needle: string, i: nat) {
    i + |needle| <= |text| && text[i..i + |needle|] == needle
  }

  function Upto(text: string, n: nat): string {
    if |text| <= n then text else text[..n]
  }

  predicate IsInline(s: string) {
    "data:" <= s && Contains(Upto(s, 256), ";base64,")
  }

  /** Everything before the first `c`. */
  function Before(text: string, c: char): (r: string)
    ensures c !in r && r <= text
  {
    if text == "" || text[0] == c then "" else [text[0]] + Before(text[1..], c)
  }

  /** SHA-256 in hexadecimal, and `str.strip().lower()`. */
  datatype Tools = Tools(hash: seq<Utf8.Byte> -> string, fold: string -> string)

  /** Neither makes up a semicolon. */
  ghost predicate Plain(tools: Tools) {
    && (forall b :: ';' !in tools.hash(b))
    && (forall s :: ';' !in s ==> ';' !in tools.fold(s))
  }

  function MediaType(value: string, tools: Tools): string {
    var header := Before(value, ',');
    var media := tools.fold(Before(if |header| < 5 then "" else header[5..], ';'));
    if media == "" then "application/octet-stream" else media
  }

  function InlineMarker(value: string, tools: Tools): Json {
    Obj(map[
      "ledgermind_omitted" := Bool(true),
      "reason" := Str("inline_binary_payload"),
      "media_type" := Str(MediaType(value, tools)),
      "original_bytes" := Num(|Utf8.Encode(value)| as real),
      "sha256" := Str(tools.hash(Utf8.Encode(value)))])
  }

  /** `_sanitize_inline_binary`. */
  function Sanitize(j: Json, tools: Tools): Json
    decreases j
  {
    match j
    case Str(s) => if IsInline(s) then InlineMarker(s, tools) else j
    case Arr(items) => Arr(seq(|items|, i requires 0 <= i < |items| => Sanitize(items[i], tools)))
    case Obj(fields) => Obj(map k | k in fields :: Sanitize(fields[k], tools))
    case _ => j
  }

  /** No inline binary string anywhere among the values. */
  predicate Clean(j: Json)
    decreases j
  {
    match j
    case Str(s) => !IsInline(s)
    case Arr(items) => forall i :: 0 <= i < |items| ==> Clean(items[i])
    case Obj(fields) => forall k :: k in fields ==> Clean(fields[k])
    case _ => true
  }

  /** `b` is `a` except that inline strings have become objects: the same keys, the same list
      lengths and the same other leaves at every depth. */
  predicate SameShape(a: Json, b: Json)
    decreases a
  {
    match a
    case Str(s) => if IsInline(s) then b.Obj? && Clean(b) else b == a
    case Arr(items) => b.Arr? && |b.items| == |items| && forall i :: 0 <= i < |items| ==>
      SameShape(items[i], b.items[i])
    case Obj(fields) => b.Obj? && b.fields.Keys == fields.Keys && forall k :: k in fields ==>
      SameShape(fields[k], b.fields[k])
    case _ => b == a
  }

  lemma {:induction false} NoSemicolonIsClean(s: string)
    requires ';' !in s
    ensures !IsInline(s)
  {
    var head := Upto(s, 256);
    forall i | 0 <= i <= |head| ensures !StandsAt(head, ";base64,", i) {
      if i + 8 <= |head| {
        assert head[i] == s[i] && s[i] in s;
        assert head[i..i + 8][0] == head[i];
      }
    }
  }

  lemma {:induction false} MarkerIsClean(value: string, tools: Tools)
    requires Plain(tools)
    ensures Clean(InlineMarker(value, tools))
  {
    hide IsInline;
    NoSemicolonIsClean("inline_binary_payload");
    NoSemicolonIsClean("application/octet-stream");
    NoSemicolonIsClean(MediaType(value, tools));
    NoSemicolonIsClean(tools.hash(Utf8.Encode(value)));
  }

  /** Sanitising leaves no inline binary, and changes nothing else. */
  lemma {:induction false} SanitizeCleans(j: Json, tools: Tools)
    requires Plain(tools)
    ensures Clean(Sanitize(j, tools)) && SameShape(j, Sanitize(j, tools))
    decreases j
  {
    hide IsInline, InlineMarker;
    match j
    case Str(s) =>
      if IsInline(s) {
        MarkerIsClean(s, tools);
        MarkerIsObject(s, tools);
      }
    case Arr(items) =>
      forall i | 0 <= i < |items|
        ensures Clean(Sanitize(items[i], tools)) && SameShape(items[i], Sanitize(items[i], tools))
      {
        SanitizeCleans(items[i], tools);
      }
    case Obj(fields) =>
      forall k | k in fields
        ensures Clean(Sanitize(fields[k], tools)) && SameShape(fields[k], Sanitize(fields[k], tools))
      {
        SanitizeCleans(fields[k], tools);
      }
    case _ =>
  }

  lemma {:induction false} MarkerIsObject(value: string, tools: Tools)
    ensures InlineMarker(value, tools).Obj?
  {
  }

  /** Only what holds inline binary is changed. */
  lemma {:induction false} SanitizeIffClean(j: Json, tools: Tools)
    requires Plain(tools)
    ensures Sanitize(j, tools) == j <==> Clean(j)
    decreases j
  {
    hide IsInline, InlineMarker;
    match j
    case Str(s) => MarkerIsObject(s, tools);
    case Arr(items) =>
      forall i | 0 <= i < |items| ensures Sanitize(items[i], tools) == items[i] <==> Clean(items[i]) {
        SanitizeIffClean(items[i], tools);
      }
      var after := Sanitize(j, tools).items;
      assert after == items <==> forall i :: 0 <= i < |items| ==> after[i] == items[i];
    case Obj(fields) =>
      forall k | k in fields ensures Sanitize(fields[k], tools) == fields[k] <==> Clean(fields[k]) {
        SanitizeIffClean(fields[k], tools);
      }
      var after := Sanitize(j, tools).fields;
      assert after == fields <==> forall k :: k in fields ==> after[k] == fields[k];
    case _ =>
  }

  lemma {:induction false} SanitizeIdempotent(j: Json, tools: Tools)
    requires Plain(tools)
    ensures Sanitize(Sanitize(j, tools), tools) == Sanitize(j, tools)
  {
    SanitizeCleans(j, tools);
    SanitizeIffClean(Sanitize(j, tools), tools);
  }

  // ------------------------------------------------------------------------------- members

  /** Begins as a data URL and announces base64 within its first 256 characters. */
  predicate HoldsBinary(s: string) {
    |s| >= 5 && s[..5] == "data:" && exists i :: 0 <= i <= |s| && AnnouncesAt(s, i)
  }

  predicate AnnouncesAt(s: string, i: nat) {
    i <= 248 && i + 8 <= |s| && s[i..i + 8] == ";base64,"
  }

  lemma {:induction false} InlineIff(s: string)
    ensures IsInline(s) <==> HoldsBinary(s)
  {
    var head := Upto(s, 256);
    if HoldsBinary(s) {
      var i :| 0 <= i <= |s| && AnnouncesAt(s, i);
      assert head[i..i + 8] == s[i..i + 8];
      assert StandsAt(head, ";base64,", i);
    }
    if IsInline(s) {
      var i: nat :| i <= |head| && StandsAt(head, ";base64,", i);
      assert s[i..i + 8] == head[i..i + 8];
      assert AnnouncesAt(s, i);
    }
  }

  /** What stands in the place of an inline binary: its length and digest, and the media type that
      stands between the scheme and the first comma or semicolon, folded. */
  lemma {:induction false} BinaryBecomes(media: string, rest: string, tools: Tools)
    requires HoldsBinary("data:" + media + rest) && ';' !in media && ',' !in media
    requires rest != "" && rest[0] in {';', ','}
    ensures var s := "data:" + media + rest;
      Sanitize(Str(s), tools) == Obj(map[
        "ledgermind_omitted" := Bool(true),
        "reason" := Str("inline_binary_payload"),
        "media_type" := Str(if tools.fold(media) == "" then "application/octet-stream" else tools.fold(media)),
        "original_bytes" := Num(|Utf8.Encode(s)| as real),
        "sha256" := Str(tools.hash(Utf8.Encode(s)))])
  {
    hide IsInline, HoldsBinary;
    var s := "data:" + media + rest;
    InlineIff(s);
    assert s == "data:" + (media + rest);
    BeforeSkips("data:", media + rest, ',');
    BeforeSkips(media, rest, ',');
    var tail := Before(rest, ',');
    var header := Before(s, ',');
    assert header == "data:" + (media + tail);
    assert header[5..] == media + tail;
    BeforeSkips(media, tail, ';');
    assert tail == "" || tail[0] == ';';
    assert Before(tail, ';') == "";
    assert Before(header[5..], ';') == media + "" == media;
  }

  lemma {:induction false} BeforeSkips(a: string, b: string, c: char)
    requires c !in a
    ensures Before(a + b, c) == a + Before(b, c)
  {
    if a == "" {
      assert a + b == b;
    } else {
      assert (a + b)[1..] == a[1..] + b;
      assert a[0] in a;
      BeforeSkips(a[1..], b, c);
    }
  }
}
