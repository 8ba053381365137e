/** The compact JSON text of a value, as `json.dumps(value, ensure_ascii=False, sort_keys=True,
    separators=(",", ":"))` writes it (sections 4 to 7 of RFC 8259). How a number prints is the
    parameter `show`. */
module JsonText {
  import opened StringOrder
  import opened JsonValue
  import opened Sums
  import Utf8

  const HEX := "0123456789abcdef"

  /** A character inside a string. */
  function Escaped(c: char): string {
    if c == '\"' then "\\\""
    else if c == '\\' then "\\\\"
    else if c == '\n' then "\\n"
    else if c == '\r' then "\\r"
    else if c == '\t' then "\\t"
    else if c == '\U{0008}' then "\\b"
    else if c == '\U{000C}' then "\\f"
    else if c < ' ' then ['\\', 'u', '0', '0', HEX[c as int / 16], HEX[c as int % 16]]
    else [c]
  }

  function Inside(s: string): string {
    if s == "" then "" else Escaped(s[0]) + Inside(s[1..])
  }

  function Quoted(s: string): string {
    "\"" + Inside(s) + "\""
  }

  type Printer = real -> string

  /** The texts with commas between them. */
  function Joined(texts: seq<string>): string {
    if texts == [] then ""
    else if |texts| == 1 then texts[0]
    else texts[0] + "," + Joined(texts[1..])
  }

  /** The texts of the members, in the order of their keys. */
  function InOrder(texts: map<string, string>): (r: seq<string>)
    ensures |r| == |texts|
  {
    if texts == map[] then []
    else
      var k := Least(texts.Keys);
      [texts[k]] + InOrder(texts - {k})
  }

  function Text(j: Json, show: Printer): string
    decreases j
  {
    match j
    case Null => "null"
    case Bool(b) => if b then "true" else "false"
    case Num(v) => show(v)
    case Str(s) => Quoted(s)
    case Arr(items) =>
      "[" + Joined(seq(|items|, i requires 0 <= i < |items| => Text(items[i], show))) + "]"
    case Obj(fields) =>
      "{" + Joined(InOrder(map k | k in fields :: Quoted(k) + ":" + Text(fields[k], show))) + "}"
  }

  function Bytes(text: string): nat {
    |Utf8.Encode(text)|
  }

  lemma {:induction false} BytesConcat(a: string, b: string)
    ensures Bytes(a + b) == Bytes(a) + Bytes(b)
  {
    Utf8.EncodeConcat(a, b);
  }

  /** Characters below U+0080 take one byte each. */
  lemma {:induction false} AsciiBytes(text: string)
    requires forall c :: c in text ==> c < '\U{0080}'
    ensures Bytes(text) == |text|
  {
    if text != "" {
      assert text[0] in text && forall c :: c in text[1..] ==> c in text;
      AsciiBytes(text[1..]);
    }
  }

  lemma {:induction false} EscapedBytes(c: char)
    ensures Bytes(Escaped(c)) == CharSize(c)
  {
    if Escaped(c) == [c] {
      assert Utf8.Encode([c]) == Utf8.EncodeChar(c) + Utf8.Encode("");
    } else {
      assert forall d :: d in HEX ==> d < '\U{0080}';
      if |Escaped(c)| == 6 {
        assert HEX[c as int / 16] in HEX && HEX[c as int % 16] in HEX;
      }
      AsciiBytes(Escaped(c));
    }
  }

  lemma {:induction false} InsideBytes(s: string)
    ensures Bytes(Inside(s)) == CharsSize(s)
  {
    hide CharSize, Escaped;
    if s != "" {
      EscapedBytes(s[0]);
      InsideBytes(s[1..]);
      BytesConcat(Escaped(s[0]), Inside(s[1..]));
    }
  }

  lemma {:induction false} QuotedBytes(s: string)
    ensures Bytes(Quoted(s)) == TextSize(s)
  {
    hide CharsSize, Inside;
    InsideBytes(s);
    AsciiBytes("\"");
    BytesConcat("\"", Inside(s));
    BytesConcat("\"" + Inside(s), "\"");
  }

  function BytesOfAll(texts: seq<string>): (r: seq<nat>)
    ensures |r| == |texts|
  {
    seq(|texts|, i requires 0 <= i < |texts| => Bytes(texts[i]))
  }

  lemma {:induction false} JoinedBytes(texts: seq<string>)
    ensures Bytes(Joined(texts)) == Commas(|texts|) + SumSeq(BytesOfAll(texts))
  {
    hide Bytes;
    if texts == [] {
      assert Bytes("") == 0 by { AsciiBytes(""); }
    } else {
      JoinedBytes(texts[1..]);
      assert BytesOfAll(texts)[1..] == BytesOfAll(texts[1..]);
      if |texts| > 1 {
        AsciiBytes(",");
        BytesConcat(texts[0], ",");
        BytesConcat(texts[0] + ",", Joined(texts[1..]));
      } else {
        assert BytesOfAll(texts[1..]) == [];
      }
    }
  }

  function BytesOfEach(texts: map<string, string>): map<string, nat> {
    map k | k in texts :: Bytes(texts[k])
  }

  lemma {:induction false} SumWithFirst(first: nat, rest: seq<nat>)
    ensures SumSeq([first] + rest) == first + SumSeq(rest)
  {
  }

  lemma {:induction false} OneMember(texts: map<string, string>, k: string)
    requires texts != map[] && k == Least(texts.Keys)
    ensures InOrder(texts) == [texts[k]] + InOrder(texts - {k})
  {
    hide Least;
  }

  lemma {:induction false} OneSize(sizes: map<string, nat>, k: string)
    requires sizes != map[] && k == Least(sizes.Keys)
    ensures SumAscending(sizes) == sizes[k] + SumAscending(sizes - {k})
  {
    hide Least;
  }

  lemma {:induction false} InOrderBytes(texts: map<string, string>)
    ensures SumSeq(BytesOfAll(InOrder(texts))) == SumAscending(BytesOfEach(texts))
    decreases |texts|
  {
    hide Bytes, Least, Sum;
    var sizes := BytesOfEach(texts);
    assert sizes.Keys == texts.Keys;
    if texts == map[] {
      assert sizes == map[];
    } else {
      hide InOrder, SumAscending, SumSeq;
      var k := Least(texts.Keys);
      InOrderBytes(texts - {k});
      OneMember(texts, k);
      OneSize(sizes, k);
      assert BytesOfEach(texts - {k}) == sizes - {k};
      SumWithFirst(Bytes(texts[k]), BytesOfAll(InOrder(texts - {k})));
      assert BytesOfAll(InOrder(texts)) == [Bytes(texts[k])] + BytesOfAll(InOrder(texts - {k}));
    }
  }

  /** The number of bytes a number takes. */
  ghost predicate Measures(numLen: NumLen, show: Printer) {
    forall v: real :: numLen(v) == Bytes(show(v))
  }

  lemma {:induction false} ListSize(items: seq<Json>, numLen: NumLen, show: Printer)
    requires forall i :: 0 <= i < |items| ==> Size(items[i], numLen) == Bytes(Text(items[i], show))
    ensures Size(Arr(items), numLen) == Bytes(Text(Arr(items), show))
  {
    hide Bytes, Joined;
    var texts := seq(|items|, i requires 0 <= i < |items| => Text(items[i], show));
    JoinedBytes(texts);
    assert BytesOfAll(texts) == seq(|items|, i requires 0 <= i < |items| => Size(items[i], numLen));
    Bracketed("[", Joined(texts), "]");
  }

  lemma {:induction false} Bracketed(left: string, text: string, right: string)
    requires |left| == |right| == 1 && left[0] < '\U{0080}' && right[0] < '\U{0080}'
    ensures Bytes(left + text + right) == 2 + Bytes(text)
  {
    AsciiBytes(left);
    AsciiBytes(right);
    BytesConcat(left, text);
    BytesConcat(left + text, right);
  }

  lemma {:induction false} MemberSize(key: string, value: string)
    ensures Bytes(Quoted(key) + ":" + value) == TextSize(key) + 1 + Bytes(value)
  {
    hide Bytes, Quoted, TextSize;
    QuotedBytes(key);
    AsciiBytes(":");
    BytesConcat(Quoted(key), ":");
    BytesConcat(Quoted(key) + ":", value);
  }

  /** The text of each member. */
  function Members(fields: Fields, show: Printer): (r: map<string, string>)
    ensures |r| == |fields|
  {
    var r := map k | k in fields :: Quoted(k) + ":" + Text(fields[k], show);
    assert r.Keys == fields.Keys && |r| == |r.Keys| && |fields| == |fields.Keys|;
    r
  }

  lemma {:induction false} ObjectText(fields: Fields, show: Printer)
    ensures Text(Obj(fields), show) == "{" + Joined(InOrder(Members(fields, show))) + "}"
  {
    hide Joined, InOrder, Quoted;
    assert Members(fields, show) == map k | k in fields :: Quoted(k) + ":" + Text(fields[k], show);
  }

  lemma {:induction false} MemberSizes(fields: Fields, numLen: NumLen, show: Printer)
    requires forall k :: k in fields ==> Size(fields[k], numLen) == Bytes(Text(fields[k], show))
    ensures BytesOfEach(Members(fields, show)) == FieldSizes(fields, numLen)
  {
    hide Bytes, Quoted, TextSize, Size, Text;
    forall k | k in fields ensures Bytes(Members(fields, show)[k]) == TextSize(k) + 1 + Size(fields[k], numLen) {
      MemberSize(k, Text(fields[k], show));
    }
  }

  lemma {:induction false} MembersSize(fields: Fields, numLen: NumLen, show: Printer)
    requires forall k :: k in fields ==> Size(fields[k], numLen) == Bytes(Text(fields[k], show))
    ensures Size(Obj(fields), numLen) == Bytes(Text(Obj(fields), show))
  {
    hide Bytes, Joined, InOrder, Quoted, TextSize, Size, Text, Sum, SumAscending, SumSeq, BytesOfAll;
    var texts := Members(fields, show);
    ObjectText(fields, show);
    MemberSizes(fields, numLen, show);
    ObjectSize(fields, numLen);
    InOrderBytes(texts);
    JoinedBytes(InOrder(texts));
    Bracketed("{", Joined(InOrder(texts)), "}");
  }

  /** The size of a value is the length of its text in UTF-8. */
  lemma {:induction false} SizeIsLength(j: Json, numLen: NumLen, show: Printer)
    requires Measures(numLen, show)
    ensures Size(j, numLen) == |Utf8.Encode(Text(j, show))|
    decreases j
  {
    match j
    case Null => AsciiBytes("null");
    case Bool(b) => AsciiBytes(if b then "true" else "false");
    case Num(v) =>
    case Str(s) => QuotedBytes(s);
    case Arr(items) =>
      forall i | 0 <= i < |items| ensures Size(items[i], numLen) == Bytes(Text(items[i], show)) {
        SizeIsLength(items[i], numLen, show);
      }
      ListSize(items, numLen, show);
    case Obj(fields) =>
      forall k | k in fields ensures Size(fields[k], numLen) == Bytes(Text(fields[k], show)) {
        SizeIsLength(fields[k], numLen, show);
      }
      MembersSize(fields, numLen, show);
  }
}
