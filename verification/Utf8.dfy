/** UTF-8 as section 3 of RFC 3629 defines it, with a strict decoder written from the byte
    grammar of section 4. A Dafny `char` is a Unicode scalar value, so a `string` here is a
    Python `str` without lone surrogates (the only ones `str.encode` accepts). */
module Utf8 {
  import opened Options

  type Byte = x: int | 0 <= x < 256

  predicate Tail(b: Byte) {
    0x80 <= b < 0xC0
  }

  function EncodeChar(c: char): (b: seq<Byte>)
    ensures 1 <= |b| <= 4
    ensures !Tail(b[0])
    ensures forall i :: 1 <= i < |b| ==> Tail(b[i])
  {
    var x := c as int;
    if x < 0x80 then [x]
    else if x < 0x800 then [0xC0 + x / 0x40, 0x80 + x % 0x40]
    else if x < 0x10000 then [0xE0 + x / 0x1000, 0x80 + x / 0x40 % 0x40, 0x80 + x % 0x40]
    else [0xF0 + x / 0x40000, 0x80 + x / 0x1000 % 0x40, 0x80 + x / 0x40 % 0x40, 0x80 + x % 0x40]
  }

  function Encode(s: string): seq<Byte> {
    if s == "" then [] else EncodeChar(s[0]) + Encode(s[1..])
  }

  datatype Decoded = Decoded(c: char, width: nat)

  function Scalar2(h: int, t: int): int {
    (h - 0xC0) * 0x40 + (t - 0x80)
  }

  function Scalar3(h: int, t: int, u: int): int {
    (h - 0xE0) * 0x1000 + (t - 0x80) * 0x40 + (u - 0x80)
  }

  function Scalar4(h: int, t: int, u: int, v: int): int {
    (h - 0xF0) * 0x40000 + (t - 0x80) * 0x1000 + (u - 0x80) * 0x40 + (v - 0x80)
  }

  /** The first character of `b`, if `b` starts with one of the four forms of section 4. */
  function DecodeChar(b: seq<Byte>): (r: Option<Decoded>)
    ensures r.Some? ==> 1 <= r.value.width <= |b|
  {
    if |b| == 0 then None
    else if b[0] < 0x80 then Some(Decoded(b[0] as char, 1))
    else if 0xC2 <= b[0] < 0xE0 && |b| >= 2 && Tail(b[1]) then
      Some(Decoded(Scalar2(b[0], b[1]) as char, 2))
    else if 0xE0 <= b[0] < 0xF0 && |b| >= 3 && Tail(b[1]) && Tail(b[2])
         && (b[0] == 0xE0 ==> b[1] >= 0xA0) && (b[0] == 0xED ==> b[1] < 0xA0) then
      Some(Decoded(Scalar3(b[0], b[1], b[2]) as char, 3))
    else if 0xF0 <= b[0] < 0xF5 && |b| >= 4 && Tail(b[1]) && Tail(b[2]) && Tail(b[3])
         && (b[0] == 0xF0 ==> b[1] >= 0x90) && (b[0] == 0xF4 ==> b[1] < 0x90) then
      Some(Decoded(Scalar4(b[0], b[1], b[2], b[3]) as char, 4))
    else None
  }

  /** Strict decoding: None is where `bytes.decode("utf-8")` raises. */
  function Decode(b: seq<Byte>): Option<string> {
    if b == [] then Some("")
    else
      match DecodeChar(b)
      case None => None
      case Some(first) =>
        match Decode(b[first.width..])
        case None => None
        case Some(rest) => Some([first.c] + rest)
  }

  lemma {:induction false} DecodeEncodedChar(c: char, rest: seq<Byte>)
    ensures DecodeChar(EncodeChar(c) + rest) == Some(Decoded(c, |EncodeChar(c)|))
  {
    var x := c as int;
    if 0x800 <= x < 0x10000 {
      assert x == x / 0x1000 * 0x1000 + x / 0x40 % 0x40 * 0x40 + x % 0x40;
    } else if 0x10000 <= x {
      assert x == x / 0x40000 * 0x40000 + x / 0x1000 % 0x40 * 0x1000 + x / 0x40 % 0x40 * 0x40 + x % 0x40;
    }
  }

  lemma {:induction false} Scalar3Digits(h: int, t: int, u: int)
    requires 0x80 <= t < 0xC0 && 0x80 <= u < 0xC0
    ensures var x := Scalar3(h, t, u);
            x / 0x1000 == h - 0xE0 && x / 0x40 % 0x40 == t - 0x80 && x % 0x40 == u - 0x80
  {
    var x := Scalar3(h, t, u);
    assert x / 0x40 == (h - 0xE0) * 0x40 + (t - 0x80);
  }

  lemma {:induction false} Scalar4Digits(h: int, t: int, u: int, v: int)
    requires 0x80 <= t < 0xC0 && 0x80 <= u < 0xC0 && 0x80 <= v < 0xC0
    ensures var x := Scalar4(h, t, u, v);
            && x / 0x40000 == h - 0xF0 && x / 0x1000 % 0x40 == t - 0x80
            && x / 0x40 % 0x40 == u - 0x80 && x % 0x40 == v - 0x80
  {
    var x := Scalar4(h, t, u, v);
    var high := (h - 0xF0) * 0x40 + (t - 0x80);
    Scalar3Digits(high + 0xE0, u, v);
    assert x == Scalar3(high + 0xE0, u, v);
  }

  lemma {:induction false} EncodeDecodedChar(b: seq<Byte>)
    requires DecodeChar(b).Some?
    ensures EncodeChar(DecodeChar(b).value.c) == b[..DecodeChar(b).value.width]
  {
    var d := DecodeChar(b).value;
    if d.width == 3 {
      Scalar3Digits(b[0], b[1], b[2]);
      assert EncodeChar(d.c) == [b[0], b[1], b[2]];
    } else if d.width == 4 {
      Scalar4Digits(b[0], b[1], b[2], b[3]);
      assert EncodeChar(d.c) == [b[0], b[1], b[2], b[3]];
    } else if d.width == 2 {
      assert EncodeChar(d.c) == [b[0], b[1]];
    }
  }

  lemma {:induction false} DecodeEncode(s: string)
    ensures Decode(Encode(s)) == Some(s)
  {
    if s != "" {
      DecodeEncodedChar(s[0], Encode(s[1..]));
      assert Encode(s)[|EncodeChar(s[0])|..] == Encode(s[1..]);
      DecodeEncode(s[1..]);
      assert s == [s[0]] + s[1..];
    }
  }

  lemma {:induction false} EncodeDecode(b: seq<Byte>)
    ensures Decode(b).Some? ==> Encode(Decode(b).value) == b
  {
    if b != [] && Decode(b).Some? {
      var first := DecodeChar(b).value;
      EncodeDecodedChar(b);
      EncodeDecode(b[first.width..]);
      var s := Decode(b).value;
      assert s[1..] == Decode(b[first.width..]).value;
      assert b == b[..first.width] + b[first.width..];
    }
  }

  /** Strict decoding accepts exactly the encodings of texts, and inverts them. */
  lemma {:induction false} DecodeIff(b: seq<Byte>, s: string)
    ensures Decode(b) == Some(s) <==> Encode(s) == b
  {
    DecodeEncode(s);
    EncodeDecode(b);
  }

  lemma {:induction false} EncodeConcat(a: string, b: string)
    ensures Encode(a + b) == Encode(a) + Encode(b)
  {
    if a == "" {
      assert a + b == b;
    } else {
      assert (a + b)[1..] == a[1..] + b;
      EncodeConcat(a[1..], b);
    }
  }

  lemma {:induction false} EncodeSplit(s: string, i: nat)
    requires i <= |s|
    ensures Encode(s) == Encode(s[..i]) + Encode(s[i..])
  {
    hide Encode;
    EncodeConcat(s[..i], s[i..]);
    assert s == s[..i] + s[i..];
  }

  lemma {:induction false} EncodeLength(s: string)
    ensures |s| <= |Encode(s)| <= 4 * |s|
  {
    if s != "" {
      EncodeLength(s[1..]);
    }
  }

  /** Self-synchronisation, first half: a byte that is not a tail byte starts a character. */
  lemma {:induction false} NonTailIsBoundary(s: string, p: nat) returns (i: nat)
    requires p < |Encode(s)| && !Tail(Encode(s)[p])
    ensures i < |s| && |Encode(s[..i])| == p
  {
    var head := EncodeChar(s[0]);
    if p < |head| {
      i := 0;
    } else {
      var j := NonTailIsBoundary(s[1..], p - |head|);
      i := j + 1;
      assert s[..i][1..] == s[1..][..j];
    }
  }

  /** Self-synchronisation, second half: no encoding is a prefix of another text's encoding
      unless the text itself is a prefix. */
  lemma {:induction false} EncodePrefix(a: string, b: string)
    requires Encode(a) <= Encode(b)
    ensures a <= b
  {
    if a != "" {
      var ha := EncodeChar(a[0]);
      assert Encode(b) != [];
      var hb := EncodeChar(b[0]);
      DecodeEncodedChar(a[0], Encode(b)[|ha|..]);
      assert Encode(b) == ha + Encode(b)[|ha|..];
      DecodeEncodedChar(b[0], Encode(b[1..]));
      assert a[0] == b[0];
      assert Encode(a[1..]) == Encode(a)[|ha|..];
      assert Encode(b[1..]) == Encode(b)[|ha|..];
      EncodePrefix(a[1..], b[1..]);
    }
  }

  /** Prefix lengths in bytes and in characters grow together. */
  lemma {:induction false} EncodePrefixLengthInjective(s: string, i: nat, j: nat)
    requires i <= j <= |s|
    ensures |Encode(s[..j])| - |Encode(s[..i])| == |Encode(s[i..j])| >= j - i
  {
    EncodeConcat(s[..i], s[i..j]);
    assert s[..j] == s[..i] + s[i..j];
    EncodeLength(s[i..j]);
  }
}
