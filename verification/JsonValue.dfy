/** JSON values as `json.loads` returns them, and the length of the compact encoding that
    `json.dumps(value, ensure_ascii=False, sort_keys=True, separators=(",", ":"))` gives in
    UTF-8 (sections 3 to 7 of RFC 8259). How many characters a number prints in is a
    parameter, `numLen`. */
module JsonValue {
  import opened Options
  import opened Sums
  import Utf8

  datatype Json =
    | Null
    | Bool(b: bool)
    | Num(v: real)
    | Str(s: string)
    | Arr(items: seq<Json>)
    | Obj(fields: map<string, Json>)

  type Fields = map<string, Json>

  type NumLen = real -> nat

  /** Bytes of one character inside a JSON string. */
  function CharSize(c: char): (n: nat)
    ensures n >= 1
  {
    if c in {'\"', '\\', '\n', '\r', '\t', '\U{0008}', '\U{000C}'} then 2
    else if c < ' ' then 6
    else |Utf8.EncodeChar(c)|
  }

  function CharsSize(s: string): (n: nat)
    ensures n >= |s|
  {
    if s == "" then 0 else CharSize(s[0]) + CharsSize(s[1..])
  }

  function TextSize(s: string): (n: nat)
    ensures n >= |s| + 2
  {
    2 + CharsSize(s)
  }

  /** Bytes of the compact encoding. */
  function Size(j: Json, numLen: NumLen): nat
    decreases j
  {
    match j
    case Null => 4
    case Bool(b) => if b then 4 else 5
    case Num(v) => numLen(v)
    case Str(s) => TextSize(s)
    case Arr(items) =>
      2 + Commas(|items|) + SumSeq(seq(|items|, i requires 0 <= i < |items| => Size(items[i], numLen)))
    case Obj(fields) =>
      2 + Commas(|fields|) + SumAscending(map k | k in fields :: TextSize(k) + 1 + Size(fields[k], numLen))
  }

  /** Bytes of each `"key":value` member. */
  function FieldSizes(fields: Fields, numLen: NumLen): map<string, nat>
  {
    map k | k in fields :: TextSize(k) + 1 + Size(fields[k], numLen)
  }

  lemma {:induction false} ObjectSize(fields: Fields, numLen: NumLen)
    ensures Size(Obj(fields), numLen) == 2 + Commas(|fields|) + Sum(FieldSizes(fields, numLen))
  {
    assert FieldSizes(fields, numLen) == map k | k in fields :: TextSize(k) + 1 + Size(fields[k], numLen);
  }

  function Commas(n: nat): nat {
    if n == 0 then 0 else n - 1
  }

  function SumSeq(sizes: seq<nat>): nat {
    if sizes == [] then 0 else sizes[0] + SumSeq(sizes[1..])
  }

  lemma {:induction false} SumSeqUpdate(sizes: seq<nat>, i: nat, v: nat)
    requires i < |sizes|
    ensures SumSeq(sizes[i := v]) == SumSeq(sizes) - sizes[i] + v
  {
    if i > 0 {
      SumSeqUpdate(sizes[1..], i - 1, v);
      assert sizes[i := v][1..] == sizes[1..][i - 1 := v];
    } else {
      assert sizes[i := v][1..] == sizes[1..];
    }
  }

  lemma {:induction false} SumSeqMember(sizes: seq<nat>, i: nat)
    requires i < |sizes|
    ensures sizes[i] <= SumSeq(sizes)
  {
    if i > 0 {
      SumSeqMember(sizes[1..], i - 1);
    }
  }

  /** Replacing one member's value changes the encoded length by the difference of the two
      values' lengths: the encoding is compositional. */
  lemma {:induction false} SizeOfReplacedField(fields: Fields, key: string, v: Json, numLen: NumLen)
    requires key in fields
    ensures Size(Obj(fields[key := v]), numLen)
         == Size(Obj(fields), numLen) - Size(fields[key], numLen) + Size(v, numLen)
  {
    hide Size, CharsSize;
    var sizes := FieldSizes(fields, numLen);
    var after := FieldSizes(fields[key := v], numLen);
    ObjectSize(fields, numLen);
    ObjectSize(fields[key := v], numLen);
    var one := TextSize(key) + 1 + Size(v, numLen);
    assert after == sizes[key := one];
    SumUpdate(sizes, key, one);
    assert |fields[key := v]| == |fields|;
  }

  /** A member's value is never longer than the object around it. */
  lemma {:induction false} FieldSizeBound(fields: Fields, key: string, numLen: NumLen)
    requires key in fields
    ensures Size(fields[key], numLen) < Size(Obj(fields), numLen)
  {
    ObjectSize(fields, numLen);
    SumRemove(FieldSizes(fields, numLen), key);
  }

  function Get(fields: Fields, key: string): Json {
    if key in fields then fields[key] else Null
  }

  /** The member is there, with this value. */
  predicate Says(o: Fields, key: string, value: Json) {
    key in o && o[key] == value
  }

  /** The member is an object, and says this. */
  predicate SaysIn(o: Fields, part: string, key: string, value: Json) {
    part in o && o[part].Obj? && Says(o[part].fields, key, value)
  }

  /** `float(value)`: None where Python raises TypeError or ValueError. Reading a number out
      of a string is the parameter `parse`. */
  function ToFloat(j: Json, parse: string -> Option<real>): Option<real> {
    match j
    case Num(v) => Some(v)
    case Bool(b) => Some(if b then 1.0 else 0.0)
    case Str(s) => parse(s)
    case _ => None
  }

  function Truncate(v: real): int {
    if v >= 0.0 then v.Floor else -((-v).Floor)
  }

  /** `int(value)`: truncation toward zero; None where Python raises. */
  function ToInt(j: Json, parse: string -> Option<int>): Option<int> {
    match j
    case Num(v) => Some(Truncate(v))
    case Bool(b) => Some(if b then 1 else 0)
    case Str(s) => parse(s)
    case _ => None
  }

  /** Python's `==` on JSON values: like equality, except that True == 1 and False == 0. */
  predicate PyEqual(a: Json, b: Json)
    decreases a
  {
    match (a, b)
    case (Bool(x), Num(v)) => v == (if x then 1.0 else 0.0)
    case (Num(v), Bool(x)) => v == (if x then 1.0 else 0.0)
    case (Arr(xs), Arr(ys)) => |xs| == |ys| && forall i :: 0 <= i < |xs| ==> PyEqual(xs[i], ys[i])
    case (Obj(m), Obj(n)) => m.Keys == n.Keys && forall k :: k in m ==> PyEqual(m[k], n[k])
    case _ => a == b
  }

  lemma {:induction false} PyEqualReflexive(a: Json)
    ensures PyEqual(a, a)
  {
    match a
    case Arr(xs) =>
      forall i | 0 <= i < |xs| ensures PyEqual(xs[i], xs[i]) {
        PyEqualReflexive(xs[i]);
      }
    case Obj(m) =>
      forall k | k in m ensures PyEqual(m[k], m[k]) {
        PyEqualReflexive(m[k]);
      }
    case _ =>
  }

  /** The value with True and False replaced by the numbers they count as. */
  function Numeric(j: Json): Json
    decreases j
  {
    match j
    case Bool(b) => Num(if b then 1.0 else 0.0)
    case Arr(items) => Arr(seq(|items|, i requires 0 <= i < |items| => Numeric(items[i])))
    case Obj(fields) => Obj(map k | k in fields :: Numeric(fields[k]))
    case _ => j
  }

  /** Python's equality is equality of the two values once truth values are numbers. */
  lemma {:induction false} PyEqualIff(a: Json, b: Json)
    ensures PyEqual(a, b) <==> Numeric(a) == Numeric(b)
    decreases a
  {
    match (a, b) {
      case (Arr(xs), Arr(ys)) =>
        if |xs| == |ys| {
          forall i | 0 <= i < |xs| ensures PyEqual(xs[i], ys[i]) <==> Numeric(a).items[i] == Numeric(b).items[i] {
            PyEqualIff(xs[i], ys[i]);
          }
        } else {
          assert |Numeric(a).items| != |Numeric(b).items|;
        }
      case (Obj(m), Obj(n)) =>
        if m.Keys == n.Keys {
          forall k | k in m ensures PyEqual(m[k], n[k]) <==> Numeric(a).fields[k] == Numeric(b).fields[k] {
            PyEqualIff(m[k], n[k]);
          }
        } else {
          assert Numeric(a).fields.Keys == m.Keys && Numeric(b).fields.Keys == n.Keys;
        }
      case _ =>
    }
  }
}
