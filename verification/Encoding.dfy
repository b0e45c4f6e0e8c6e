/** The self-delimiting value encoding every transcript is built from, with a decoder that inverts it. */
module Encoding {
  import opened Wrappers
  import opened Bytes
  import opened Primitives

  datatype Items = Nil | Cons(head: Item, tail: Items)

  datatype Shapes = End | Then(head: Shape, tail: Shapes)

  /** A covered value. `Present`/`Absent` is the optional marker; `Many` is a count and that many rows. */
  datatype Item =
    | U8(u8: byte)
    | U64(u64: u64)
    | I32(i32: i32)
    | I64(i64: i64)
    | Key(key: PublicKey)
    | Var(bytes: seq<byte>)
    | Fixed(raw: seq<byte>)
    | Absent
    | Present(inner: Items)
    | Many(rows: seq<Items>)

  /** The type of a value: what a decoder must know to read it. */
  datatype Shape =
    | U8Shape
    | U64Shape
    | I32Shape
    | I64Shape
    | KeyShape
    | VarShape
    | FixedShape(size: nat)
    | OptShape(inner: Shapes)
    | ManyShape(row: Shapes)

  // Lists by their elements; `Then` forms continue with `rest`.

  function L1(a: Item): Items { Cons(a, Nil) }

  function L2(a: Item, b: Item): Items { Cons(a, L1(b)) }

  function L3(a: Item, b: Item, c: Item): Items { Cons(a, L2(b, c)) }

  function L4(a: Item, b: Item, c: Item, d: Item): Items { Cons(a, L3(b, c, d)) }

  function L4Then(a: Item, b: Item, c: Item, d: Item, rest: Items): Items {
    Cons(a, Cons(b, Cons(c, Cons(d, rest))))
  }

  function L6(a: Item, b: Item, c: Item, d: Item, e: Item, f: Item): Items {
    L4Then(a, b, c, d, L2(e, f))
  }

  function L7(a: Item, b: Item, c: Item, d: Item, e: Item, f: Item, g: Item): Items {
    L4Then(a, b, c, d, L3(e, f, g))
  }

  function L8(a: Item, b: Item, c: Item, d: Item, e: Item, f: Item, g: Item, h: Item): Items {
    L4Then(a, b, c, d, L4(e, f, g, h))
  }

  function L8Then(a: Item, b: Item, c: Item, d: Item, e: Item, f: Item, g: Item, h: Item, rest: Items): Items {
    L4Then(a, b, c, d, L4Then(e, f, g, h, rest))
  }

  function S1(a: Shape): Shapes { Then(a, End) }

  function S2(a: Shape, b: Shape): Shapes { Then(a, S1(b)) }

  function S3(a: Shape, b: Shape, c: Shape): Shapes { Then(a, S2(b, c)) }

  function S4(a: Shape, b: Shape, c: Shape, d: Shape): Shapes { Then(a, S3(b, c, d)) }

  function S4Then(a: Shape, b: Shape, c: Shape, d: Shape, rest: Shapes): Shapes {
    Then(a, Then(b, Then(c, Then(d, rest))))
  }

  function S6(a: Shape, b: Shape, c: Shape, d: Shape, e: Shape, f: Shape): Shapes {
    S4Then(a, b, c, d, S2(e, f))
  }

  function S7(a: Shape, b: Shape, c: Shape, d: Shape, e: Shape, f: Shape, g: Shape): Shapes {
    S4Then(a, b, c, d, S3(e, f, g))
  }

  function S8(a: Shape, b: Shape, c: Shape, d: Shape, e: Shape, f: Shape, g: Shape, h: Shape): Shapes {
    S4Then(a, b, c, d, S4(e, f, g, h))
  }

  function S8Then(a: Shape, b: Shape, c: Shape, d: Shape, e: Shape, f: Shape, g: Shape, h: Shape, rest: Shapes)
    : Shapes
  {
    S4Then(a, b, c, d, S4Then(e, f, g, h, rest))
  }

  predicate Fits(s: Shape, v: Item)
    decreases s, 0
  {
    match (s, v)
    case (U8Shape, U8(_)) => true
    case (U64Shape, U64(_)) => true
    case (I32Shape, I32(_)) => true
    case (I64Shape, I64(_)) => true
    case (KeyShape, Key(_)) => true
    case (VarShape, Var(b)) => |b| < U32_LIMIT
    case (FixedShape(n), Fixed(b)) => |b| == n
    case (OptShape(_), Absent) => true
    case (OptShape(inner), Present(vs)) => FitsAll(inner, vs)
    case (ManyShape(row), Many(rows)) => |rows| < U32_LIMIT && forall r <- rows :: FitsAll(row, r)
    case _ => false
  }

  predicate FitsAll(ss: Shapes, vs: Items)
    decreases ss, 1
  {
    match (ss, vs)
    case (End, Nil) => true
    case (Then(s, st), Cons(v, vt)) => Fits(s, v) && FitsAll(st, vt)
    case _ => false
  }

  function U32Bytes(n: nat): (b: seq<byte>)
    ensures |b| == 4
  {
    BigEndian(n, 4)
  }

  function U64Bytes(n: u64): (b: seq<byte>)
    ensures |b| == 8
  {
    BigEndian(n, 8)
  }

  function I64Bytes(i: i64): (b: seq<byte>)
    ensures |b| == 8
  {
    Widths();
    BigEndian(Unsigned(i, 8), 8)
  }

  function I32Bytes(i: i32): (b: seq<byte>)
    ensures |b| == 4
  {
    Widths();
    BigEndian(Unsigned(i, 4), 4)
  }

  /** `len(x)`: a u32 length, then the bytes. Fitting values have a length below `U32_LIMIT`. */
  function VarBytes(b: seq<byte>): seq<byte> { U32Bytes(|b|) + b }

  /** `KEY`: the scheme byte, then the length-prefixed key. */
  function KeyBytes(k: PublicKey): seq<byte> { [P256] + VarBytes(k) }

  const P256: byte := 3

  function Encode(v: Item): seq<byte>
    decreases v, 0
  {
    match v
    case U8(n) => [n]
    case U64(n) => U64Bytes(n)
    case I32(i) => I32Bytes(i)
    case I64(i) => I64Bytes(i)
    case Key(k) => KeyBytes(k)
    case Var(b) => VarBytes(b)
    case Fixed(b) => b
    case Absent => [0]
    case Present(vs) => [1] + EncodeAll(vs)
    case Many(rows) => U32Bytes(|rows|) + EncodeRows(rows)
  }

  function EncodeAll(vs: Items): seq<byte>
    decreases vs, 1
  {
    match vs
    case Nil => []
    case Cons(v, rest) => Encode(v) + EncodeAll(rest)
  }

  function EncodeRows(rows: seq<Items>): seq<byte>
    decreases rows, 1
  {
    if rows == [] then [] else EncodeRows(rows[..|rows| - 1]) + EncodeAll(rows[|rows| - 1])
  }

  /** What a reader got and what it left. */
  type Read<T> = Option<(T, seq<byte>)>

  function TakeBytes(bs: seq<byte>, n: nat): (r: Read<seq<byte>>)
    ensures r.Some? ==> |r.value.0| == n && r.value.0 + r.value.1 == bs
  {
    if |bs| < n then None else Some((bs[..n], bs[n..]))
  }

  function DecodeVar(bs: seq<byte>): Read<seq<byte>> {
    var (length, rest) :- TakeBytes(bs, 4);
    TakeBytes(rest, FromBigEndian(length))
  }

  function Decode(s: Shape, bs: seq<byte>): Read<Item>
    decreases s, 0
  {
    Widths();
    match s
    case U8Shape =>
      var (b, rest) :- TakeBytes(bs, 1);
      Some((U8(b[0]), rest))
    case U64Shape =>
      var (b, rest) :- TakeBytes(bs, 8);
      Some((U64(FromBigEndian(b)), rest))
    case I32Shape =>
      var (b, rest) :- TakeBytes(bs, 4);
      Some((I32(Signed(FromBigEndian(b), 4)), rest))
    case I64Shape =>
      var (b, rest) :- TakeBytes(bs, 8);
      Some((I64(Signed(FromBigEndian(b), 8)), rest))
    case KeyShape =>
      var (scheme, rest) :- TakeBytes(bs, 1);
      var (key, tail) :- DecodeVar(rest);
      if scheme[0] == P256 && |key| == 65 && OnCurve(key) then Some((Key(key), tail)) else None
    case VarShape =>
      var (b, rest) :- DecodeVar(bs);
      Some((Var(b), rest))
    case FixedShape(n) =>
      var (b, rest) :- TakeBytes(bs, n);
      Some((Fixed(b), rest))
    case OptShape(inner) =>
      var (flag, rest) :- TakeBytes(bs, 1);
      if flag[0] == 0 then Some((Absent, rest))
      else if flag[0] != 1 then None
      else
        var (vs, tail) :- DecodeAll(inner, rest);
        Some((Present(vs), tail))
    case ManyShape(row) =>
      var (count, rest) :- TakeBytes(bs, 4);
      var (rows, tail) :- DecodeRows(row, FromBigEndian(count), rest);
      Some((Many(rows), tail))
  }

  function DecodeAll(ss: Shapes, bs: seq<byte>): Read<Items>
    decreases ss, 1
  {
    match ss
    case End => Some((Nil, bs))
    case Then(s, st) =>
      var (v, rest) :- Decode(s, bs);
      var (vs, tail) :- DecodeAll(st, rest);
      Some((Cons(v, vs), tail))
  }

  function DecodeRows(row: Shapes, n: nat, bs: seq<byte>): Read<seq<Items>>
    decreases row, 2, n
  {
    if n == 0 then Some(([], bs))
    else
      var (rows, rest) :- DecodeRows(row, n - 1, bs);
      var (r, tail) :- DecodeAll(row, rest);
      Some((rows + [r], tail))
  }

  // Reading back what was written.

  lemma TakeAppend(a: seq<byte>, rest: seq<byte>)
    ensures TakeBytes(a + rest, |a|) == Some((a, rest))
  {
    assert (a + rest)[..|a|] == a && (a + rest)[|a|..] == rest;
  }

  lemma Assoc(a: seq<byte>, b: seq<byte>, c: seq<byte>)
    ensures (a + b) + c == a + (b + c)
  {}

  lemma VarAppend(b: seq<byte>, rest: seq<byte>)
    requires |b| < U32_LIMIT
    ensures DecodeVar(VarBytes(b) + rest) == Some((b, rest))
  {
    Widths();
    BigEndianRoundTrip(|b|, 4);
    Assoc(U32Bytes(|b|), b, rest);
    TakeAppend(U32Bytes(|b|), b + rest);
    TakeAppend(b, rest);
  }

  /** A fitting value is read back from its bytes, whatever follows them. */
  lemma {:induction false} DecodeEncode(s: Shape, v: Item, rest: seq<byte>)
    requires Fits(s, v)
    ensures Decode(s, Encode(v) + rest) == Some((v, rest))
    decreases s, 0
  {
    Widths();
    match (s, v)
    case (U8Shape, U8(n)) => TakeAppend([n], rest);
    case (U64Shape, U64(n)) => TakeAppend(Encode(v), rest); BigEndianRoundTrip(n, 8);
    case (I32Shape, I32(i)) => TakeAppend(Encode(v), rest); BigEndianRoundTrip(Unsigned(i, 4), 4);
    case (I64Shape, I64(i)) => TakeAppend(Encode(v), rest); BigEndianRoundTrip(Unsigned(i, 8), 8);
    case (KeyShape, Key(k)) =>
      Assoc([P256], VarBytes(k), rest);
      TakeAppend([P256], VarBytes(k) + rest);
      VarAppend(k, rest);
    case (VarShape, Var(b)) => VarAppend(b, rest);
    case (FixedShape(n), Fixed(b)) => TakeAppend(b, rest);
    case (OptShape(_), Absent) => TakeAppend([0], rest);
    case (OptShape(inner), Present(vs)) =>
      Assoc([1], EncodeAll(vs), rest);
      TakeAppend([1], EncodeAll(vs) + rest);
      DecodeEncodeAll(inner, vs, rest);
    case (ManyShape(row), Many(rows)) =>
      Assoc(U32Bytes(|rows|), EncodeRows(rows), rest);
      TakeAppend(U32Bytes(|rows|), EncodeRows(rows) + rest);
      BigEndianRoundTrip(|rows|, 4);
      DecodeEncodeRows(row, rows, rest);
  }

  lemma {:induction false} DecodeEncodeAll(ss: Shapes, vs: Items, rest: seq<byte>)
    requires FitsAll(ss, vs)
    ensures DecodeAll(ss, EncodeAll(vs) + rest) == Some((vs, rest))
    decreases ss, 1
  {
    match (ss, vs)
    case (End, Nil) => assert EncodeAll(vs) + rest == rest;
    case (Then(s, st), Cons(v, vt)) =>
      Assoc(Encode(v), EncodeAll(vt), rest);
      DecodeEncode(s, v, EncodeAll(vt) + rest);
      DecodeEncodeAll(st, vt, rest);
  }

  lemma {:induction false} DecodeEncodeRows(row: Shapes, rows: seq<Items>, rest: seq<byte>)
    requires forall r <- rows :: FitsAll(row, r)
    ensures DecodeRows(row, |rows|, EncodeRows(rows) + rest) == Some((rows, rest))
    decreases row, 2, |rows|
  {
    if rows == [] {
      assert EncodeRows(rows) + rest == rest;
    } else {
      var init, last := rows[..|rows| - 1], rows[|rows| - 1];
      Assoc(EncodeRows(init), EncodeAll(last), rest);
      assert init + [last] == rows;
      DecodeEncodeRows(row, init, EncodeAll(last) + rest);
      DecodeEncodeAll(row, last, rest);
    }
  }

  // Writing back what was read: no other bytes decode to the same value.

  lemma VarParts(bs: seq<byte>)
    requires DecodeVar(bs).Some?
    ensures |DecodeVar(bs).value.0| < U32_LIMIT
    ensures VarBytes(DecodeVar(bs).value.0) + DecodeVar(bs).value.1 == bs
  {
    Widths();
    var (length, rest) := TakeBytes(bs, 4).value;
    FromBigEndianRoundTrip(length);
    var (b, tail) := DecodeVar(bs).value;
    Assoc(length, b, tail);
  }

  /** What a shape accepts is exactly the encoding of the value it returns. */
  lemma {:induction false} EncodeDecode(s: Shape, bs: seq<byte>)
    requires Decode(s, bs).Some?
    ensures var (v, rest) := Decode(s, bs).value; Fits(s, v) && Encode(v) + rest == bs
    decreases s, 0
  {
    Widths();
    match s
    case U8Shape =>
    case U64Shape => FromBigEndianRoundTrip(bs[..8]);
    case I32Shape => FromBigEndianRoundTrip(bs[..4]);
    case I64Shape => FromBigEndianRoundTrip(bs[..8]);
    case KeyShape =>
      VarParts(bs[1..]);
      var (key, rest) := DecodeVar(bs[1..]).value;
      Assoc([P256], VarBytes(key), rest);
      assert bs[..1] == [P256];
    case VarShape => VarParts(bs);
    case FixedShape(n) =>
    case OptShape(inner) =>
      assert bs[..1] == [bs[0]];
      if bs[0] == 1 {
        EncodeDecodeAll(inner, bs[1..]);
        var (vs, rest) := DecodeAll(inner, bs[1..]).value;
        Assoc([1], EncodeAll(vs), rest);
      }
    case ManyShape(row) =>
      FromBigEndianRoundTrip(bs[..4]);
      EncodeDecodeRows(row, FromBigEndian(bs[..4]), bs[4..]);
      var (rows, rest) := DecodeRows(row, FromBigEndian(bs[..4]), bs[4..]).value;
      Assoc(U32Bytes(|rows|), EncodeRows(rows), rest);
  }

  lemma {:induction false} EncodeDecodeAll(ss: Shapes, bs: seq<byte>)
    requires DecodeAll(ss, bs).Some?
    ensures var (vs, rest) := DecodeAll(ss, bs).value; FitsAll(ss, vs) && EncodeAll(vs) + rest == bs
    decreases ss, 1
  {
    match ss
    case End =>
    case Then(s, st) =>
      EncodeDecode(s, bs);
      var (v, rest) := Decode(s, bs).value;
      EncodeDecodeAll(st, rest);
      var (vs, tail) := DecodeAll(st, rest).value;
      Assoc(Encode(v), EncodeAll(vs), tail);
  }

  lemma {:induction false} EncodeDecodeRows(row: Shapes, n: nat, bs: seq<byte>)
    requires DecodeRows(row, n, bs).Some?
    ensures var (rows, rest) := DecodeRows(row, n, bs).value;
            |rows| == n && (forall r <- rows :: FitsAll(row, r)) && EncodeRows(rows) + rest == bs
    decreases row, 2, n
  {
    if n > 0 {
      EncodeDecodeRows(row, n - 1, bs);
      var (rows, rest) := DecodeRows(row, n - 1, bs).value;
      EncodeDecodeAll(row, rest);
      var (r, tail) := DecodeAll(row, rest).value;
      assert (rows + [r])[..n - 1] == rows;
      Assoc(EncodeRows(rows), EncodeAll(r), tail);
    }
  }

  /** The definitions of `EncodeAll` and `FitsAll` at every list the caller mentions. */
  lemma UnfoldEncode()
    ensures forall v, vs {:trigger EncodeAll(Cons(v, vs))} :: EncodeAll(Cons(v, vs)) == Encode(v) + EncodeAll(vs)
  {}

  lemma UnfoldFits()
    ensures forall s, ss, v, vs {:trigger FitsAll(Then(s, ss), Cons(v, vs))} ::
              FitsAll(Then(s, ss), Cons(v, vs)) == (Fits(s, v) && FitsAll(ss, vs))
  {}
}
