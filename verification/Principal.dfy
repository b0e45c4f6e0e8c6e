/** Principal ids as text: `p256:` and 130 hex digits. */
module Principal {
  import opened Wrappers
  import opened Bytes
  import opened Primitives
  import opened Errors

  const PREFIX: Text := [112, 50, 53, 54, 58]

  function HexDigit(n: byte): byte
    requires n < 16
  {
    if n < 10 then 48 + n else 87 + n
  }

  /** `hex::decode` reads either case. */
  function HexValue(b: byte): (n: Option<byte>)
    ensures n.Some? ==> n.value < 16 && Lower(b) == HexDigit(n.value)
  {
    if 48 <= b <= 57 then Some(b - 48)
    else if 97 <= b <= 102 then Some(b - 87)
    else if 65 <= b <= 70 then Some(b - 55)
    else None
  }

  /** ASCII lower case. */
  function Lower(b: byte): byte {
    if 65 <= b <= 90 then b + 32 else b
  }

  function LowerAll(s: Text): (r: Text)
    ensures |r| == |s|
  {
    seq(|s|, i requires 0 <= i < |s| => Lower(s[i]))
  }

  function HexEncode(b: seq<byte>): (s: Text)
    ensures |s| == 2 * |b|
  {
    if b == [] then [] else [HexDigit(b[0] / 16), HexDigit(b[0] % 16)] + HexEncode(b[1..])
  }

  function HexDecode(s: Text): (b: Option<seq<byte>>)
    ensures b.Some? ==> 2 * |b.value| == |s|
  {
    if s == [] then Some([])
    else if |s| == 1 then None
    else
      var hi :- HexValue(s[0]);
      var lo :- HexValue(s[1]);
      var rest :- HexDecode(s[2..]);
      Some([16 * hi + lo] + rest)
  }

  /** `Display`. */
  function Display(id: PrincipalId): Text { PREFIX + HexEncode(id.genesis) }

  /** `PublicKey::p256`. */
  function P256Key(b: seq<byte>): Result<PublicKey, Error> {
    if |b| != 65 then Failure(BadLength(KeyField, 65, |b|))
    else if !OnCurve(b) then Failure(InvalidKey)
    else Success(b)
  }

  function Parse(s: Text): Result<PrincipalId, Error> {
    if |s| < 5 || LowerAll(s[..5]) != PREFIX then Failure(MalformedPrincipal)
    else if |s| != 135 then Failure(MalformedPrincipal)
    else
      var bytes :- OkOr(HexDecode(s[5..]), MalformedPrincipal);
      var genesis :- P256Key(bytes);
      Success(PrincipalId(genesis))
  }

  function ParseCanonical(s: Text): Result<PrincipalId, Error> {
    var id :- Parse(s);
    if Display(id) != s then Failure(NonCanonicalPrincipal) else Success(id)
  }

  lemma {:induction false} HexDecodeEncode(b: seq<byte>)
    ensures HexDecode(HexEncode(b)) == Some(b)
  {
    if b != [] {
      HexDecodeEncode(b[1..]);
      assert HexEncode(b)[2..] == HexEncode(b[1..]);
      assert 16 * (b[0] / 16) + b[0] % 16 == b[0];
      assert [b[0]] + b[1..] == b;
    }
  }

  /** Decoding ignores case and loses nothing else. */
  lemma {:induction false} HexEncodeDecode(s: Text)
    requires HexDecode(s).Some?
    ensures HexEncode(HexDecode(s).value) == LowerAll(s)
  {
    if s != [] {
      HexEncodeDecode(s[2..]);
      var rest := HexDecode(s[2..]).value;
      var hi, lo := HexValue(s[0]).value, HexValue(s[1]).value;
      var b := [16 * hi + lo] + rest;
      assert HexDecode(s).value == b && b[1..] == rest;
      assert (16 * hi + lo) / 16 == hi && (16 * hi + lo) % 16 == lo;
      assert HexEncode(b) == [HexDigit(hi), HexDigit(lo)] + HexEncode(rest);
      assert LowerAll(s) == [Lower(s[0]), Lower(s[1])] + LowerAll(s[2..]);
    }
  }

  lemma ParseDisplay(id: PrincipalId)
    ensures Parse(Display(id)) == Success(id)
  {
    HexDecodeEncode(id.genesis);
    assert Display(id)[5..] == HexEncode(id.genesis);
    assert LowerAll(Display(id)[..5]) == PREFIX;
  }

  /** A text is the canonical form of at most one principal, and it is its display. */
  lemma CanonicalIsDisplay(s: Text, id: PrincipalId)
    ensures ParseCanonical(s) == Success(id) <==> s == Display(id)
  {
    if s == Display(id) {
      ParseDisplay(id);
    }
  }

  /** What `parse` accepts beyond the canonical form is exactly a difference of letter case. */
  lemma ParseIgnoresCase(s: Text, id: PrincipalId)
    ensures Parse(s) == Success(id) <==> LowerAll(s) == Display(id)
  {
    if Parse(s) == Success(id) {
      HexEncodeDecode(s[5..]);
      assert LowerAll(s) == LowerAll(s[..5]) + LowerAll(s[5..]);
    } else if LowerAll(s) == Display(id) {
      assert LowerAll(s[..5]) == LowerAll(s)[..5] == PREFIX;
      assert LowerAll(s[5..]) == LowerAll(s)[5..] == HexEncode(id.genesis);
      HexDecodeEncode(id.genesis);
      HexDecodeLower(s[5..]);
      assert false;
    }
  }

  lemma {:induction false} HexDecodeLower(s: Text)
    requires HexDecode(LowerAll(s)).Some?
    ensures HexDecode(s) == HexDecode(LowerAll(s))
  {
    if s != [] {
      assert LowerAll(s)[2..] == LowerAll(s[2..]);
      HexDecodeLower(s[2..]);
    }
  }

  /** The digits of a printed id: two lower-case hex digits for each byte of the key, high half first. */
  lemma {:induction false} HexDigitsAt(b: seq<byte>, i: nat)
    requires i < |b|
    ensures HexEncode(b)[2 * i] == "0123456789abcdef"[b[i] / 16] as int
    ensures HexEncode(b)[2 * i + 1] == "0123456789abcdef"[b[i] % 16] as int
  {
    if i > 0 {
      HexDigitsAt(b[1..], i - 1);
      assert HexEncode(b)[2..] == HexEncode(b[1..]);
      assert HexEncode(b)[2 * i] == HexEncode(b)[2..][2 * (i - 1)];
      assert HexEncode(b)[2 * i + 1] == HexEncode(b)[2..][2 * (i - 1) + 1];
    } else {
      DigitIs(b[0] / 16);
      DigitIs(b[0] % 16);
    }
  }

  lemma DigitIs(n: byte)
    requires n < 16
    ensures HexDigit(n) == "0123456789abcdef"[n] as int
  {
    var digits := "0123456789abcdef";
    assert digits[0] == '0' && digits[1] == '1' && digits[2] == '2' && digits[3] == '3';
    assert digits[4] == '4' && digits[5] == '5' && digits[6] == '6' && digits[7] == '7';
    assert digits[8] == '8' && digits[9] == '9' && digits[10] == 'a' && digits[11] == 'b';
    assert digits[12] == 'c' && digits[13] == 'd' && digits[14] == 'e' && digits[15] == 'f';
  }

  /** A printed id is `p256:` and the hex digits of the genesis key. */
  lemma DisplayDigits(id: PrincipalId, i: nat)
    requires i < 65
    ensures |Display(id)| == 135 && Display(id)[..5] == ['p' as int, '2' as int, '5' as int, '6' as int, ':' as int]
    ensures Display(id)[5 + 2 * i] == "0123456789abcdef"[id.genesis[i] / 16] as int
    ensures Display(id)[6 + 2 * i] == "0123456789abcdef"[id.genesis[i] % 16] as int
  {
    HexDigitsAt(id.genesis, i);
  }

  /** Displays of different principals differ. */
  lemma DisplayInjective(a: PrincipalId, b: PrincipalId)
    requires Display(a) == Display(b)
    ensures a == b
  {
    ParseDisplay(a);
    ParseDisplay(b);
  }
}
