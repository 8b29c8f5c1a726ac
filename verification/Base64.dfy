/** The base64url spelling of nonces and proofs, and the check that a string is the canonical
    unpadded encoding of exactly `n` bytes. */
module Base64 {
  import opened Wire

  /** The alphabet of section 5 of RFC 4648, as characters of the encoded string. */
  function Char(v: nat): byte
    requires v < 64
  {
    if v < 26 then 0x41 + v
    else if v < 52 then 0x61 + v - 26
    else if v < 62 then 0x30 + v - 52
    else if v == 62 then 0x2D
    else 0x5F
  }

  function Value(c: byte): Option<nat> {
    if 0x41 <= c <= 0x5A then Some(c - 0x41)
    else if 0x61 <= c <= 0x7A then Some(c - 0x61 + 26)
    else if 0x30 <= c <= 0x39 then Some(c - 0x30 + 52)
    else if c == 0x2D then Some(62)
    else if c == 0x5F then Some(63)
    else None
  }

  lemma ValueOfChar(v: nat)
    requires v < 64
    ensures Value(Char(v)) == Some(v)
  {}

  function EncodedLength(n: nat): nat {
    n / 3 * 4 + (if n % 3 == 0 then 0 else n % 3 + 1)
  }

  function Encode(b: seq<byte>): seq<byte> {
    if |b| == 0 then []
    else if |b| == 1 then [Char(b[0] / 4), Char(b[0] % 4 * 16)]
    else if |b| == 2 then [Char(b[0] / 4), Char(b[0] % 4 * 16 + b[1] / 16), Char(b[1] % 16 * 4)]
    else
      [Char(b[0] / 4), Char(b[0] % 4 * 16 + b[1] / 16), Char(b[1] % 16 * 4 + b[2] / 64), Char(b[2] % 64)] + Encode(b[3..])
  }

  /** The lenient decoder: characters outside the alphabet and a single trailing character are
      errors, stray low bits of the last character are not. */
  function Decode(s: seq<byte>): Option<seq<byte>> {
    if |s| == 0 then Some([])
    else if |s| == 1 then None
    else if Value(s[0]) == None || Value(s[1]) == None then None
    else
      var a, b := Value(s[0]).value, Value(s[1]).value;
      assert a < 64 && b < 64;
      if |s| == 2 then Some([a * 4 + b / 16])
      else if Value(s[2]) == None then None
      else
        var c := Value(s[2]).value;
        assert c < 64;
        if |s| == 3 then Some([a * 4 + b / 16, b % 16 * 16 + c / 4])
        else if Value(s[3]) == None then None
        else
          var d := Value(s[3]).value;
          assert d < 64;
          match Decode(s[4..])
          case None => None
          case Some(rest) => Some([a * 4 + b / 16, b % 16 * 16 + c / 4, c % 4 * 64 + d] + rest)
  }

  lemma {:induction false} EncodeLength(b: seq<byte>)
    ensures |Encode(b)| == EncodedLength(|b|)
    decreases |b|
  {
    if |b| >= 3 { EncodeLength(b[3..]); }
  }

  lemma {:induction false} DecodeEncode(b: seq<byte>)
    ensures Decode(Encode(b)) == Some(b)
    decreases |b|
  {
    hide Char, Value;
    if |b| == 1 {
      GroupRoundTrip(b[0], 0, 0);
      assert b == [b[0]];
    } else if |b| == 2 {
      GroupRoundTrip(b[0], b[1], 0);
      assert b == [b[0], b[1]];
    } else if |b| >= 3 {
      DecodeEncode(b[3..]);
      GroupDecodes(b[0], b[1], b[2], Encode(b[3..]));
      assert b == [b[0], b[1], b[2]] + b[3..];
    }
  }

  lemma GroupDecodes(x: byte, y: byte, z: byte, rest: seq<byte>)
    requires Decode(rest).Some?
    ensures Decode([Char(x / 4), Char(x % 4 * 16 + y / 16), Char(y % 16 * 4 + z / 64), Char(z % 64)] + rest)
            == Some([x, y, z] + Decode(rest).value)
  {
    hide Char, Value;
    GroupRoundTrip(x, y, z);
    var s := [Char(x / 4), Char(x % 4 * 16 + y / 16), Char(y % 16 * 4 + z / 64), Char(z % 64)] + rest;
    assert s[4..] == rest;
  }

  lemma GroupRoundTrip(x: byte, y: byte, z: byte)
    ensures var a, b, c, d := x / 4, x % 4 * 16 + y / 16, y % 16 * 4 + z / 64, z % 64;
            && a < 64 && b < 64 && c < 64 && d < 64
            && Value(Char(a)) == Some(a) && Value(Char(b)) == Some(b) && Value(Char(c)) == Some(c) && Value(Char(d)) == Some(d)
            && a * 4 + b / 16 == x && b % 16 * 16 + c / 4 == y && c % 4 * 64 + d == z
  {
    ValueOfChar(x / 4);
    ValueOfChar(x % 4 * 16 + y / 16);
    ValueOfChar(y % 16 * 4 + z / 64);
    ValueOfChar(z % 64);
  }

  /** Length first, then decode, then compare the re-encoding. */
  function ValidLength(s: seq<byte>, n: nat): bool {
    |s| == EncodedLength(n) && Decode(s).Some? && |Decode(s).value| == n && Encode(Decode(s).value) == s
  }

  /** The check accepts exactly the canonical encodings of `n` bytes, and those decode to the
      bytes they encode. */
  lemma ValidLengthExactly(s: seq<byte>, n: nat)
    ensures ValidLength(s, n) <==> exists b: seq<byte> :: |b| == n && Encode(b) == s
    ensures forall b: seq<byte> :: Encode(b) == s ==> Decode(s) == Some(b)
  {
    forall b: seq<byte> | Encode(b) == s ensures Decode(s) == Some(b) && |s| == EncodedLength(|b|) {
      DecodeEncode(b);
      EncodeLength(b);
    }
    if ValidLength(s, n) { assert Encode(Decode(s).value) == s; }
  }
}
