/** Standard base64 with padding (section 4 of RFC 4648), the encoding of Go's
    `base64.StdEncoding`: every 3 bytes become 4 characters of a 64-letter
    alphabet, and a final group of 1 or 2 bytes is padded with `=`. */
module Base64 {
  import opened Prelude

  const Pad: char := '='

  /** The character that stands for the 6-bit value `v`. */
  function Char(v: int): (c: char)
    requires 0 <= v < 64
    ensures Index(c) == Some(v) && c as int < 128
  {
    if v < 26 then ('A' as int + v) as char
    else if v < 52 then ('a' as int + v - 26) as char
    else if v < 62 then ('0' as int + v - 52) as char
    else if v == 62 then '+'
    else '/'
  }

  /** The 6-bit value a character of the alphabet stands for; None for any
      other character, `=` included. */
  function Index(c: char): (r: Option<int>)
    ensures r.Some? ==> 0 <= r.value < 64
  {
    if 'A' <= c <= 'Z' then Some(c as int - 'A' as int)
    else if 'a' <= c <= 'z' then Some(c as int - 'a' as int + 26)
    else if '0' <= c <= '9' then Some(c as int - '0' as int + 52)
    else if c == '+' then Some(62)
    else if c == '/' then Some(63)
    else None
  }

  predicate InAlphabet(c: char) {
    Index(c).Some?
  }

  /** Four characters for three bytes. */
  function EncodeQuantum(b0: int, b1: int, b2: int): (q: string)
    requires 0 <= b0 < 256 && 0 <= b1 < 256 && 0 <= b2 < 256
    ensures |q| == 4 && forall i | 0 <= i < 4 :: InAlphabet(q[i]) && q[i] as int < 128
  {
    [Char(b0 / 4), Char(b0 % 4 * 16 + b1 / 16), Char(b1 % 16 * 4 + b2 / 64), Char(b2 % 64)]
  }

  function Encode(s: GoString): (r: GoString)
    ensures |r| == (|s| + 2) / 3 * 4
    ensures forall i | 0 <= i < |r| :: InAlphabet(r[i]) || r[i] == Pad
    decreases |s|
  {
    if |s| == 0 then ""
    else if |s| == 1 then
      [Char(s[0] as int / 4), Char(s[0] as int % 4 * 16), Pad, Pad]
    else if |s| == 2 then
      [Char(s[0] as int / 4), Char(s[0] as int % 4 * 16 + s[1] as int / 16), Char(s[1] as int % 16 * 4), Pad]
    else
      assert (|s| + 2) / 3 == (|s[3..]| + 2) / 3 + 1;
      EncodeQuantum(s[0] as int, s[1] as int, s[2] as int) + Encode(s[3..])
  }

  /** The value of the `i`-th character of a group known to be in the alphabet. */
  function Sextet(q: string, i: nat): (v: int)
    requires i < |q| && InAlphabet(q[i])
    ensures 0 <= v < 64
  {
    Index(q[i]).value
  }

  /** Three bytes from four alphabet characters; None if one is not in the alphabet. */
  function DecodeQuantum(q: string): (r: Option<GoString>)
    requires |q| == 4
    ensures r.Some? ==> |r.value| == 3
  {
    if InAlphabet(q[0]) && InAlphabet(q[1]) && InAlphabet(q[2]) && InAlphabet(q[3]) then
      var v0, v1, v2, v3 := Sextet(q, 0), Sextet(q, 1), Sextet(q, 2), Sextet(q, 3);
      Some([(v0 * 4 + v1 / 16) as char, (v1 % 16 * 16 + v2 / 4) as char, (v2 % 4 * 64 + v3) as char])
    else
      None
  }

  /** The last group of four characters, which may end in one or two `=`. */
  function DecodeLast(q: string): (r: Option<GoString>)
    requires |q| == 4
    ensures r.Some? ==> 1 <= |r.value| <= 3
  {
    if q[2] == Pad && q[3] == Pad then
      if InAlphabet(q[0]) && InAlphabet(q[1]) then
        Some([(Sextet(q, 0) * 4 + Sextet(q, 1) / 16) as char])
      else
        None
    else if q[3] == Pad then
      if InAlphabet(q[0]) && InAlphabet(q[1]) && InAlphabet(q[2]) then
        var v0, v1, v2 := Sextet(q, 0), Sextet(q, 1), Sextet(q, 2);
        Some([(v0 * 4 + v1 / 16) as char, (v1 % 16 * 16 + v2 / 4) as char])
      else
        None
    else
      DecodeQuantum(q)
  }

  /** Decoding; None for a length that is not a multiple of 4, a character
      outside the alphabet, or padding before the last group. */
  function Decode(t: string): (r: Option<GoString>)
    ensures r.Some? ==> |t| % 4 == 0 && |t| == (|r.value| + 2) / 3 * 4
    decreases |t|
  {
    if |t| == 0 then Some("")
    else if |t| < 4 then None
    else if |t| == 4 then DecodeLast(t)
    else
      match DecodeQuantum(t[..4])
      case None => None
      case Some(head) =>
        match Decode(t[4..])
        case None => None
        case Some(rest) =>
          assert (|head + rest| + 2) / 3 == (|rest| + 2) / 3 + 1;
          Some(head + rest)
  }

  lemma QuantumRoundTrip(c0: char, c1: char, c2: char)
    requires c0 as int < 256 && c1 as int < 256 && c2 as int < 256
    ensures DecodeQuantum(EncodeQuantum(c0 as int, c1 as int, c2 as int)) == Some([c0, c1, c2])
  {
    var b0, b1, b2 := c0 as int, c1 as int, c2 as int;
    var q := EncodeQuantum(b0, b1, b2);
    assert Sextet(q, 0) == b0 / 4;
    assert Sextet(q, 1) == b0 % 4 * 16 + b1 / 16;
    assert Sextet(q, 2) == b1 % 16 * 4 + b2 / 64;
    assert Sextet(q, 3) == b2 % 64;
    assert b0 / 4 * 4 + (b0 % 4 * 16 + b1 / 16) / 16 == b0;
    assert (b0 % 4 * 16 + b1 / 16) % 16 * 16 + (b1 % 16 * 4 + b2 / 64) / 4 == b1;
    assert (b1 % 16 * 4 + b2 / 64) % 4 * 64 + b2 % 64 == b2;
  }

  lemma OneByteRoundTrip(c0: char)
    requires c0 as int < 256
    ensures Decode(Encode([c0])) == Some([c0])
  {
    var b0 := c0 as int;
    var v0, v1 := b0 / 4, b0 % 4 * 16;
    var e := Encode([c0]);
    assert e == [Char(v0), Char(v1), Pad, Pad];
    assert Sextet(e, 0) == v0 && Sextet(e, 1) == v1;
    assert v0 * 4 + v1 / 16 == b0;
  }

  lemma TwoByteRoundTrip(c0: char, c1: char)
    requires c0 as int < 256 && c1 as int < 256
    ensures Decode(Encode([c0, c1])) == Some([c0, c1])
  {
    var b0, b1 := c0 as int, c1 as int;
    var v0, v1, v2 := b0 / 4, b0 % 4 * 16 + b1 / 16, b1 % 16 * 4;
    var e := Encode([c0, c1]);
    assert e == [Char(v0), Char(v1), Char(v2), Pad];
    assert Sextet(e, 0) == v0 && Sextet(e, 1) == v1 && Sextet(e, 2) == v2;
    assert v0 * 4 + v1 / 16 == b0;
    assert v1 % 16 * 16 + v2 / 4 == b1;
  }

  lemma ThreeByteRoundTrip(c0: char, c1: char, c2: char)
    requires c0 as int < 256 && c1 as int < 256 && c2 as int < 256
    ensures Decode(Encode([c0, c1, c2])) == Some([c0, c1, c2])
  {
    var s: GoString := [c0, c1, c2];
    var q := EncodeQuantum(c0 as int, c1 as int, c2 as int);
    QuantumRoundTrip(c0, c1, c2);
    assert Encode(s) == q + Encode(s[3..]);
    assert Encode(s) == q;
    assert InAlphabet(q[3]);
  }

  lemma FirstGroup(s: string)
    requires |s| >= 3
    ensures s == [s[0], s[1], s[2]] + s[3..]
  {
    assert s == s[..3] + s[3..];
  }

  /** Decoding a full group followed by more groups. */
  lemma DecodeGroups(q: string, rest: string, head: GoString, tail: GoString)
    requires |q| == 4 && |rest| >= 4
    requires DecodeQuantum(q) == Some(head) && Decode(rest) == Some(tail)
    ensures Decode(q + rest) == Some(head + tail)
  {
    var e := q + rest;
    assert e[..4] == q;
    assert e[4..] == rest;
  }

  /** One step of the round trip: a full leading group in front of a tail
      that already round-trips. */
  lemma GroupRoundTrip(s: GoString)
    requires |s| > 3
    requires Decode(Encode(s[3..])) == Some(s[3..])
    ensures Decode(Encode(s)) == Some(s)
  {
    FirstGroup(s);
    var q := EncodeQuantum(s[0] as int, s[1] as int, s[2] as int);
    QuantumRoundTrip(s[0], s[1], s[2]);
    assert Encode(s) == q + Encode(s[3..]);
    DecodeGroups(q, Encode(s[3..]), [s[0], s[1], s[2]], s[3..]);
  }

  lemma ShortRoundTrip(s: GoString)
    requires 1 <= |s| <= 3
    ensures Decode(Encode(s)) == Some(s)
  {
    if |s| == 1 {
      OneByteString(s);
    } else if |s| == 2 {
      TwoByteString(s);
    } else {
      ThreeByteString(s);
    }
  }

  lemma OneByteString(s: GoString)
    requires |s| == 1
    ensures Decode(Encode(s)) == Some(s)
  {
    assert s == [s[0]];
    OneByteRoundTrip(s[0]);
  }

  lemma TwoByteString(s: GoString)
    requires |s| == 2
    ensures Decode(Encode(s)) == Some(s)
  {
    assert s == [s[0], s[1]];
    TwoByteRoundTrip(s[0], s[1]);
  }

  lemma ThreeByteString(s: GoString)
    requires |s| == 3
    ensures Decode(Encode(s)) == Some(s)
  {
    assert s == [s[0], s[1], s[2]];
    ThreeByteRoundTrip(s[0], s[1], s[2]);
  }

  /** Decoding the encoding gives back the bytes (the check the token
      endpoint's test makes on the Basic credential). */
  lemma {:induction false} DecodeEncode(s: GoString)
    ensures Decode(Encode(s)) == Some(s)
    decreases |s|
  {
    if 1 <= |s| <= 3 {
      ShortRoundTrip(s);
    } else if |s| > 3 {
      DecodeEncode(s[3..]);
      GroupRoundTrip(s);
    }
  }
}
