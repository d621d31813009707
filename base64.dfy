/** Base64 encoding as section 4 of RFC 4648 defines it (the PHP function
    `base64_encode`), with a decoder so that the encoding can be shown to
    lose nothing. */
module Base64 {
  import opened Php
  import opened Exceptions

  /** The 64 characters of the alphabet of RFC 4648, Table 1. */
  predicate IsAlphabetChar(c: char)
  {
    ('A' <= c <= 'Z') || ('a' <= c <= 'z') || ('0' <= c <= '9') || c == '+' || c == '/'
  }

  /** A character that may appear in an encoding: the alphabet and the pad '='. */
  predicate IsEncodingChar(c: char)
  {
    IsAlphabetChar(c) || c == '='
  }

  /** The value of an alphabet character. */
  function SextetOf(c: char): (v: int)
    requires IsAlphabetChar(c)
    ensures 0 <= v < 64
  {
    if 'A' <= c <= 'Z' then c as int - 'A' as int
    else if 'a' <= c <= 'z' then c as int - 'a' as int + 26
    else if '0' <= c <= '9' then c as int - '0' as int + 52
    else if c == '+' then 62
    else 63
  }

  /** The alphabet character for a 6-bit value. */
  function Alphabet(v: int): (c: char)
    requires 0 <= v < 64
    ensures IsAlphabetChar(c) && SextetOf(c) == v
  {
    if v < 26 then ('A' as int + v) as char
    else if v < 52 then ('a' as int + v - 26) as char
    else if v < 62 then ('0' as int + v - 52) as char
    else if v == 62 then '+'
    else '/'
  }

  function ByteOf(s: PhpString, i: nat): (b: int)
    requires i < |s|
    ensures 0 <= b < 256
  {
    s[i] as int
  }

  /** Three bytes become four characters, high bits first. */
  function EncodeTriple(a: int, b: int, c: int): (r: string)
    requires 0 <= a < 256 && 0 <= b < 256 && 0 <= c < 256
    ensures |r| == 4 && forall i | 0 <= i < 4 :: IsAlphabetChar(r[i])
  {
    [Alphabet(a / 4), Alphabet((a % 4) * 16 + b / 16), Alphabet((b % 16) * 4 + c / 64), Alphabet(c % 64)]
  }

  /** The padded last group of an encoding, for one or two remaining bytes:
      the missing bits are zero and each missing byte gives one '='. */
  function EncodeFinal(s: PhpString): (r: string)
    requires 1 <= |s| <= 2
    ensures |r| == 4 && IsAlphabetChar(r[0]) && IsAlphabetChar(r[1]) && r[3] == '='
    ensures |s| == 1 ==> r[2] == '='
    ensures |s| == 2 ==> IsAlphabetChar(r[2])
  {
    var a := ByteOf(s, 0);
    if |s| == 1 then
      [Alphabet(a / 4), Alphabet((a % 4) * 16), '=', '=']
    else
      var b := ByteOf(s, 1);
      [Alphabet(a / 4), Alphabet((a % 4) * 16 + b / 16), Alphabet((b % 16) * 4), '=']
  }

  /** The encoding of `s`: every full group of three bytes gives four
      characters; a final group of one or two bytes is padded with '='. */
  function Encode(s: PhpString): (r: string)
    ensures |r| == 4 * ((|s| + 2) / 3)
    ensures forall i | 0 <= i < |r| :: IsEncodingChar(r[i])
    ensures forall i | 0 <= i < |r| :: r[i] == '=' ==> |r| - 2 <= i
    decreases |s|
  {
    if |s| == 0 then ""
    else if |s| < 3 then EncodeFinal(s)
    else
      var head, tail := EncodeTriple(ByteOf(s, 0), ByteOf(s, 1), ByteOf(s, 2)), Encode(s[3..]);
      assert (|s| + 2) / 3 == (|s| - 3 + 2) / 3 + 1;
      assert forall i | 4 <= i < 4 + |tail| :: (head + tail)[i] == tail[i - 4];
      head + tail
  }

  /** The three bytes that a group of four alphabet characters stands for. */
  function DecodeQuad(c0: char, c1: char, c2: char, c3: char): (r: Option<PhpString>)
    ensures r.Some? ==> |r.value| == 3
  {
    if IsAlphabetChar(c0) && IsAlphabetChar(c1) && IsAlphabetChar(c2) && IsAlphabetChar(c3) then
      var w, x, y, z := SextetOf(c0), SextetOf(c1), SextetOf(c2), SextetOf(c3);
      Some([(w * 4 + x / 16) as char, ((x % 16) * 16 + y / 4) as char, ((y % 4) * 64 + z) as char])
    else None
  }

  /** The last group of an encoding when it carries padding: "ww==" for
      one byte, "wwx=" for two. The pad bits must be zero. */
  function DecodePadded(c0: char, c1: char, c2: char): (r: Option<PhpString>)
    ensures r.Some? ==> 1 <= |r.value| <= 2
  {
    if !IsAlphabetChar(c0) || !IsAlphabetChar(c1) then None
    else if c2 == '=' then
      var w, x := SextetOf(c0), SextetOf(c1);
      if x % 16 != 0 then None else Some([(w * 4 + x / 16) as char])
    else if IsAlphabetChar(c2) then
      var w, x, y := SextetOf(c0), SextetOf(c1), SextetOf(c2);
      if y % 4 != 0 then None else Some([(w * 4 + x / 16) as char, ((x % 16) * 16 + y / 4) as char])
    else None
  }

  /** Decoding: the inverse of Encode. Characters outside the alphabet,
      misplaced padding, a length that is not a multiple of four and
      non-zero pad bits (section 3.5 of RFC 4648) are all rejected. */
  function Decode(t: string): (r: Option<PhpString>)
    decreases |t|
  {
    if |t| == 0 then Some("")
    else if |t| < 4 then None
    else if t[3] == '=' then
      if |t| == 4 then DecodePadded(t[0], t[1], t[2]) else None
    else
      match DecodeQuad(t[0], t[1], t[2], t[3])
      case None => None
      case Some(group) =>
        match Decode(t[4..])
        case None => None
        case Some(rest) => Some(group + rest)
  }

  /** Splitting a byte into its top six and bottom two bits and back. */
  lemma SplitAfterSix(a: int)
    requires 0 <= a < 256
    ensures 0 <= a / 4 < 64 && (a / 4) * 4 + a % 4 == a
    ensures ((a % 4) * 16) / 16 == a % 4 && ((a % 4) * 16) % 16 == 0
  {
  }

  /** The arithmetic of the three bytes of a group against its four sextets. */
  lemma SextetsOfTriple(a: int, b: int, c: int)
    requires 0 <= a < 256 && 0 <= b < 256 && 0 <= c < 256
    ensures var x, y := (a % 4) * 16 + b / 16, (b % 16) * 4 + c / 64;
      && a / 4 * 4 + x / 16 == a
      && (x % 16) * 16 + y / 4 == b
      && (y % 4) * 64 + c % 64 == c
      && y % 4 == c / 64
  {
    var x, y := (a % 4) * 16 + b / 16, (b % 16) * 4 + c / 64;
    assert x / 16 == a % 4 && x % 16 == b / 16;
    assert y / 4 == b % 16 && y % 4 == c / 64;
  }

  /** The arithmetic of four sextets against the three bytes they make. */
  lemma TripleOfSextets(w: int, x: int, y: int, z: int)
    requires 0 <= w < 64 && 0 <= x < 64 && 0 <= y < 64 && 0 <= z < 64
    ensures var a, b, c := w * 4 + x / 16, (x % 16) * 16 + y / 4, (y % 4) * 64 + z;
      && 0 <= a < 256 && 0 <= b < 256 && 0 <= c < 256
      && a / 4 == w && (a % 4) * 16 + b / 16 == x
      && (b % 16) * 4 + c / 64 == y && c % 64 == z
  {
    var a, b, c := w * 4 + x / 16, (x % 16) * 16 + y / 4, (y % 4) * 64 + z;
    assert a / 4 == w && a % 4 == x / 16;
    assert b / 16 == x % 16 && b % 16 == y / 4;
    assert c / 64 == y % 4 && c % 64 == z;
  }

  lemma TripleRoundTrip(a: int, b: int, c: int)
    requires 0 <= a < 256 && 0 <= b < 256 && 0 <= c < 256
    ensures var e := EncodeTriple(a, b, c);
      DecodeQuad(e[0], e[1], e[2], e[3]) == Some([a as char, b as char, c as char])
  {
    SextetsOfTriple(a, b, c);
  }

  lemma PaddedOfOne(a: int)
    requires 0 <= a < 256
    ensures DecodePadded(Alphabet(a / 4), Alphabet((a % 4) * 16), '=') == Some([a as char])
  {
    SplitAfterSix(a);
  }

  lemma PaddedOfTwo(a: int, b: int)
    requires 0 <= a < 256 && 0 <= b < 256
    ensures DecodePadded(Alphabet(a / 4), Alphabet((a % 4) * 16 + b / 16), Alphabet((b % 16) * 4)) == Some([a as char, b as char])
  {
    SextetsOfTriple(a, b, 0);
  }

  lemma FinalRoundTrip(s: PhpString)
    requires 1 <= |s| <= 2
    ensures var e := EncodeFinal(s); DecodePadded(e[0], e[1], e[2]) == Some(s)
  {
    if |s| == 1 {
      PaddedOfOne(ByteOf(s, 0));
      assert [s[0]] == s;
    } else {
      PaddedOfTwo(ByteOf(s, 0), ByteOf(s, 1));
      assert [s[0], s[1]] == s;
    }
  }

  /** Decoding a full group of four characters followed by more input. */
  lemma DecodeGroup(q: string, rest: string)
    requires |q| == 4 && q[3] != '='
    ensures Decode(q + rest) ==
      match DecodeQuad(q[0], q[1], q[2], q[3])
      case None => None
      case Some(group) =>
        match Decode(rest)
        case None => None
        case Some(tail) => Some(group + tail)
  {
    var t := q + rest;
    assert t[..4] == q && t[4..] == rest;
  }

  /** Decoding an encoding gives back the bytes encoded. */
  lemma {:induction false} DecodeEncode(s: PhpString)
    ensures Decode(Encode(s)) == Some(s)
    decreases |s|
  {
    if 1 <= |s| <= 2 {
      FinalRoundTrip(s);
    } else if |s| >= 3 {
      var a, b, c := ByteOf(s, 0), ByteOf(s, 1), ByteOf(s, 2);
      var head, tail := EncodeTriple(a, b, c), Encode(s[3..]);
      assert Encode(s) == head + tail;
      DecodeGroup(head, tail);
      TripleRoundTrip(a, b, c);
      DecodeEncode(s[3..]);
      assert [a as char, b as char, c as char] + s[3..] == s;
    }
  }

  lemma AlphabetOfSextet(c: char)
    requires IsAlphabetChar(c)
    ensures Alphabet(SextetOf(c)) == c
  {
  }

  lemma QuadRoundTrip(q: string)
    requires |q| == 4 && DecodeQuad(q[0], q[1], q[2], q[3]).Some?
    ensures var d := DecodeQuad(q[0], q[1], q[2], q[3]).value;
      EncodeTriple(ByteOf(d, 0), ByteOf(d, 1), ByteOf(d, 2)) == q
  {
    var w, x, y, z := SextetOf(q[0]), SextetOf(q[1]), SextetOf(q[2]), SextetOf(q[3]);
    TripleOfSextets(w, x, y, z);
    AlphabetOfSextet(q[0]);
    AlphabetOfSextet(q[1]);
    AlphabetOfSextet(q[2]);
    AlphabetOfSextet(q[3]);
    assert q == [q[0], q[1], q[2], q[3]];
  }

  lemma PaddedOneRoundTrip(c0: char, c1: char)
    requires DecodePadded(c0, c1, '=').Some?
    ensures EncodeFinal(DecodePadded(c0, c1, '=').value) == [c0, c1, '=', '=']
  {
    var w, x := SextetOf(c0), SextetOf(c1);
    var a := w * 4 + x / 16;
    TripleOfSextets(w, x, 0, 0);
    var d := DecodePadded(c0, c1, '=').value;
    assert ByteOf(d, 0) == a;
    assert a / 4 == w && (a % 4) * 16 == x;
    AlphabetOfSextet(c0);
    AlphabetOfSextet(c1);
  }

  lemma PaddedTwoRoundTrip(c0: char, c1: char, c2: char)
    requires c2 != '=' && DecodePadded(c0, c1, c2).Some?
    ensures EncodeFinal(DecodePadded(c0, c1, c2).value) == [c0, c1, c2, '=']
  {
    var w, x, y := SextetOf(c0), SextetOf(c1), SextetOf(c2);
    var a, b := w * 4 + x / 16, (x % 16) * 16 + y / 4;
    TripleOfSextets(w, x, y, 0);
    var d := DecodePadded(c0, c1, c2).value;
    assert ByteOf(d, 0) == a && ByteOf(d, 1) == b;
    assert a / 4 == w && (a % 4) * 16 + b / 16 == x && (b % 16) * 4 == y;
    AlphabetOfSextet(c0);
    AlphabetOfSextet(c1);
    AlphabetOfSextet(c2);
  }

  lemma PaddedRoundTrip(c0: char, c1: char, c2: char)
    requires DecodePadded(c0, c1, c2).Some?
    ensures EncodeFinal(DecodePadded(c0, c1, c2).value) == [c0, c1, c2, '=']
  {
    if c2 == '=' {
      PaddedOneRoundTrip(c0, c1);
    } else {
      PaddedTwoRoundTrip(c0, c1, c2);
    }
  }

  /** Encoding a group of three bytes followed by more bytes. */
  lemma EncodeCons(g: PhpString, rest: PhpString)
    requires |g| == 3
    ensures Encode(g + rest) == EncodeTriple(ByteOf(g, 0), ByteOf(g, 1), ByteOf(g, 2)) + Encode(rest)
  {
    var s := g + rest;
    assert s[3..] == rest;
    assert ByteOf(s, 0) == ByteOf(g, 0) && ByteOf(s, 1) == ByteOf(g, 1) && ByteOf(s, 2) == ByteOf(g, 2);
  }

  lemma EncodeDecodePadded(t: string)
    requires |t| >= 4 && t[3] == '=' && Decode(t).Some?
    ensures Encode(Decode(t).value) == t
  {
    PaddedRoundTrip(t[0], t[1], t[2]);
    assert t == [t[0], t[1], t[2], '='];
  }

  /** One step of the canonical-encoding proof: a string that decodes and
      starts with a full group is that group's encoding followed by a rest
      that decodes on its own. */
  lemma EncodeDecodeStep(t: string)
    requires |t| >= 4 && t[3] != '=' && Decode(t).Some?
    ensures Decode(t[4..]).Some?
    ensures Encode(Decode(t[4..]).value) == t[4..] ==> Encode(Decode(t).value) == t
  {
    var q, rest := t[..4], t[4..];
    assert t == q + rest;
    DecodeGroup(q, rest);
    var group := DecodeQuad(q[0], q[1], q[2], q[3]).value;
    var tail := Decode(rest).value;
    assert Decode(t).value == group + tail;
    if Encode(tail) == rest {
      QuadRoundTrip(q);
      EncodeCons(group, tail);
    }
  }

  /** Every string that decodes is the encoding of what it decodes to: the
      encoding is canonical. */
  lemma {:induction false} EncodeDecode(t: string)
    requires Decode(t).Some?
    ensures Encode(Decode(t).value) == t
    decreases |t|
  {
    if |t| > 0 && t[3] == '=' {
      EncodeDecodePadded(t);
    } else if |t| > 0 {
      EncodeDecodeStep(t);
      EncodeDecode(t[4..]);
    }
  }

  /** Different byte strings have different encodings. */
  lemma EncodeInjective(s: PhpString, u: PhpString)
    requires s != u
    ensures Encode(s) != Encode(u)
  {
    DecodeEncode(s);
    DecodeEncode(u);
  }
}
