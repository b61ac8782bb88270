/**
 * The standard padded base64 encoding of RFC 4648, section 4, as Go's
 * `base64.StdEncoding` applies it: `EncodeToString` for the tunnel secret the
 * reconciler generates and `DecodeString` for the connector token it fetches.
 *
 * Both directions go through 6-bit groups: bytes are cut into groups, each
 * group is written as one character of the alphabet, and '=' pads the text to
 * a multiple of four characters.
 */
module Base64 {
  import opened Wrappers

  /** A Go `byte`. */
  type Byte = x: int | 0 <= x < 256

  /** A 6-bit group: the index of one character of the alphabet. */
  type Sextet = x: int | 0 <= x < 64

  const PAD: char := '='

  /** Table 1 of RFC 4648: the character that stands for a 6-bit value. */
  function CharOf(v: Sextet): (c: char)
    ensures ValueOf(c) == Some(v)
    ensures c != PAD
  {
    if v < 26 then ('A' as int + v) as char
    else if v < 52 then ('a' as int + (v - 26)) as char
    else if v < 62 then ('0' as int + (v - 52)) as char
    else if v == 62 then '+'
    else '/'
  }

  /** The value a character of the alphabet stands for; None for any other character, '=' included. */
  function ValueOf(c: char): (r: Option<Sextet>)
    ensures r.Some? <==> ('A' <= c <= 'Z' || 'a' <= c <= 'z' || '0' <= c <= '9' || c == '+' || c == '/')
  {
    if 'A' <= c <= 'Z' then Some(c as int - 'A' as int)
    else if 'a' <= c <= 'z' then Some(c as int - 'a' as int + 26)
    else if '0' <= c <= '9' then Some(c as int - '0' as int + 52)
    else if c == '+' then Some(62)
    else if c == '/' then Some(63)
    else None
  }

  /**
   * The 6-bit groups of a byte string, most significant bits first: four for
   * every three bytes, and for a final one or two bytes two or three groups
   * whose missing low bits are zero.
   */
  function Sextets(b: seq<Byte>): (vs: seq<Sextet>)
    ensures |vs| == (4 * |b| + 2) / 3
    decreases |b|
  {
    if |b| == 0 then []
    else if |b| == 1 then [b[0] / 4, (b[0] % 4) * 16]
    else if |b| == 2 then [b[0] / 4, (b[0] % 4) * 16 + b[1] / 16, (b[1] % 16) * 4]
    else [b[0] / 4, (b[0] % 4) * 16 + b[1] / 16, (b[1] % 16) * 4 + b[2] / 64, b[2] % 64] + Sextets(b[3..])
  }

  /** Each group written as its character. */
  function Chars(vs: seq<Sextet>): (s: string)
    ensures |s| == |vs|
    decreases |vs|
  {
    if vs == [] then [] else [CharOf(vs[0])] + Chars(vs[1..])
  }

  /** The '=' that fill the last quantum of the encoding of n bytes. */
  function Padding(n: nat): string
  {
    if n % 3 == 1 then [PAD, PAD] else if n % 3 == 2 then [PAD] else []
  }

  /** `base64.StdEncoding.EncodeToString`. */
  function Encode(b: seq<Byte>): (s: string)
    ensures |s| == (|b| + 2) / 3 * 4
  {
    EncodedLength(|b|);
    Chars(Sextets(b)) + Padding(|b|)
  }

  lemma EncodedLength(n: nat)
    ensures (4 * n + 2) / 3 + |Padding(n)| == (n + 2) / 3 * 4
  {
    var k := n / 3;
    assert n == 3 * k + n % 3;
  }

  /** The three bytes that four 6-bit values carry. */
  function First(v0: Sextet, v1: Sextet): Byte { v0 * 4 as int + v1 / 16 }
  function Second(v1: Sextet, v2: Sextet): Byte { (v1 % 16) * 16 as int + v2 / 4 }
  function Third(v2: Sextet, v3: Sextet): Byte { (v2 % 4) * 64 as int + v3 }

  /**
   * 6-bit groups back to bytes: four make three, and a final two or three make
   * one or two. Bits left over below the last whole byte are ignored, as Go's
   * non-strict decoder ignores them.
   */
  function Bytes(vs: seq<Sextet>): (b: seq<Byte>)
    requires |vs| % 4 != 1
    decreases |vs|
  {
    if |vs| == 0 then []
    else if |vs| == 2 then [First(vs[0], vs[1])]
    else if |vs| == 3 then [First(vs[0], vs[1]), Second(vs[1], vs[2])]
    else [First(vs[0], vs[1]), Second(vs[1], vs[2]), Third(vs[2], vs[3])] + Bytes(vs[4..])
  }

  /** The values of a string's characters; None if any is outside the alphabet. */
  function Values(s: string): (r: Option<seq<Sextet>>)
    ensures r.Some? ==> |r.value| == |s|
    decreases |s|
  {
    if s == [] then Some([])
    else
      match (ValueOf(s[0]), Values(s[1..]))
      case (Some(v), Some(vs)) => Some([v] + vs)
      case _ => None
  }

  /** The text without the one or two '=' it ends with. */
  function Unpadded(s: string): (t: string)
    ensures |t| == |s| || |t| + 1 == |s| || |t| + 2 == |s|
  {
    if |s| >= 2 && s[|s| - 1] == PAD && s[|s| - 2] == PAD then s[..|s| - 2]
    else if |s| >= 1 && s[|s| - 1] == PAD then s[..|s| - 1]
    else s
  }

  /**
   * `base64.StdEncoding.DecodeString`: None when the length is not a multiple
   * of four, or when, once the final padding is removed, a character is
   * outside the alphabet (a '=' anywhere else among them).
   */
  function Decode(s: string): (r: Option<seq<Byte>>)
    ensures |s| % 4 != 0 ==> r == None
  {
    if |s| % 4 != 0 then None
    else
      match Values(Unpadded(s))
      case None => None
      case Some(vs) => Some(Bytes(vs))
  }

  lemma FirstRestored(b0: Byte, b1: Byte)
    ensures First(b0 / 4, (b0 % 4) * 16 + b1 / 16) == b0
  {
    var v1 := (b0 % 4) * 16 + b1 / 16;
    assert v1 / 16 == b0 % 4;
  }

  lemma SecondRestored(b0: Byte, b1: Byte, b2: Byte)
    ensures Second((b0 % 4) * 16 + b1 / 16, (b1 % 16) * 4 + b2 / 64) == b1
  {
    var v1 := (b0 % 4) * 16 + b1 / 16;
    var v2 := (b1 % 16) * 4 + b2 / 64;
    assert v1 % 16 == b1 / 16;
    assert v2 / 4 == b1 % 16;
  }

  lemma ThirdRestored(b1: Byte, b2: Byte)
    ensures Third((b1 % 16) * 4 + b2 / 64, b2 % 64) == b2
  {
    var v2 := (b1 % 16) * 4 + b2 / 64;
    assert v2 % 4 == b2 / 64;
  }

  /** Regrouping the groups of a byte string gives the bytes back. */
  lemma {:induction false} BytesOfSextets(b: seq<Byte>)
    ensures |Sextets(b)| % 4 != 1
    ensures Bytes(Sextets(b)) == b
    decreases |b|
  {
    if |b| == 1 {
      BytesOfOneByteGroups(b[0]);
      assert b == [b[0]];
    } else if |b| == 2 {
      BytesOfTwoBytesGroups(b[0], b[1]);
      assert b == [b[0], b[1]];
    } else if |b| >= 3 {
      BytesOfSextets(b[3..]);
      BytesOfGroupThenRest(b[0], b[1], b[2], Sextets(b[3..]));
      assert b == [b[0], b[1], b[2]] + b[3..];
    }
  }

  /** A final single byte: two groups, regrouped as that byte. */
  lemma BytesOfOneByteGroups(b0: Byte)
    ensures Bytes([b0 / 4, (b0 % 4) * 16]) == [b0]
  {
    FirstRestored(b0, 0);
  }

  /** A final two bytes: three groups, regrouped as those bytes. */
  lemma BytesOfTwoBytesGroups(b0: Byte, b1: Byte)
    ensures Bytes([b0 / 4, (b0 % 4) * 16 + b1 / 16, (b1 % 16) * 4]) == [b0, b1]
  {
    FirstRestored(b0, b1);
    SecondRestored(b0, b1, 0);
  }

  /** The four groups of three bytes, followed by more groups, regroup as those bytes and then the rest. */
  lemma BytesOfGroupThenRest(b0: Byte, b1: Byte, b2: Byte, rest: seq<Sextet>)
    requires |rest| % 4 != 1
    ensures var vs := [b0 / 4, (b0 % 4) * 16 + b1 / 16, (b1 % 16) * 4 + b2 / 64, b2 % 64] + rest;
            |vs| % 4 != 1 && Bytes(vs) == [b0, b1, b2] + Bytes(rest)
  {
    var vs := [b0 / 4, (b0 % 4) * 16 + b1 / 16, (b1 % 16) * 4 + b2 / 64, b2 % 64] + rest;
    assert vs[4..] == rest;
    FirstRestored(b0, b1);
    SecondRestored(b0, b1, b2);
    ThirdRestored(b1, b2);
  }

  /** Reading the characters of some groups gives the groups back. */
  lemma {:induction false} ValuesOfChars(vs: seq<Sextet>)
    ensures Values(Chars(vs)) == Some(vs)
    decreases |vs|
  {
    if vs != [] {
      ValuesOfChars(vs[1..]);
      ValuesOfCharThenRest(vs[0], Chars(vs[1..]));
      assert vs == [vs[0]] + vs[1..];
    }
  }

  /** One character of the alphabet, then more text: its value, then the values of the rest. */
  lemma ValuesOfCharThenRest(v: Sextet, rest: string)
    ensures Values([CharOf(v)] + rest) ==
              match Values(rest) case None => None case Some(vs) => Some([v] + vs)
  {
    var s := [CharOf(v)] + rest;
    assert s[0] == CharOf(v) && s[1..] == rest;
  }

  /** The last character of the groups' text is a character of the alphabet, never '='. */
  lemma {:induction false} LastCharNotPad(vs: seq<Sextet>)
    requires vs != []
    ensures Chars(vs)[|vs| - 1] != PAD
    decreases |vs|
  {
    var s := Chars(vs);
    if |vs| == 1 {
      assert s == [CharOf(vs[0])];
    } else {
      LastCharNotPad(vs[1..]);
      assert s == [CharOf(vs[0])] + Chars(vs[1..]);
      assert s[|vs| - 1] == Chars(vs[1..])[|vs| - 2];
    }
  }

  /** The characters of the groups never end in '=', so only the padding is removed. */
  lemma UnpaddedEncoding(vs: seq<Sextet>, n: nat)
    ensures Unpadded(Chars(vs) + Padding(n)) == Chars(vs)
  {
    var body := Chars(vs);
    var s := body + Padding(n);
    if |body| > 0 {
      LastCharNotPad(vs);
    }
    if n % 3 == 1 {
      assert s[..|s| - 2] == body;
    } else if n % 3 == 2 {
      assert s[..|s| - 1] == body;
    } else {
      assert s == body;
    }
  }

  /** Decoding the characters of some groups, padded, gives the bytes the groups carry. */
  lemma DecodeEncoded(vs: seq<Sextet>, n: nat)
    requires |vs| == (4 * n + 2) / 3 && |vs| % 4 != 1
    ensures Decode(Chars(vs) + Padding(n)) == Some(Bytes(vs))
  {
    EncodedLength(n);
    var quanta := (n + 2) / 3;
    assert |Chars(vs) + Padding(n)| == 4 * quanta;
    assert (4 * quanta) % 4 == 0;
    UnpaddedEncoding(vs, n);
    ValuesOfChars(vs);
  }

  /** Decoding undoes encoding, for every byte string. */
  lemma RoundTrip(b: seq<Byte>)
    ensures Decode(Encode(b)) == Some(b)
  {
    var vs := Sextets(b);
    BytesOfSextets(b);
    DecodeEncoded(vs, |b|);
  }

  /** The test vector "f" of section 10 of RFC 4648: one byte, two characters and two '='. */
  lemma EncodeVectorF()
    ensures Encode([102]) == "Zg=="
  {
    assert Sextets([102]) == [25, 32];
    assert Chars([32]) == "g";
    assert Chars([25, 32]) == "Zg";
  }

  /** The test vector "foob": a whole quantum, then one byte padded with two '='. */
  lemma EncodeVectorFoob()
    ensures Encode([102, 111, 111, 98]) == "Zm9vYg=="
  {
    var b: seq<Byte> := [102, 111, 111, 98];
    assert b[3..] == [98];
    assert Sextets([98]) == [24, 32];
    assert Sextets(b) == [25, 38, 61, 47, 24, 32];
    assert Chars([32]) == "g";
    assert Chars([24, 32]) == "Yg";
    assert Chars([47, 24, 32]) == "vYg";
    assert Chars([61, 47, 24, 32]) == "9vYg";
    assert Chars([38, 61, 47, 24, 32]) == "m9vYg";
    assert Chars([25, 38, 61, 47, 24, 32]) == "Zm9vYg";
  }

  /** Decoding the test vector "Zm9vYg==" gives "foob" back. */
  lemma DecodeVectorFoob()
    ensures Decode("Zm9vYg==") == Some([102, 111, 111, 98])
  {
    EncodeVectorFoob();
    RoundTrip([102, 111, 111, 98]);
  }
}
