/**
 * `Buffer.toString('base64')`: the base 64 encoding of section 4 of RFC 4648
 * (standard alphabet, `=` padding), and the `data:` URL of RFC 2397 that the
 * read side wraps it in.
 */
module Base64 {
  import opened Wrappers
  import opened Bytes

  /** The prefix of every `imageData` value the API returns. */
  const JpegDataUrlPrefix: string := "data:image/jpeg;base64,"

  /** The character for a six-bit value: `A`-`Z`, `a`-`z`, `0`-`9`, `+`, `/`. */
  function Sextet(d: int): char
    requires 0 <= d < 64
  {
    if d < 26 then (65 + d) as char
    else if d < 52 then (97 + d - 26) as char
    else if d < 62 then (48 + d - 52) as char
    else if d == 62 then '+'
    else '/'
  }

  /** The four characters of a full group of three bytes. */
  function Quad3(x: Byte, y: Byte, z: Byte): string
  {
    [Sextet(x / 4), Sextet((x % 4) * 16 + y / 16), Sextet((y % 16) * 4 + z / 64), Sextet(z % 64)]
  }

  /** A final group of two bytes: three characters and one `=`. */
  function Quad2(x: Byte, y: Byte): string
  {
    [Sextet(x / 4), Sextet((x % 4) * 16 + y / 16), Sextet((y % 16) * 4), '=']
  }

  /** A final group of one byte: two characters and `==`. */
  function Quad1(x: Byte): string
  {
    [Sextet(x / 4), Sextet((x % 4) * 16), '=', '=']
  }

  /** Encode three bytes at a time; a final group of one or two bytes is padded with `=`. */
  function Encode(b: Bytes): (r: string)
    ensures |r| == 4 * ((|b| + 2) / 3)
  {
    if |b| == 0 then ""
    else if |b| == 1 then Quad1(b[0])
    else if |b| == 2 then Quad2(b[0], b[1])
    else Quad3(b[0], b[1], b[2]) + Encode(b[3..])
  }

  /** The position of a character in the alphabet. */
  function SextetValue(c: char): (r: Option<int>)
    ensures r.Some? ==> 0 <= r.value < 64 && Sextet(r.value) == c
    ensures c == '=' ==> r.None?
  {
    if 'A' <= c <= 'Z' then Some(c as int - 65)
    else if 'a' <= c <= 'z' then Some(c as int - 97 + 26)
    else if '0' <= c <= '9' then Some(c as int - 48 + 52)
    else if c == '+' then Some(62)
    else if c == '/' then Some(63)
    else None
  }

  /** Strict decoding: groups of four, padding only in the last group, and
      the unused bits of a padded group zero (section 3.5 of RFC 4648). */
  function Decode(s: string): (r: Option<Bytes>)
    ensures |s| % 4 != 0 ==> r.None?
    ensures r.Some? ==> 3 * (|s| / 4) - 2 <= |r.value| <= 3 * (|s| / 4)
    decreases |s|
  {
    if s == [] then Some([])
    else if |s| < 4 then None
    else
      var a, b, c, d := SextetValue(s[0]), SextetValue(s[1]), SextetValue(s[2]), SextetValue(s[3]);
      if a.None? || b.None? then None
      else if |s| == 4 && s[2] == '=' && s[3] == '=' then
        if b.value % 16 == 0 then Some([a.value * 4 + b.value / 16]) else None
      else if c.None? then None
      else if |s| == 4 && s[3] == '=' then
        if c.value % 4 == 0 then Some([a.value * 4 + b.value / 16, (b.value % 16) * 16 + c.value / 4])
        else None
      else if d.None? then None
      else
        match Decode(s[4..])
        case None => None
        case Some(rest) =>
          Some([a.value * 4 + b.value / 16, (b.value % 16) * 16 + c.value / 4, (c.value % 4) * 64 + d.value] + rest)
  }

  lemma SextetRoundTrip(d: int)
    requires 0 <= d < 64
    ensures SextetValue(Sextet(d)) == Some(d)
  {
  }

  /** Dividing 4 * q + r (or 16 * q + r) by its base recovers q and r. */
  lemma Split4(q: int, r: int)
    requires 0 <= r < 4
    ensures (4 * q + r) / 4 == q && (4 * q + r) % 4 == r
  {
  }

  lemma Split16(q: int, r: int)
    requires 0 <= r < 16
    ensures (16 * q + r) / 16 == q && (16 * q + r) % 16 == r
  {
  }

  /** The first two characters of every group give back the first byte and the
      high half of the second. */
  lemma DecodeFirst(x: Byte, y: Byte)
    ensures var b := (x % 4) * 16 + y / 16;
            0 <= b < 64 && (x / 4) * 4 + b / 16 == x && b % 16 == y / 16
  {
    Split16(x % 4, y / 16);
  }

  lemma DecodeSecond(y: Byte, z: Byte)
    ensures var c := (y % 16) * 4 + z / 64;
            0 <= c < 64 && (y / 16) * 16 + c / 4 == y && (y / 16) * 16 + (y % 16) == y && c % 4 == z / 64
  {
    Split4(y % 16, z / 64);
  }

  lemma Decode1(x: Byte)
    ensures Decode(Quad1(x)) == Some([x])
  {
    SextetRoundTrip(x / 4);
    SextetRoundTrip((x % 4) * 16);
    DecodeFirst(x, 0);
  }

  lemma Decode2(x: Byte, y: Byte)
    ensures Decode(Quad2(x, y)) == Some([x, y])
  {
    DecodeFirst(x, y);
    DecodeSecond(y, 0);
    SextetRoundTrip(x / 4);
    SextetRoundTrip((x % 4) * 16 + y / 16);
    SextetRoundTrip((y % 16) * 4);
  }

  /** The three bytes a full group of four sextets stands for. */
  function GroupBytes(a: int, b: int, c: int, d: int): seq<int>
  {
    [a * 4 + b / 16, (b % 16) * 16 + c / 4, (c % 4) * 64 + d]
  }

  /** One unfolding of Decode on a full group of four alphabet characters. */
  lemma DecodeGroup(s: string, a: int, b: int, c: int, d: int)
    requires |s| >= 4
    requires SextetValue(s[0]) == Some(a) && SextetValue(s[1]) == Some(b)
    requires SextetValue(s[2]) == Some(c) && SextetValue(s[3]) == Some(d)
    ensures Decode(s) == if Decode(s[4..]).Some? then Some(GroupBytes(a, b, c, d) + Decode(s[4..]).value) else None
  {
  }

  /** The four sextets of a full group put back together give the three bytes. */
  lemma GroupArithmetic(x: Byte, y: Byte, z: Byte)
    ensures var a, b, c, d := x / 4, (x % 4) * 16 + y / 16, (y % 16) * 4 + z / 64, z % 64;
            && 0 <= a < 64 && 0 <= b < 64 && 0 <= c < 64 && 0 <= d < 64
            && a * 4 + b / 16 == x && (b % 16) * 16 + c / 4 == y && (c % 4) * 64 + d == z
            && GroupBytes(a, b, c, d) == [x, y, z]
  {
    DecodeFirst(x, y);
    DecodeSecond(y, z);
  }

  /** The characters of a full group read back as its sextets. */
  lemma Quad3Values(x: Byte, y: Byte, z: Byte, s: string)
    requires |s| >= 4 && s[..4] == Quad3(x, y, z)
    ensures SextetValue(s[0]) == Some(x / 4) && SextetValue(s[1]) == Some((x % 4) * 16 + y / 16)
    ensures SextetValue(s[2]) == Some((y % 16) * 4 + z / 64) && SextetValue(s[3]) == Some(z % 64)
  {
    GroupArithmetic(x, y, z);
    assert s[0] == s[..4][0] && s[1] == s[..4][1] && s[2] == s[..4][2] && s[3] == s[..4][3];
    SextetRoundTrip(x / 4);
    SextetRoundTrip((x % 4) * 16 + y / 16);
    SextetRoundTrip((y % 16) * 4 + z / 64);
    SextetRoundTrip(z % 64);
  }

  /** One unfolding of Decode on a text that starts with a full group. */
  lemma DecodeQuad3(x: Byte, y: Byte, z: Byte, s: string)
    requires |s| >= 4 && s[..4] == Quad3(x, y, z)
    ensures Decode(s) == if Decode(s[4..]).Some? then Some([x, y, z] + Decode(s[4..]).value) else None
  {
    Quad3Values(x, y, z, s);
    GroupArithmetic(x, y, z);
    DecodeGroup(s, x / 4, (x % 4) * 16 + y / 16, (y % 16) * 4 + z / 64, z % 64);
  }

  lemma Decode3(x: Byte, y: Byte, z: Byte, rest: string)
    ensures Decode(Quad3(x, y, z) + rest) ==
      if Decode(rest).Some? then Some([x, y, z] + Decode(rest).value) else None
  {
    var s := Quad3(x, y, z) + rest;
    assert s[..4] == Quad3(x, y, z) && s[4..] == rest;
    DecodeQuad3(x, y, z, s);
  }

  lemma DecodeEncodeShort(b: Bytes)
    requires |b| < 3
    ensures Decode(Encode(b)) == Some(b)
  {
    if |b| == 1 {
      Decode1(b[0]);
      assert b == [b[0]];
    } else if |b| == 2 {
      Decode2(b[0], b[1]);
      assert b == [b[0], b[1]];
    }
  }

  lemma EncodeStep(b: Bytes)
    requires |b| >= 3
    ensures Encode(b) == Quad3(b[0], b[1], b[2]) + Encode(b[3..])
  {
  }

  /** Decoding what Encode wrote gives back the bytes. */
  lemma {:induction false} DecodeEncode(b: Bytes)
    ensures Decode(Encode(b)) == Some(b)
    decreases |b|
  {
    if |b| < 3 {
      DecodeEncodeShort(b);
    } else {
      DecodeEncode(b[3..]);
      EncodeStep(b);
      DecodeGroupBefore(b, Encode(b[3..]));
    }
  }

  /** A full group in front of a text that decodes to the rest of the bytes
      decodes to all of them. */
  lemma DecodeGroupBefore(b: Bytes, e: string)
    requires |b| >= 3 && Decode(e) == Some(b[3..])
    ensures Decode(Quad3(b[0], b[1], b[2]) + e) == Some(b)
  {
    Decode3(b[0], b[1], b[2], e);
    assert b == [b[0], b[1], b[2]] + b[3..];
  }

  /** `data:image/jpeg;base64,<base64 of the bytes>`. */
  function JpegDataUrl(b: Bytes): (r: string)
    ensures |r| == |JpegDataUrlPrefix| + 4 * ((|b| + 2) / 3)
    ensures r[..|JpegDataUrlPrefix|] == JpegDataUrlPrefix
  {
    JpegDataUrlPrefix + Encode(b)
  }

  /** Reads the bytes back out of a JPEG data URL; None for anything else. */
  function ParseJpegDataUrl(url: string): Option<Bytes>
  {
    if |url| >= |JpegDataUrlPrefix| && url[..|JpegDataUrlPrefix|] == JpegDataUrlPrefix
    then Decode(url[|JpegDataUrlPrefix|..])
    else None
  }

  lemma DataUrlRoundTrip(b: Bytes)
    ensures ParseJpegDataUrl(JpegDataUrl(b)) == Some(b)
  {
    var url := JpegDataUrl(b);
    assert url[|JpegDataUrlPrefix|..] == Encode(b);
    DecodeEncode(b);
  }
}
