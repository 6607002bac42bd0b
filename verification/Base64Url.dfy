/** Unpadded base64url (section 5 of RFC 4648) as Go's base64.RawURLEncoding writes and reads it. */
module Base64Url {
  import opened Wrappers
  import opened Pbkdf2

  type Sextet = v: int | 0 <= v < 64

  /** The alphabet A-Z, a-z, 0-9, "-", "_". */
  function EncodeSextet(v: Sextet): (c: char) {
    if v < 26 then 'A' + v as char
    else if v < 52 then 'a' + (v - 26) as char
    else if v < 62 then '0' + (v - 52) as char
    else if v == 62 then '-'
    else '_'
  }

  function DecodeSextet(c: char): (r: Option<Sextet>) {
    if 'A' <= c <= 'Z' then Some(c as int - 'A' as int)
    else if 'a' <= c <= 'z' then Some(c as int - 'a' as int + 26)
    else if '0' <= c <= '9' then Some(c as int - '0' as int + 52)
    else if c == '-' then Some(62)
    else if c == '_' then Some(63)
    else None
  }

  /** The two tables are inverse to each other. */
  lemma SextetRoundTrip(v: Sextet, c: char)
    ensures DecodeSextet(c) == Some(v) <==> c == EncodeSextet(v)
  {
  }

  predicate IsCode(c: char) { DecodeSextet(c).Some? }

  function Encode(b: Bytes): (s: string)
    ensures forall i | 0 <= i < |s| :: IsCode(s[i])
    ensures |s| == (|b| * 4 + 2) / 3
  {
    if |b| == 0 then ""
    else if |b| == 1 then
      Codes([b[0] / 4, b[0] % 4 * 16])
    else if |b| == 2 then
      Codes([b[0] / 4, b[0] % 4 * 16 + b[1] / 16, b[1] % 16 * 4])
    else
      Codes([b[0] / 4, b[0] % 4 * 16 + b[1] / 16, b[1] % 16 * 4 + b[2] / 64, b[2] % 64]) + Encode(b[3..])
  }

  function Codes(vs: seq<Sextet>): (s: string)
    ensures |s| == |vs|
    ensures forall i | 0 <= i < |vs| :: s[i] == EncodeSextet(vs[i]) && IsCode(s[i])
  {
    seq(|vs|, i requires 0 <= i < |vs| => EncodeSextet(vs[i]))
  }

  /** Line breaks are skipped wherever they stand. */
  function DropLineBreaks(s: string): (r: string)
    ensures (forall i | 0 <= i < |s| :: IsCode(s[i])) ==> r == s
  {
    if s == "" then ""
    else if s[0] == '\n' || s[0] == '\r' then DropLineBreaks(s[1..])
    else [s[0]] + DropLineBreaks(s[1..])
  }

  /** Groups of four characters; a lone last character is an error, unused low bits of a short last
      group are ignored. */
  function DecodeCodes(s: string): Option<Bytes> {
    if |s| == 0 then Some([])
    else if |s| == 1 then None
    else
      match (DecodeSextet(s[0]), DecodeSextet(s[1]))
      case (Some(v0), Some(v1)) =>
        if |s| == 2 then Some([v0 * 4 + v1 / 16])
        else (
          match DecodeSextet(s[2])
          case None => None
          case Some(v2) =>
            if |s| == 3 then Some([v0 * 4 + v1 / 16, v1 % 16 * 16 + v2 / 4])
            else
              match (DecodeSextet(s[3]), DecodeCodes(s[4..]))
              case (Some(v3), Some(rest)) =>
                Some([v0 * 4 + v1 / 16, v1 % 16 * 16 + v2 / 4, v2 % 4 * 64 + v3] + rest)
              case _ => None)
      case _ => None
  }

  function Decode(s: string): Option<Bytes> {
    DecodeCodes(DropLineBreaks(s))
  }

  /** Regrouping eight-bit units into six-bit units loses nothing. */
  lemma Regroup(x: Byte, y: Byte, z: Byte)
    ensures x / 4 * 4 + (x % 4 * 16 + y / 16) / 16 == x
    ensures (x % 4 * 16 + y / 16) % 16 * 16 + (y % 16 * 4 + z / 64) / 4 == y
    ensures (y % 16 * 4 + z / 64) % 4 * 64 + z % 64 == z
  {
    assert (x % 4 * 16 + y / 16) % 16 == y / 16;
    assert (y % 16 * 4 + z / 64) % 4 == z / 64;
  }

  lemma LastOne(x: Byte)
    ensures DecodeCodes(Encode([x])) == Some([x])
  {
    Regroup(x, 0, 0);
    SextetRoundTrip(x / 4, Encode([x])[0]);
    SextetRoundTrip(x % 4 * 16, Encode([x])[1]);
  }

  lemma LastTwo(x: Byte, y: Byte)
    ensures DecodeCodes(Encode([x, y])) == Some([x, y])
  {
    Regroup(x, y, 0);
    var s := Encode([x, y]);
    SextetRoundTrip(x / 4, s[0]);
    SextetRoundTrip(x % 4 * 16 + y / 16, s[1]);
    SextetRoundTrip(y % 16 * 4, s[2]);
  }

  lemma FullGroup(x: Byte, y: Byte, z: Byte, rest: string, bytes: Bytes)
    requires DecodeCodes(rest) == Some(bytes)
    ensures DecodeCodes(Codes([x / 4, x % 4 * 16 + y / 16, y % 16 * 4 + z / 64, z % 64]) + rest)
         == Some([x, y, z] + bytes)
  {
    Regroup(x, y, z);
    var g := Codes([x / 4, x % 4 * 16 + y / 16, y % 16 * 4 + z / 64, z % 64]);
    SextetRoundTrip(x / 4, g[0]);
    SextetRoundTrip(x % 4 * 16 + y / 16, g[1]);
    SextetRoundTrip(y % 16 * 4 + z / 64, g[2]);
    SextetRoundTrip(z % 64, g[3]);
    assert (g + rest)[4..] == rest;
  }

  lemma {:induction false} CodesRoundTrip(b: Bytes)
    ensures DecodeCodes(Encode(b)) == Some(b)
  {
    if |b| == 1 {
      LastOne(b[0]);
      assert b == [b[0]];
    } else if |b| == 2 {
      LastTwo(b[0], b[1]);
      assert b == [b[0], b[1]];
    } else if |b| > 2 {
      CodesRoundTrip(b[3..]);
      FullGroup(b[0], b[1], b[2], Encode(b[3..]), b[3..]);
      assert b == [b[0], b[1], b[2]] + b[3..];
    }
  }

  /** Decoding undoes encoding, for every byte string. */
  lemma RoundTrip(b: Bytes)
    ensures Decode(Encode(b)) == Some(b)
  {
    CodesRoundTrip(b);
  }

  /** From section 10 of RFC 4648, without the padding. */
  lemma ShortVectors()
    ensures Encode([0x66]) == "Zg" && Encode([0x66, 0x6f]) == "Zm8"
  {
  }

  lemma LongVector()
    ensures Encode([0x66, 0x6f, 0x6f]) == "Zm9v"
  {
    WholeGroup(0x66, 0x6f, 0x6f);
    assert Codes([25, 38, 61, 47]) == "Zm9v";
  }

  lemma WholeGroup(x: Byte, y: Byte, z: Byte)
    ensures Encode([x, y, z]) == Codes([x / 4, x % 4 * 16 + y / 16, y % 16 * 4 + z / 64, z % 64])
  {
    assert [x, y, z][3..] == [];
  }

  /** The two characters in which the alphabet differs from the other one. */
  lemma UrlSafeVector()
    ensures Encode([0xfb, 0xff]) == "-_8"
  {
  }
}
