/** The base64 text encoding of bytes (section 4 of RFC 4648), and its decoder. */
module Base64 {
  import opened Wrappers
  import opened KvState

  type Sextet = v: nat | v < 64

  function CharOf(v: Sextet): char {
    if v < 26 then ('A' as int + v) as char
    else if v < 52 then ('a' as int + v - 26) as char
    else if v < 62 then ('0' as int + v - 52) as char
    else if v == 62 then '+'
    else '/'
  }

  function ValueOf(c: char): Option<Sextet> {
    if 'A' <= c <= 'Z' then Some(c as int - 'A' as int)
    else if 'a' <= c <= 'z' then Some(c as int - 'a' as int + 26)
    else if '0' <= c <= '9' then Some(c as int - '0' as int + 52)
    else if c == '+' then Some(62)
    else if c == '/' then Some(63)
    else None
  }

  lemma ValueOfCharOf(v: Sextet)
    ensures ValueOf(CharOf(v)) == Some(v) && CharOf(v) != '='
  {
  }

  /** The alphabet of table 1 of RFC 4648: the upper-case letters, the lower-case ones, the digits, then two signs. */
  lemma Alphabet(v: Sextet)
    ensures CharOf(0) == 'A' && CharOf(25) == 'Z' && CharOf(26) == 'a' && CharOf(51) == 'z'
    ensures CharOf(52) == '0' && CharOf(61) == '9' && CharOf(62) == '+' && CharOf(63) == '/'
    ensures v < 61 && v != 25 && v != 51 ==> CharOf(v + 1) as int == CharOf(v) as int + 1
  {
  }

  /** Three bytes as four characters. */
  function Group(a: Byte, b: Byte, c: Byte): string {
    [CharOf(a / 4), CharOf(a % 4 * 16 + b / 16), CharOf(b % 16 * 4 + c / 64), CharOf(c % 64)]
  }

  function Encode(s: Bytes): string {
    if |s| == 0 then ""
    else if |s| == 1 then Group(s[0], 0, 0)[..2] + "=="
    else if |s| == 2 then Group(s[0], s[1], 0)[..3] + "="
    else Group(s[0], s[1], s[2]) + Encode(s[3..])
  }

  /** The three bytes that four characters stand for. */
  function Ungroup(t: string): Option<Bytes>
    requires |t| == 4
  {
    var w, x, y, z := ValueOf(t[0]), ValueOf(t[1]), ValueOf(t[2]), ValueOf(t[3]);
    if w.None? || x.None? || y.None? || z.None? then None
    else
      Some([w.value * 4 + x.value / 16, x.value % 16 * 16 + y.value / 4, y.value % 4 * 64 + z.value])
  }

  function Decode(t: string): Option<Bytes> {
    if |t| == 0 then Some([])
    else if |t| < 4 then None
    else if |t| == 4 && t[2..] == "==" then
      match Ungroup(t[..2] + "AA") case None => None case Some(s) => Some(s[..1])
    else if |t| == 4 && t[3] == '=' then
      match Ungroup(t[..3] + "A") case None => None case Some(s) => Some(s[..2])
    else
      match (Ungroup(t[..4]), Decode(t[4..]))
      case (Some(s), Some(rest)) => Some(s + rest)
      case _ => None
  }

  /** The first byte is in the first two sextets. */
  lemma FirstByte(a: Byte, b: Byte)
    ensures a / 4 * 4 + (a % 4 * 16 + b / 16) / 16 == a
  {
    assert (a % 4 * 16 + b / 16) / 16 == a % 4;
  }

  lemma SecondByte(a: Byte, b: Byte, c: Byte)
    ensures (a % 4 * 16 + b / 16) % 16 * 16 + (b % 16 * 4 + c / 64) / 4 == b
  {
    assert (a % 4 * 16 + b / 16) % 16 == b / 16;
    assert (b % 16 * 4 + c / 64) / 4 == b % 16;
  }

  lemma ThirdByte(b: Byte, c: Byte)
    ensures (b % 16 * 4 + c / 64) % 4 * 64 + c % 64 == c
  {
    assert (b % 16 * 4 + c / 64) % 4 == c / 64;
  }

  lemma UngroupGroup(a: Byte, b: Byte, c: Byte)
    ensures Ungroup(Group(a, b, c)) == Some([a, b, c])
    ensures Group(a, b, c)[3] != '='
  {
    hide ValueOf, CharOf;
    var w: Sextet, x: Sextet, y: Sextet, z: Sextet := a / 4, a % 4 * 16 + b / 16, b % 16 * 4 + c / 64, c % 64;
    ValueOfCharOf(w);
    ValueOfCharOf(x);
    ValueOfCharOf(y);
    ValueOfCharOf(z);
    FirstByte(a, b);
    SecondByte(a, b, c);
    ThirdByte(b, c);
  }

  lemma DecodeOne(a: Byte)
    ensures Decode(Group(a, 0, 0)[..2] + "==") == Some([a])
  {
    UngroupGroup(a, 0, 0);
    var t := Group(a, 0, 0)[..2] + "==";
    assert t[..2] + "AA" == Group(a, 0, 0) && t[2..] == "==";
    var triple: Bytes := [a, 0, 0];
    assert triple[..1] == [a];
  }

  lemma DecodeTwo(a: Byte, b: Byte)
    ensures Decode(Group(a, b, 0)[..3] + "=") == Some([a, b])
  {
    UngroupGroup(a, b, 0);
    ValueOfCharOf(b % 16 * 4);
    var t := Group(a, b, 0)[..3] + "=";
    assert t[..3] + "A" == Group(a, b, 0) && t[2] != '=' && t[2..][0] == t[2];
    var triple: Bytes := [a, b, 0];
    assert triple[..2] == [a, b];
  }

  lemma DecodeThree(a: Byte, b: Byte, c: Byte, rest: string)
    requires Decode(rest).Some?
    ensures Decode(Group(a, b, c) + rest) == Some([a, b, c] + Decode(rest).value)
  {
    UngroupGroup(a, b, c);
    var t := Group(a, b, c) + rest;
    assert t[..4] == Group(a, b, c) && t[4..] == rest && t[3] != '=';
    if |t| == 4 {
      assert t[2..][1] == t[3];
    }
  }

  /** Every byte string, of any length, survives being encoded and decoded. */
  lemma {:induction false} DecodeEncode(s: Bytes)
    ensures Decode(Encode(s)) == Some(s)
  {
    if |s| == 1 {
      DecodeOne(s[0]);
      assert s == [s[0]];
    } else if |s| == 2 {
      DecodeTwo(s[0], s[1]);
      assert s == [s[0], s[1]];
    } else if |s| >= 3 {
      DecodeEncode(s[3..]);
      DecodeThree(s[0], s[1], s[2], Encode(s[3..]));
      assert s == [s[0], s[1], s[2]] + s[3..];
    }
  }

  // ------------------------------------------------------------ the standard's encoding

  /** The number four characters of the alphabet spell, six bits each. */
  function Spelled(t: string): Option<int>
    requires |t| == 4
  {
    var w, x, y, z := ValueOf(t[0]), ValueOf(t[1]), ValueOf(t[2]), ValueOf(t[3]);
    if w.None? || x.None? || y.None? || z.None? then None
    else Some(((w.value * 64 + x.value) * 64 + y.value) * 64 + z.value)
  }

  /** A group spells its 24 bits, first byte first. */
  lemma GroupIsBits(a: Byte, b: Byte, c: Byte)
    ensures Spelled(Group(a, b, c)) == Some((a * 256 + b) * 256 + c)
  {
    hide ValueOf, CharOf;
    ValueOfCharOf(a / 4);
    ValueOfCharOf(a % 4 * 16 + b / 16);
    ValueOfCharOf(b % 16 * 4 + c / 64);
    ValueOfCharOf(c % 64);
  }

  lemma ShortVectors()
    ensures Encode([]) == "" && Encode([102]) == "Zg==" && Encode([102, 111]) == "Zm8="
    ensures Encode([98]) == "Yg==" && Encode([98, 97]) == "YmE="
    ensures Group(102, 111, 111) == "Zm9v" && Group(98, 97, 114) == "YmFy"
  {
    assert Group(102, 0, 0)[..2] == "Zg" && Group(102, 111, 0)[..3] == "Zm8";
    assert Group(98, 0, 0)[..2] == "Yg" && Group(98, 97, 0)[..3] == "YmE";
  }

  /** The test vectors of section 10 of RFC 4648. */
  lemma TestVectors()
    ensures Encode([]) == "" && Encode([102]) == "Zg==" && Encode([102, 111]) == "Zm8="
    ensures Encode([102, 111, 111]) == "Zm9v" && Encode([102, 111, 111, 98]) == "Zm9vYg=="
    ensures Encode([102, 111, 111, 98, 97]) == "Zm9vYmE=" && Encode([102, 111, 111, 98, 97, 114]) == "Zm9vYmFy"
  {
    hide Group;
    ShortVectors();
    assert Encode([102, 111, 111]) == "Zm9v" + Encode([]);
    assert Encode([98, 97, 114]) == "YmFy" + Encode([]);
    assert [102, 111, 111, 98][3..] == [98] && [102, 111, 111, 98, 97][3..] == [98, 97];
    assert [102, 111, 111, 98, 97, 114][3..] == [98, 97, 114];
  }

  /** Only text in whole groups of four decodes. */
  lemma {:induction false} DecodesInFours(t: string)
    requires Decode(t).Some?
    ensures |t| % 4 == 0
  {
    hide Ungroup;
    if |t| > 4 {
      DecodesInFours(t[4..]);
    }
  }
}
