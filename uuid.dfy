/**
 * The textual form of a UUID (section 3 of RFC 4122) and the version-4 check
 * the user and product configurations apply to `userId`. The random
 * generator used by callers is modelled as a function of its 16 random bytes.
 */
module Uuid {

  /** A byte as the generator draws it. */
  type Byte = b: int | 0 <= b < 256

  predicate IsLowerHexDigit(ch: char) {
    ('0' <= ch <= '9') || ('a' <= ch <= 'f')
  }

  predicate IsHexDigit(ch: char) {
    IsLowerHexDigit(ch) || ('A' <= ch <= 'F')
  }

  predicate AllHex(t: string) {
    forall i :: 0 <= i < |t| ==> IsHexDigit(t[i])
  }

  predicate AllLowerHex(t: string) {
    forall i :: 0 <= i < |t| ==> IsLowerHexDigit(t[i])
  }

  /** Text made only of hyphens and lowercase hex digits, as the generator writes it. */
  predicate IsLowerHexText(s: string) {
    forall i :: 0 <= i < |s| ==> s[i] == '-' || IsLowerHexDigit(s[i])
  }

  /** Five groups of 8, 4, 4, 4 and 12 hex digits joined by hyphens, in either letter case. */
  predicate IsUuidText(s: string) {
    && |s| == 36
    && s[8] == '-' && s[13] == '-' && s[18] == '-' && s[23] == '-'
    && AllHex(s[..8]) && AllHex(s[9..13]) && AllHex(s[14..18]) && AllHex(s[19..23]) && AllHex(s[24..])
  }

  /**
   * A version-4 UUID: the version nibble (section 4.1.3 of RFC 4122), the
   * first digit of the third group, is 4, and the variant nibble (section
   * 4.1.1), the first digit of the fourth group, is one of 8, 9, a, b: its
   * top two bits are 10.
   */
  predicate IsUuidV4(s: string): (valid: bool)
    ensures valid ==> |s| == 36 && IsHexDigit(s[14]) && IsHexDigit(s[19])
    ensures valid ==> HexValue(s[14]) == 4 && HexValue(s[19]) / 4 == 2
  {
    && IsUuidText(s)
    && s[14] == '4'
    && s[19] in "89abAB"
  }

  /**
   * Five hex groups of the right lengths, joined by hyphens, form a
   * version-4 text exactly when the third group starts with 4 and the
   * fourth with 8, 9, a or b.
   */
  lemma JoinedGroupsIsUuidV4(a: string, b: string, c: string, d: string, e: string)
    requires |a| == 8 && |b| == 4 && |c| == 4 && |d| == 4 && |e| == 12
    requires AllHex(a) && AllHex(b) && AllHex(c) && AllHex(d) && AllHex(e)
    ensures IsUuidV4(a + "-" + b + "-" + c + "-" + d + "-" + e) <==> c[0] == '4' && d[0] in "89abAB"
  {
    var s := a + "-" + b + "-" + c + "-" + d + "-" + e;
    assert s[..8] == a && s[9..13] == b && s[14..18] == c && s[19..23] == d && s[24..] == e;
  }

  /** The lowercase hex digit of a nibble. */
  function HexChar(n: int): (ch: char)
    requires 0 <= n < 16
    ensures IsLowerHexDigit(ch)
  {
    if n < 10 then ('0' as int + n) as char else ('a' as int + n - 10) as char
  }

  /** The nibble a hex digit of either case denotes. */
  function HexValue(ch: char): (n: int)
    requires IsHexDigit(ch)
    ensures 0 <= n < 16
    ensures IsLowerHexDigit(ch) ==> HexChar(n) == ch
  {
    if ch <= '9' then ch as int - '0' as int
    else if ch <= 'F' then ch as int - 'A' as int + 10
    else ch as int - 'a' as int + 10
  }

  /** Two lowercase hex digits per byte, high nibble first. */
  function HexOf(bytes: seq<Byte>): (s: string)
    ensures |s| == 2 * |bytes|
  {
    seq(2 * |bytes|, i requires 0 <= i < 2 * |bytes| =>
      if i % 2 == 0 then HexChar(bytes[i / 2] / 16) else HexChar(bytes[i / 2] % 16))
  }

  /** The bytes denoted by an even number of hex digits. */
  function ParseHex(s: string): (bytes: seq<Byte>)
    requires |s| % 2 == 0 && AllHex(s)
    ensures |bytes| == |s| / 2
  {
    seq(|s| / 2, k requires 0 <= k < |s| / 2 => 16 * HexValue(s[2 * k]) + HexValue(s[2 * k + 1]))
  }

  lemma HexOfIsLowerHex(bytes: seq<Byte>)
    ensures AllLowerHex(HexOf(bytes)) && AllHex(HexOf(bytes))
  {
  }

  /** Reading back the hex text of some bytes gives those bytes. */
  lemma ParseHexOf(bytes: seq<Byte>)
    ensures AllHex(HexOf(bytes)) && ParseHex(HexOf(bytes)) == bytes
  {
    var s := HexOf(bytes);
    HexOfIsLowerHex(bytes);
    forall k | 0 <= k < |bytes|
      ensures ParseHex(s)[k] == bytes[k]
    {
      assert s[2 * k] == HexChar(bytes[k] / 16);
      assert s[2 * k + 1] == HexChar(bytes[k] % 16);
    }
  }

  /** Writing out the bytes of lowercase hex text gives that text. */
  lemma HexOfParse(s: string)
    requires |s| % 2 == 0 && AllLowerHex(s)
    ensures HexOf(ParseHex(s)) == s
  {
    var bytes := ParseHex(s);
    forall i | 0 <= i < |s|
      ensures HexOf(bytes)[i] == s[i]
    {
      var k := i / 2;
      assert bytes[k] / 16 == HexValue(s[2 * k]);
      assert bytes[k] % 16 == HexValue(s[2 * k + 1]);
    }
  }

  /** The canonical text of 16 bytes: groups of 4, 2, 2, 2 and 6 bytes joined by hyphens. */
  function FormatUuid(bytes: seq<Byte>): (s: string)
    requires |bytes| == 16
    ensures |s| == 36
  {
    HexOf(bytes[..4]) + "-" + HexOf(bytes[4..6]) + "-" + HexOf(bytes[6..8]) + "-" + HexOf(bytes[8..10]) + "-" + HexOf(bytes[10..])
  }

  /** Where each group of bytes lands in the canonical text. */
  lemma FormatGroups(bytes: seq<Byte>)
    requires |bytes| == 16
    ensures var s := FormatUuid(bytes);
      && s[8] == '-' && s[13] == '-' && s[18] == '-' && s[23] == '-'
      && s[..8] == HexOf(bytes[..4]) && s[9..13] == HexOf(bytes[4..6]) && s[14..18] == HexOf(bytes[6..8])
      && s[19..23] == HexOf(bytes[8..10]) && s[24..] == HexOf(bytes[10..])
  {
  }

  /** The text of any 16 bytes is a lowercase canonical UUID text. */
  lemma FormatIsCanonical(bytes: seq<Byte>)
    requires |bytes| == 16
    ensures IsUuidText(FormatUuid(bytes)) && IsLowerHexText(FormatUuid(bytes))
  {
    FormatGroups(bytes);
    HexOfIsLowerHex(bytes[..4]);
    HexOfIsLowerHex(bytes[4..6]);
    HexOfIsLowerHex(bytes[6..8]);
    HexOfIsLowerHex(bytes[8..10]);
    HexOfIsLowerHex(bytes[10..]);
  }

  /** The bytes a canonical text denotes, group by group. */
  function UuidBytes(s: string): (bytes: seq<Byte>)
    requires IsUuidText(s)
    ensures |bytes| == 16
  {
    ParseHex(s[..8]) + ParseHex(s[9..13]) + ParseHex(s[14..18]) + ParseHex(s[19..23]) + ParseHex(s[24..])
  }

  lemma SplitGroups<T>(xs: seq<T>)
    requires |xs| == 16
    ensures xs == xs[..4] + xs[4..6] + xs[6..8] + xs[8..10] + xs[10..]
  {
    assert xs == xs[..4] + xs[4..];
    assert xs[4..] == xs[4..6] + xs[6..];
    assert xs[6..] == xs[6..8] + xs[8..];
    assert xs[8..] == xs[8..10] + xs[10..];
  }

  /** Reading back the text of 16 bytes gives those bytes. */
  lemma UuidBytesOfFormat(bytes: seq<Byte>)
    requires |bytes| == 16
    ensures IsUuidText(FormatUuid(bytes)) && UuidBytes(FormatUuid(bytes)) == bytes
  {
    var s := FormatUuid(bytes);
    FormatIsCanonical(bytes);
    FormatGroups(bytes);
    ParseHexOf(bytes[..4]);
    ParseHexOf(bytes[4..6]);
    ParseHexOf(bytes[6..8]);
    ParseHexOf(bytes[8..10]);
    ParseHexOf(bytes[10..]);
    SplitGroups(bytes);
  }

  /** Writing out the bytes of a lowercase canonical text gives that text. */
  lemma FormatOfUuidBytes(s: string)
    requires IsUuidText(s) && IsLowerHexText(s)
    ensures FormatUuid(UuidBytes(s)) == s
  {
    LowerCaseGroups(s);
    var bytes := UuidBytes(s);
    assert bytes[..4] == ParseHex(s[..8]);
    assert bytes[4..6] == ParseHex(s[9..13]);
    assert bytes[6..8] == ParseHex(s[14..18]);
    assert bytes[8..10] == ParseHex(s[19..23]);
    assert bytes[10..] == ParseHex(s[24..]);
    HexOfParse(s[..8]);
    HexOfParse(s[9..13]);
    HexOfParse(s[14..18]);
    HexOfParse(s[19..23]);
    HexOfParse(s[24..]);
    SplitText(s);
  }

  lemma SplitText(s: string)
    requires |s| == 36 && s[8] == '-' && s[13] == '-' && s[18] == '-' && s[23] == '-'
    ensures s == s[..8] + "-" + s[9..13] + "-" + s[14..18] + "-" + s[19..23] + "-" + s[24..]
  {
  }

  /** The groups of a lowercase canonical text are lowercase hex. */
  lemma LowerCaseGroups(s: string)
    requires IsUuidText(s) && IsLowerHexText(s)
    ensures AllLowerHex(s[..8]) && AllLowerHex(s[9..13]) && AllLowerHex(s[14..18])
    ensures AllLowerHex(s[19..23]) && AllLowerHex(s[24..])
  {
  }

  /**
   * The text a version-4 generator emits for 16 random bytes: the high
   * nibble of byte 6 becomes the version 4 and the top two bits of byte 8
   * become the variant bits 10.
   */
  function UuidV4FromRandom(random: seq<Byte>): (s: string)
    requires |random| == 16
    ensures |s| == 36
  {
    FormatUuid(random[6 := 0x40 + random[6] % 16][8 := 0x80 + random[8] % 64])
  }

  /** Every identifier the generator can produce passes the version-4 check, in lower case. */
  lemma GeneratedUuidIsV4(random: seq<Byte>)
    requires |random| == 16
    ensures IsUuidV4(UuidV4FromRandom(random)) && IsLowerHexText(UuidV4FromRandom(random))
  {
    var bytes := random[6 := 0x40 + random[6] % 16][8 := 0x80 + random[8] % 64];
    FormatIsCanonical(bytes);
    FormatGroups(bytes);
  }

  /**
   * In a version-4 text the version and variant bits are already set, so
   * the generator's adjustment leaves its bytes as they are.
   */
  lemma V4BitsAlreadySet(s: string)
    requires IsUuidV4(s) && IsLowerHexText(s)
    ensures var bytes := UuidBytes(s);
      bytes[6 := 0x40 + bytes[6] % 16][8 := 0x80 + bytes[8] % 64] == bytes
  {
    var bytes := UuidBytes(s);
    var third, fourth := ParseHex(s[14..18]), ParseHex(s[19..23]);
    assert bytes[6] == third[0];
    assert bytes[8] == fourth[0];
    assert s[14..18][0] == s[14] && s[19..23][0] == s[19];
    assert third[0] / 16 == 4;
    assert 8 <= fourth[0] / 16 < 12;
  }

  /** Every lowercase text that passes the version-4 check is an output of the generator. */
  lemma LowerCaseUuidV4IsGenerated(s: string)
    requires IsUuidV4(s) && IsLowerHexText(s)
    ensures UuidV4FromRandom(UuidBytes(s)) == s
  {
    V4BitsAlreadySet(s);
    FormatOfUuidBytes(s);
  }
}
