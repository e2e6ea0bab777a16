/** UUIDs in the two forms text components carry them: the canonical 36-character string
  * (8-4-4-4-12 hexadecimal digits) and the array of four 32-bit ints, most significant first. */
module Uuids {
  import opened Wrappers
  import opened Bytes

  const HexDigits: string := "0123456789abcdef"

  function Pow16(n: nat): (r: nat)
    ensures r >= 1
  {
    if n == 0 then 1 else 16 * Pow16(n - 1)
  }

  /** The value of a hexadecimal digit, in either case. */
  function DigitValue(c: char): (r: Option<nat>)
    ensures r.Some? ==> r.value < 16
  {
    if '0' <= c <= '9' then Some(c as int - '0' as int)
    else if 'a' <= c <= 'f' then Some(c as int - 'a' as int + 10)
    else if 'A' <= c <= 'F' then Some(c as int - 'A' as int + 10)
    else None
  }

  /** The lower-case spelling of a hexadecimal digit; other characters are kept. */
  function LowerHex(c: char): char {
    if 'A' <= c <= 'F' then (c as int - 'A' as int + 'a' as int) as char else c
  }

  function Lower(s: string): (r: string)
    ensures |r| == |s| && forall i :: 0 <= i < |s| ==> r[i] == LowerHex(s[i])
  {
    seq(|s|, i requires 0 <= i < |s| => LowerHex(s[i]))
  }

  /** The `n` low hexadecimal digits of `u`, most significant first, in lower case. */
  function Hex(u: nat, n: nat): (r: string)
    ensures |r| == n
  {
    if n == 0 then [] else Hex(u / 16, n - 1) + [HexDigits[u % 16]]
  }

  /** A run of hexadecimal digits read as a number; anything else in it is an error. */
  function ParseHex(s: string): (r: Option<nat>)
    ensures r.Some? ==> r.value < Pow16(|s|)
  {
    if |s| == 0 then Some(0)
    else
      match ParseHex(s[..|s| - 1])
      case None => None
      case Some(high) =>
        match DigitValue(s[|s| - 1])
        case None => None
        case Some(d) => Some(high * 16 + d)
  }

  lemma DigitOfHexDigit(d: nat)
    requires d < 16
    ensures DigitValue(HexDigits[d]) == Some(d)
  {
  }

  lemma HexDigitOfDigit(c: char)
    requires DigitValue(c).Some?
    ensures HexDigits[DigitValue(c).value] == LowerHex(c)
  {
  }

  /** Reading back the digits `Hex` writes gives the number written. */
  lemma {:induction false} ParseHexOfHex(u: nat, n: nat)
    requires u < Pow16(n)
    ensures ParseHex(Hex(u, n)) == Some(u)
  {
    if n > 0 {
      var s := Hex(u, n);
      assert s[..n - 1] == Hex(u / 16, n - 1);
      ParseHexOfHex(u / 16, n - 1);
      DigitOfHexDigit(u % 16);
    }
  }

  /** Writing back a number that was read gives its digits in lower case. */
  lemma {:induction false} HexOfParseHex(s: string)
    requires ParseHex(s).Some?
    ensures Hex(ParseHex(s).value, |s|) == Lower(s)
  {
    if |s| > 0 {
      var init := s[..|s| - 1];
      HexOfParseHex(init);
      var high := ParseHex(init).value;
      var d := DigitValue(s[|s| - 1]).value;
      assert (high * 16 + d) / 16 == high && (high * 16 + d) % 16 == d;
      HexDigitOfDigit(s[|s| - 1]);
      assert Lower(s) == Lower(init) + [LowerHex(s[|s| - 1])];
    }
  }

  /** The 32 bits of a Java int, read as unsigned. */
  function Unsigned32(x: int): (r: nat)
    ensures r < TWO_32
  {
    x % TWO_32
  }

  lemma SignedOfUnsigned(x: int)
    requires IsInt32(x)
    ensures ToInt32(Unsigned32(x)) == x
  {
  }

  /** The canonical layout: the 32 digits of `a`..`d` with dashes after digits 8, 12, 16 and 20. */
  function Dashed(a: string, b: string, c: string, d: string): (r: string)
    requires |a| == |b| == |c| == |d| == 8
    ensures |r| == 36 && r[8] == '-' && r[13] == '-' && r[18] == '-' && r[23] == '-'
  {
    a + "-" + b[..4] + "-" + b[4..] + "-" + c[..4] + "-" + c[4..] + d
  }

  /** The four 8-digit groups of a dashed string, as `ParseUuid` takes it apart. */
  lemma DashedParts(a: string, b: string, c: string, d: string)
    requires |a| == |b| == |c| == |d| == 8
    ensures var s := Dashed(a, b, c, d);
      s[..8] == a && s[9..13] + s[14..18] == b && s[19..23] + s[24..28] == c && s[28..] == d
  {
    var s := Dashed(a, b, c, d);
    assert s[9..13] == b[..4] && s[14..18] == b[4..];
    assert b[..4] + b[4..] == b;
    assert s[19..23] == c[..4] && s[24..28] == c[4..];
    assert c[..4] + c[4..] == c;
  }

  /** A string with dashes at the canonical places is the dashed layout of its own groups. */
  lemma DashedOfParts(s: string)
    requires |s| == 36 && s[8] == '-' && s[13] == '-' && s[18] == '-' && s[23] == '-'
    ensures Dashed(s[..8], s[9..13] + s[14..18], s[19..23] + s[24..28], s[28..]) == s
  {
    var b, c := s[9..13] + s[14..18], s[19..23] + s[24..28];
    assert b[..4] == s[9..13] && b[4..] == s[14..18];
    assert c[..4] == s[19..23] && c[4..] == s[24..28];
    assert s == s[..8] + [s[8]] + s[9..13] + [s[13]] + s[14..18] + [s[18]] + s[19..23] + [s[23]] + s[24..28] + s[28..];
  }

  lemma DashedLower(a: string, b: string, c: string, d: string)
    requires |a| == |b| == |c| == |d| == 8
    ensures Dashed(Lower(a), Lower(b), Lower(c), Lower(d)) == Lower(Dashed(a, b, c, d))
  {
    var dash := "-";
    assert Lower(dash) == dash;
    assert Lower(b)[..4] == Lower(b[..4]) && Lower(b)[4..] == Lower(b[4..]);
    assert Lower(c)[..4] == Lower(c[..4]) && Lower(c)[4..] == Lower(c[4..]);
    var p1 := a + dash;
    LowerAppend(a, dash);
    var p2 := p1 + b[..4];
    LowerAppend(p1, b[..4]);
    var p3 := p2 + dash;
    LowerAppend(p2, dash);
    var p4 := p3 + b[4..];
    LowerAppend(p3, b[4..]);
    var p5 := p4 + dash;
    LowerAppend(p4, dash);
    var p6 := p5 + c[..4];
    LowerAppend(p5, c[..4]);
    var p7 := p6 + dash;
    LowerAppend(p6, dash);
    var p8 := p7 + c[4..];
    LowerAppend(p7, c[4..]);
    LowerAppend(p8, d);
    assert Dashed(a, b, c, d) == p8 + d;
  }

  lemma LowerAppend(x: string, y: string)
    ensures Lower(x + y) == Lower(x) + Lower(y)
  {
  }

  /** `UUID.toString` of the UUID whose four 32-bit parts are `parts`. */
  function UuidString(parts: seq<int>): (r: string)
    requires |parts| == 4
    ensures |r| == 36
  {
    Dashed(Hex(Unsigned32(parts[0]), 8), Hex(Unsigned32(parts[1]), 8), Hex(Unsigned32(parts[2]), 8), Hex(Unsigned32(parts[3]), 8))
  }

  const ZeroUuid: string := "00000000-0000-0000-0000-000000000000"

  /** `uuidIntsToString`: the UUID string of a four-int array, and the all-zero UUID for any other length. */
  function UuidIntsToString(parts: seq<int>): (r: string)
    ensures |parts| != 4 ==> r == ZeroUuid
    ensures |r| == 36 && r[8] == '-' && r[13] == '-' && r[18] == '-' && r[23] == '-'
  {
    if |parts| != 4 then ZeroUuid else UuidString(parts)
  }

  /** Parsing of the canonical UUID form: four dashes at their places and hexadecimal digits of either
    * case everywhere else; the result is `uuidToIntArray` of the UUID read. */
  function ParseUuid(s: string): (r: Option<seq<int>>)
    ensures r.Some? ==> |s| == 36 && |r.value| == 4 && forall i :: 0 <= i < 4 ==> IsInt32(r.value[i])
  {
    if |s| == 36 && s[8] == '-' && s[13] == '-' && s[18] == '-' && s[23] == '-' then
      match (ParseHex(s[..8]), ParseHex(s[9..13] + s[14..18]), ParseHex(s[19..23] + s[24..28]), ParseHex(s[28..]))
      case (Some(a), Some(b), Some(c), Some(d)) => Some([ToInt32(a), ToInt32(b), ToInt32(c), ToInt32(d)])
      case _ => None
    else None
  }

  /** Every four-int UUID array survives the trip through its string. */
  lemma UuidRoundTrip(parts: seq<int>)
    requires |parts| == 4 && forall i :: 0 <= i < 4 ==> IsInt32(parts[i])
    ensures ParseUuid(UuidIntsToString(parts)) == Some(parts)
  {
    var u0, u1, u2, u3 := Unsigned32(parts[0]), Unsigned32(parts[1]), Unsigned32(parts[2]), Unsigned32(parts[3]);
    var s := UuidIntsToString(parts);
    DashedParts(Hex(u0, 8), Hex(u1, 8), Hex(u2, 8), Hex(u3, 8));
    assert Pow16(8) == TWO_32;
    ParseHexOfHex(u0, 8);
    ParseHexOfHex(u1, 8);
    ParseHexOfHex(u2, 8);
    ParseHexOfHex(u3, 8);
    SignedOfUnsigned(parts[0]);
    SignedOfUnsigned(parts[1]);
    SignedOfUnsigned(parts[2]);
    SignedOfUnsigned(parts[3]);
    assert ParseUuid(s) == Some([ToInt32(u0), ToInt32(u1), ToInt32(u2), ToInt32(u3)]);
    FourParts(parts);
  }

  /** A sequence of four is the display of its elements. */
  lemma FourParts(parts: seq<int>)
    requires |parts| == 4
    ensures [parts[0], parts[1], parts[2], parts[3]] == parts
  {
  }

  /** A parsed UUID string comes back as the same string in lower case. */
  lemma UuidStringOfParse(s: string)
    requires ParseUuid(s).Some?
    ensures UuidIntsToString(ParseUuid(s).value) == Lower(s)
  {
    var parts := ParseUuid(s).value;
    var a, b, c, d := s[..8], s[9..13] + s[14..18], s[19..23] + s[24..28], s[28..];
    HexOfParseHex(a);
    HexOfParseHex(b);
    HexOfParseHex(c);
    HexOfParseHex(d);
    assert Pow16(8) == TWO_32;
    assert Unsigned32(parts[0]) == ParseHex(a).value;
    assert Unsigned32(parts[1]) == ParseHex(b).value;
    assert Unsigned32(parts[2]) == ParseHex(c).value;
    assert Unsigned32(parts[3]) == ParseHex(d).value;
    DashedLower(a, b, c, d);
    DashedOfParts(s);
  }
}
