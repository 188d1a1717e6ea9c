/** Parsing of IPv6 text and the test for publicly routable addresses. */
module PublicAddress {
  import opened Address
  import opened Arithmetic
  import opened Bits
  import opened Domain

  // ---- text helpers -----------------------------------------------------

  function LowerChar(c: char): char { if 'A' <= c <= 'Z' then (c as int + 32) as char else c }

  function ToLower(s: string): (t: string)
    ensures |t| == |s| && forall i :: 0 <= i < |s| ==> t[i] == LowerChar(s[i])
  {
    if s == "" then "" else ToLower(s[..|s| - 1]) + [LowerChar(s[|s| - 1])]
  }

  /** Everything before the zone identifier. */
  function CutZone(s: string): string {
    if s == "" || s[0] == '%' then "" else [s[0]] + CutZone(s[1..])
  }

  /** lastIndexOf(':'), or -1. */
  function LastColon(s: string): (i: int)
    ensures -1 <= i < |s| && (i >= 0 ==> s[i] == ':')
  {
    if s == "" then -1 else if s[|s| - 1] == ':' then |s| - 1 else LastColon(s[..|s| - 1])
  }

  lemma {:induction false} LastColonIs(a: string, b: string)
    requires ':' !in b
    ensures LastColon(a + ":" + b) == |a|
  {
    var s := a + ":" + b;
    if b == "" {
      assert s[|s| - 1] == ':';
    } else {
      assert s[..|s| - 1] == a + ":" + b[..|b| - 1];
      LastColonIs(a, b[..|b| - 1]);
    }
  }

  lemma {:induction false} NoZone(s: string)
    requires '%' !in s
    ensures CutZone(s) == s
  {
    if s != "" {
      NoZone(s[1..]);
      assert [s[0]] + s[1..] == s;
    }
  }

  // ---- parsing ----------------------------------------------------------

  function Hex(n: nat): string { Numeral(n, 16) }

  /** An embedded dotted quad becomes two groups. */
  function ReplaceQuad(address: string): Option<string> {
    if '.' !in address then Some(address)
    else
      var colon := LastColon(address);
      if colon < 0 then None
      else
        var v := ParseIpv4(address[colon + 1..]);
        if v.None? then None
        else Some(address[..colon] + ":" + Hex(v.value / 0x1_0000) + ":" + Hex(LowGroup(v.value)))
  }

  function Pieces(half: string): seq<string> { if half == "" then [] else Split(half, ':') }

  function Zeros(n: nat): (z: seq<string>)
    ensures |z| == n && forall k :: 0 <= k < n ==> z[k] == "0"
  {
    if n == 0 then [] else Zeros(n - 1) + ["0"]
  }

  /** The eight groups, with "::" filled up. */
  function Groups(address: string): Option<seq<string>> {
    var halves := SplitDouble(address);
    if |halves| > 2 then None
    else
      var left := Pieces(halves[0]);
      var right := if |halves| == 2 then Pieces(halves[1]) else [];
      var missing := 8 - |left| - |right|;
      if (|halves| == 1 && missing != 0) || missing < 0 then None else Some(left + Zeros(missing) + right)
  }

  function ParseIpv6(input: string): Option<nat> {
    var address := ReplaceQuad(CutZone(ToLower(input)));
    if address.None? then None
    else
      var groups := Groups(address.value);
      if groups.None? then None else Fold(groups.value, 16, 4, 0x1_0000)
  }

  /** parseIpv6, with its loop over the groups. */
  method ReadIpv6(input: string) returns (r: Option<nat>)
    ensures r == ParseIpv6(input)
    ensures r.Some? ==> r.value < Power(0x1_0000, 8)
  {
    var address := ReplaceQuad(CutZone(ToLower(input)));
    if address.None? { return None; }
    var groups := Groups(address.value);
    if groups.None? { return None; }
    r := FoldGroups(groups.value);
    FoldBound(groups.value, 16, 4, 0x1_0000);
  }

  /** The loop over the groups. */
  method FoldGroups(parts: seq<string>) returns (r: Option<nat>)
    ensures r == Fold(parts, 16, 4, 0x1_0000)
  {
    var value, i := 0, 0;
    while i < |parts|
      invariant 0 <= i <= |parts| && Fold(parts[..i], 16, 4, 0x1_0000) == Some(value)
    {
      assert parts[..i + 1][..i] == parts[..i];
      if !IsNumeral(parts[i], 16, 4) {
        FoldStops(parts, i + 1, 16, 4, 0x1_0000);
        return None;
      }
      FourHexDigits(parts[i]);
      PowersOfTwo();
      OrOfDisjoint(value, Number(parts[i], 16), 16);
      value := Or(value * 0x1_0000, Number(parts[i], 16));
      i := i + 1;
    }
    assert parts[..i] == parts;
    return Some(value);
  }

  lemma {:induction false} NumberBound(s: string, base: nat, maxLength: nat)
    requires base >= 1 && |s| <= maxLength && forall i :: 0 <= i < |s| ==> 0 <= DigitValue(s[i]) < base
    ensures Number(s, base) < Power(base, maxLength)
  {
    if maxLength > 0 && s != "" {
      NumberBound(s[..|s| - 1], base, maxLength - 1);
      OneMoreDigit(Number(s[..|s| - 1], base), Power(base, maxLength - 1), base, DigitValue(s[|s| - 1]));
    } else {
      PowerIsPositive(base, maxLength);
    }
  }

  lemma FourHexDigits(s: string)
    requires IsNumeral(s, 16, 4)
    ensures Number(s, 16) < 0x1_0000
  {
    NumberBound(s, 16, 4);
    assert Power(16, 2) == 256 && Power(16, 4) == 16 * (16 * Power(16, 2));
  }

  // ---- written groups ---------------------------------------------------

  function Text(digits: seq<nat>): string { Join(Numerals(digits, 16), ':') }

  predicate GroupValues(digits: seq<nat>) { forall k :: 0 <= k < |digits| ==> digits[k] < 0x1_0000 }

  predicate HexChar(c: char) { '0' <= c <= '9' || 'a' <= c <= 'f' }

  lemma GroupText(n: nat)
    requires n < 0x1_0000
    ensures IsNumeral(Hex(n), 16, 4) && Number(Hex(n), 16) == n
    ensures forall c :: c in Hex(n) ==> HexChar(c)
  {
    assert Power(16, 2) == 256 && Power(16, 4) == 16 * (16 * Power(16, 2));
    NumeralRoundTrip(n, 16, 4);
    forall i | 0 <= i < |Hex(n)| ensures HexChar(Hex(n)[i]) { assert 0 <= DigitValue(Hex(n)[i]) < 16; }
  }

  lemma NumeralsSpell(digits: seq<nat>)
    requires GroupValues(digits)
    ensures Spells(Numerals(digits, 16), digits, 16, 4, 0x1_0000)
    ensures forall k :: 0 <= k < |digits| ==> Numerals(digits, 16)[k] != "" && forall c :: c in Numerals(digits, 16)[k] ==> HexChar(c)
  {
    forall k | 0 <= k < |digits|
      ensures IsNumeral(Hex(digits[k]), 16, 4) && Number(Hex(digits[k]), 16) == digits[k] && forall c :: c in Hex(digits[k]) ==> HexChar(c)
    {
      GroupText(digits[k]);
    }
  }

  /** No two colons meet, and none stands at either end. */
  predicate Tidy(t: string) {
    && (forall i :: 0 <= i < |t| - 1 ==> t[i] != ':' || t[i + 1] != ':')
    && (t != "" ==> t[0] != ':' && t[|t| - 1] != ':')
  }

  lemma {:induction false} JoinIsTidy(parts: seq<string>)
    requires forall k :: 0 <= k < |parts| ==> parts[k] != "" && ':' !in parts[k]
    ensures Tidy(Join(parts, ':')) && (parts != [] ==> Join(parts, ':') != "")
  {
    if |parts| > 1 { JoinIsTidy(parts[1..]); }
  }

  lemma {:induction false} TidyIsOneHalf(t: string)
    requires forall i :: 0 <= i < |t| - 1 ==> t[i] != ':' || t[i + 1] != ':'
    ensures SplitDouble(t) == [t]
  {
    if |t| >= 2 {
      TidyIsOneHalf(t[1..]);
      assert [t[0]] + t[1..] == t;
    }
  }

  lemma {:induction false} SplitAtDouble(a: string, b: string)
    requires (forall i :: 0 <= i < |a| - 1 ==> a[i] != ':' || a[i + 1] != ':') && (a != "" ==> a[|a| - 1] != ':')
    ensures SplitDouble(a + "::" + b) == [a] + SplitDouble(b)
  {
    var s := a + "::" + b;
    if a == "" {
      assert s[2..] == b;
    } else {
      assert s[1..] == a[1..] + "::" + b;
      SplitAtDouble(a[1..], b);
      assert [a[0]] + a[1..] == a;
    }
  }

  lemma PiecesOfText(digits: seq<nat>)
    requires GroupValues(digits)
    ensures Pieces(Text(digits)) == Numerals(digits, 16) && Tidy(Text(digits))
  {
    NumeralsSpell(digits);
    JoinIsTidy(Numerals(digits, 16));
    if digits != [] { SplitJoin(Numerals(digits, 16), ':'); }
  }

  // ---- values -----------------------------------------------------------

  function ZeroDigits(n: nat): (z: seq<nat>)
    ensures |z| == n && forall k :: 0 <= k < n ==> z[k] == 0
  {
    if n == 0 then [] else ZeroDigits(n - 1) + [0]
  }

  lemma HalvesOf(a: string, b: string)
    requires Tidy(a) && Tidy(b)
    ensures SplitDouble(a + "::" + b) == [a, b]
  {
    SplitAtDouble(a, b);
    TidyIsOneHalf(b);
  }

  lemma GroupsOfHalves(address: string, a: string, b: string)
    requires SplitDouble(address) == [a, b] && |Pieces(a)| + |Pieces(b)| <= 8
    ensures Groups(address) == Some(Pieces(a) + Zeros(8 - |Pieces(a)| - |Pieces(b)|) + Pieces(b))
  {}

  /** "::" stands for as many zero groups as are missing, wherever it is written. */
  lemma CompressedGroups(a: seq<nat>, b: seq<nat>)
    requires GroupValues(a) && GroupValues(b) && |a| + |b| <= 8
    ensures var digits := a + ZeroDigits(8 - |a| - |b|) + b;
            var groups := Groups(Text(a) + "::" + Text(b));
            groups.Some? && Spells(groups.value, digits, 16, 4, 0x1_0000)
  {
    var missing := 8 - |a| - |b|;
    PiecesOfText(a);
    PiecesOfText(b);
    HalvesOf(Text(a), Text(b));
    GroupsOfHalves(Text(a) + "::" + Text(b), Text(a), Text(b));
    NumeralsSpell(a);
    NumeralsSpell(b);
    ZerosSpell(missing);
    SpellsConcat(Numerals(a, 16), Zeros(missing), a, ZeroDigits(missing));
    SpellsConcat(Numerals(a, 16) + Zeros(missing), Numerals(b, 16), a + ZeroDigits(missing), b);
  }

  lemma ZerosSpell(n: nat)
    ensures Spells(Zeros(n), ZeroDigits(n), 16, 4, 0x1_0000)
  {
    OneDigit('0', 16, 4);
  }

  lemma SpellsConcat(p: seq<string>, q: seq<string>, d: seq<nat>, e: seq<nat>)
    requires Spells(p, d, 16, 4, 0x1_0000) && Spells(q, e, 16, 4, 0x1_0000)
    ensures Spells(p + q, d + e, 16, 4, 0x1_0000)
  {}

  lemma GroupsAround(a: seq<nat>, b: seq<nat>)
    requires GroupValues(a) && GroupValues(b) && |a| + |b| <= 8
    ensures var groups := Groups(Text(a) + "::" + Text(b));
            groups.Some? && Fold(groups.value, 16, 4, 0x1_0000) == Some(Weigh(a + ZeroDigits(8 - |a| - |b|) + b, 0x1_0000))
  {
    CompressedGroups(a, b);
    FoldIsWeigh(Groups(Text(a) + "::" + Text(b)).value, a + ZeroDigits(8 - |a| - |b|) + b, 16, 4, 0x1_0000);
  }

  lemma FullGroups(a: seq<nat>)
    requires GroupValues(a) && |a| == 8
    ensures var groups := Groups(Text(a)); groups.Some? && Spells(groups.value, a, 16, 4, 0x1_0000)
  {
    PiecesOfText(a);
    TidyIsOneHalf(Text(a));
    NumeralsSpell(a);
    assert Numerals(a, 16) + Zeros(0) + [] == Numerals(a, 16);
  }

  /** Text made of lower-case hexadecimal digits and colons is left alone by the first steps of the parser. */
  lemma PlainText(t: string)
    requires forall c :: c in t ==> HexChar(c) || c == ':'
    ensures ReplaceQuad(CutZone(ToLower(t))) == Some(t)
  {
    forall i | 0 <= i < |t| ensures LowerChar(t[i]) == t[i] { assert t[i] in t; }
    assert ToLower(t) == t;
    NoZone(t);
  }

  lemma {:induction false} JoinChars(parts: seq<string>)
    requires forall k :: 0 <= k < |parts| ==> forall c :: c in parts[k] ==> HexChar(c)
    ensures forall c :: c in Join(parts, ':') ==> HexChar(c) || c == ':'
  {
    if |parts| > 1 { JoinChars(parts[1..]); }
  }

  lemma TextIsPlain(digits: seq<nat>)
    requires GroupValues(digits)
    ensures forall c :: c in Text(digits) ==> HexChar(c) || c == ':'
  {
    NumeralsSpell(digits);
    JoinChars(Numerals(digits, 16));
  }

  /**
   * Sections 2.2 and 2.5.5.2 of RFC 4291: eight groups, or any groups around "::", read as their value.
   */
  lemma {:induction false} WrittenGroupsParse(a: seq<nat>, b: seq<nat>)
    requires GroupValues(a) && GroupValues(b) && |a| + |b| <= 8
    ensures ParseIpv6(Text(a) + "::" + Text(b)) == Some(Weigh(a + ZeroDigits(8 - |a| - |b|) + b, 0x1_0000))
    ensures |a| == 8 ==> ParseIpv6(Text(a)) == Some(Weigh(a, 0x1_0000))
  {
    TextIsPlain(a);
    TextIsPlain(b);
    PlainText(Text(a) + "::" + Text(b));
    GroupsAround(a, b);
    if |a| == 8 {
      PlainText(Text(a));
      FullGroups(a);
      FoldIsWeigh(Groups(Text(a)).value, a, 16, 4, 0x1_0000);
    }
  }

  /** The n low groups of a value, most significant first. */
  function GroupsOf(v: nat, n: nat): (digits: seq<nat>)
    ensures |digits| == n && GroupValues(digits)
  {
    if n == 0 then [] else GroupsOf(v / 0x1_0000, n - 1) + [v % 0x1_0000]
  }

  lemma {:induction false} GroupsWeigh(v: nat, n: nat)
    requires v < Power(0x1_0000, n)
    ensures Weigh(GroupsOf(v, n), 0x1_0000) == v
  {
    if n > 0 {
      LessByFactor(v / 0x1_0000, Power(0x1_0000, n - 1), 0x1_0000);
      GroupsWeigh(v / 0x1_0000, n - 1);
      assert GroupsOf(v, n)[..n - 1] == GroupsOf(v / 0x1_0000, n - 1);
    }
  }

  /** Every 128-bit value, written as eight groups, survives parsing. */
  lemma {:induction false} Ipv6RoundTrip(v: nat)
    requires v < Power(0x1_0000, 8)
    ensures ParseIpv6(Text(GroupsOf(v, 8))) == Some(v)
  {
    WrittenGroupsParse(GroupsOf(v, 8), []);
    GroupsWeigh(v, 8);
  }

  // ---- IPv4-mapped addresses --------------------------------------------

  lemma {:induction false} LeadingZeros(n: nat, digits: seq<nat>)
    ensures Weigh(ZeroDigits(n) + digits, 0x1_0000) == Weigh(digits, 0x1_0000)
  {
    if digits == [] {
      assert ZeroDigits(n) + digits == ZeroDigits(n);
      if n > 0 {
        LeadingZeros(n - 1, []);
        assert ZeroDigits(n - 1) + [] == ZeroDigits(n - 1);
      }
    } else {
      assert (ZeroDigits(n) + digits)[..n + |digits| - 1] == ZeroDigits(n) + digits[..|digits| - 1];
      LeadingZeros(n, digits[..|digits| - 1]);
    }
  }

  lemma {:induction false} JoinDigits(parts: seq<string>)
    requires forall k :: 0 <= k < |parts| ==> forall c :: c in parts[k] ==> '0' <= c <= '9'
    ensures forall c :: c in Join(parts, '.') ==> '0' <= c <= '9' || c == '.'
    ensures |parts| >= 2 ==> '.' in Join(parts, '.')
  {
    if |parts| > 1 {
      JoinDigits(parts[1..]);
      assert Join(parts, '.')[|parts[0]|] == '.';
    }
  }

  lemma QuadText(v: nat)
    requires v < 0x1_0000_0000
    ensures '.' in FormatIpv4(v) && forall c :: c in FormatIpv4(v) ==> '0' <= c <= '9' || c == '.'
  {
    var parts := Numerals(Octets(v), 10);
    forall k | 0 <= k < |parts| ensures forall c :: c in parts[k] ==> '0' <= c <= '9' { OctetText(Octets(v)[k]); }
    JoinDigits(parts);
  }

  lemma HexFfff()
    ensures Hex(0xffff) == "ffff"
  {
    assert Hex(0xf) == "f" && Hex(0xff) == "ff" && Hex(0xfff) == "fff";
  }

  /** Section 2.5.5.2 of RFC 4291: the mapped form of a canonical dotted quad has value ffff followed by its 32 bits. */
  lemma MappedParses(v: nat)
    requires v < 0x1_0000_0000
    ensures ParseIpv6("::ffff:" + FormatIpv4(v)) == Some(0xffff * 0x1_0000_0000 + v)
  {
    var hi, lo := v / 0x1_0000, v % 0x1_0000;
    MappedBits(v);
    MappedIsRewritten(v);
    MappedText(hi, lo);
    MappedValue(hi, lo);
  }

  lemma MappedBits(v: nat)
    requires v < 0x1_0000_0000
    ensures (0xffff * 0x1_0000 + v / 0x1_0000) * 0x1_0000 + v % 0x1_0000 == 0xffff * 0x1_0000_0000 + v
  {}

  /** The first steps of the parser turn the dotted quad into two groups. */
  lemma MappedIsRewritten(v: nat)
    requires v < 0x1_0000_0000
    ensures ReplaceQuad(CutZone(ToLower("::ffff:" + FormatIpv4(v))))
         == Some("::ffff" + ":" + Hex(v / 0x1_0000) + ":" + Hex(v % 0x1_0000))
  {
    var x := FormatIpv4(v);
    var input := "::ffff:" + x;
    QuadText(v);
    Ipv4RoundTrip(v);
    MappedIsPlain(x);
    assert input == "::ffff" + ":" + x;
    LastColonIs("::ffff", x);
    assert input[7..] == x && input[..6] == "::ffff";
  }

  lemma MappedIsPlain(x: string)
    requires '.' in x && forall c :: c in x ==> '0' <= c <= '9' || c == '.'
    ensures CutZone(ToLower("::ffff:" + x)) == "::ffff:" + x && '.' in "::ffff:" + x
  {
    var input := "::ffff:" + x;
    forall i | 0 <= i < |input| ensures LowerChar(input[i]) == input[i] && input[i] != '%' {
      if i >= 7 { assert input[i] == x[i - 7] && x[i - 7] in x; }
    }
    assert ToLower(input) == input;
    NoZone(input);
    var i :| 0 <= i < |x| && x[i] == '.';
    assert input[7 + i] == '.';
  }

  lemma MappedText(hi: nat, lo: nat)
    requires hi < 0x1_0000 && lo < 0x1_0000
    ensures "::ffff" + ":" + Hex(hi) + ":" + Hex(lo) == "::" + Text([0xffff, hi, lo])
  {
    HexFfff();
    var d := [0xffff, hi, lo];
    var parts := Numerals(d, 16);
    assert parts == [Hex(0xffff), Hex(hi), Hex(lo)];
    assert parts[1..] == [Hex(hi), Hex(lo)] && parts[1..][1..] == [Hex(lo)];
    assert Join(parts[1..], ':') == Hex(hi) + [':'] + Hex(lo);
  }

  lemma MappedValue(hi: nat, lo: nat)
    requires hi < 0x1_0000 && lo < 0x1_0000
    ensures var d := [0xffff, hi, lo];
            && Groups("::" + Text(d)).Some?
            && Fold(Groups("::" + Text(d)).value, 16, 4, 0x1_0000) == Some((0xffff * 0x1_0000 + hi) * 0x1_0000 + lo)
  {
    var d := [0xffff, hi, lo];
    NothingBefore(d);
    GroupsAround([], d);
    LeadingZeros(5, d);
    WeighThree(0xffff, hi, lo);
  }

  lemma NothingBefore(d: seq<nat>)
    ensures Text([]) + "::" + Text(d) == "::" + Text(d) && [] + ZeroDigits(5) + d == ZeroDigits(5) + d
  {
    assert Text([]) == "";
  }

  lemma WeighThree(a: nat, b: nat, c: nat)
    ensures Weigh([a, b, c], 0x1_0000) == (a * 0x1_0000 + b) * 0x1_0000 + c
  {
    assert [a, b, c][..2] == [a, b] && [a, b][..1] == [a] && [a][..0] == [];
    assert Weigh([a], 0x1_0000) == a;
    assert Weigh([a, b], 0x1_0000) == a * 0x1_0000 + b;
  }

  // ---- blocks -----------------------------------------------------------

  datatype Cidr = Cidr(base: nat, prefix: nat)

  function Quad(a: nat, b: nat, c: nat, d: nat): nat { ((a * 256 + b) * 256 + c) * 256 + d }

  const BLOCKED_IPV4: seq<Cidr> := [
    Cidr(Quad(0, 0, 0, 0), 8), Cidr(Quad(10, 0, 0, 0), 8), Cidr(Quad(100, 64, 0, 0), 10), Cidr(Quad(127, 0, 0, 0), 8),
    Cidr(Quad(169, 254, 0, 0), 16), Cidr(Quad(172, 16, 0, 0), 12), Cidr(Quad(192, 0, 0, 0), 24), Cidr(Quad(192, 0, 2, 0), 24),
    Cidr(Quad(192, 88, 99, 0), 24), Cidr(Quad(192, 168, 0, 0), 16), Cidr(Quad(198, 18, 0, 0), 15), Cidr(Quad(198, 51, 100, 0), 24),
    Cidr(Quad(203, 0, 113, 0), 24), Cidr(Quad(224, 0, 0, 0), 4), Cidr(Quad(240, 0, 0, 0), 4)]

  const HIGH_GROUP: nat := 0x1_0000_0000_0000_0000_0000_0000_0000

  const GLOBAL_UNICAST: Cidr := Cidr(0x2000 * HIGH_GROUP, 3)

  const BLOCKED_IPV6: seq<Cidr> := [
    Cidr(0x2001 * HIGH_GROUP, 23), Cidr(0x2001_0db8 * (HIGH_GROUP / 0x1_0000), 32), Cidr(0x2002 * HIGH_GROUP, 16),
    Cidr(0x3fff * HIGH_GROUP, 20)]

  /** value & mask == base & mask, for the mask of the leading bits. */
  predicate InCidr4(v: nat, c: Cidr)
    requires c.prefix <= 32
  {
    And(v, Mask(c.prefix)) == And(c.base, Mask(c.prefix))
  }

  /** value >> shift == base >> shift. */
  predicate InCidr6(v: nat, c: Cidr)
    requires c.prefix <= 128
  {
    PowerIsPositive(2, 128 - c.prefix);
    c.prefix == 0 || v / Power(2, 128 - c.prefix) == c.base / Power(2, 128 - c.prefix)
  }

  /** The addresses of a block are one range that starts at its base, rounded down, and has its size. */
  predicate InRange(v: nat, c: Cidr, width: nat)
    requires c.prefix <= width
  {
    var size := Power(2, width - c.prefix);
    PowerIsPositive(2, width - c.prefix);
    c.base / size * size <= v < c.base / size * size + size
  }

  lemma SameQuotient(v: nat, base: nat, size: nat)
    requires size >= 1
    ensures v / size == base / size <==> base / size * size <= v < base / size * size + size
  {
    var q, b := v / size, base / size;
    assert v == q * size + v % size;
    Distribute(q, b, size);
    AtLeastOnce(q - b, size);
    Distribute(b, q, size);
    AtLeastOnce(b - q, size);
  }

  lemma SameRounding(v: nat, base: nat, size: nat)
    requires size >= 1
    ensures v - v % size == base - base % size <==> v / size == base / size
  {
    assert v - v % size == v / size * size && base - base % size == base / size * size;
  }

  /** For 32-bit values, also with prefix 0, whose mask is 0. */
  lemma MaskIsRange(v: nat, c: Cidr)
    requires c.prefix <= 32 && v < 0x1_0000_0000 && c.base < 0x1_0000_0000
    ensures InCidr4(v, c) <==> InRange(v, c, 32)
  {
    MaskRoundsDown(v, c.prefix);
    MaskRoundsDown(c.base, c.prefix);
    SameRounding(v, c.base, Power(2, 32 - c.prefix));
    SameQuotient(v, c.base, Power(2, 32 - c.prefix));
  }

  lemma ShiftIsRange(v: nat, c: Cidr)
    requires c.prefix <= 128 && v < Power(2, 128) && c.base < Power(2, 128)
    ensures InCidr6(v, c) <==> InRange(v, c, 128)
  {
    PowerIsPositive(2, 128 - c.prefix);
    SameQuotient(v, c.base, Power(2, 128 - c.prefix));
    if c.prefix == 0 { SameQuotient(c.base, 0, Power(2, 128)); }
  }

  lemma Powers128()
    ensures Power(0x1_0000, 6) == HIGH_GROUP / 0x1_0000 && Power(0x1_0000, 7) == HIGH_GROUP
    ensures Power(0x1_0000, 8) == Power(2, 128) == 0x1_0000 * HIGH_GROUP
  {
    PowersOfTwo();
    PowersMultiply(2, 32, 32);
    PowersMultiply(2, 64, 64);
    assert Power(0x1_0000, 2) == 0x1_0000_0000;
    PowersMultiply(0x1_0000, 2, 2);
    PowersMultiply(0x1_0000, 4, 2);
  }

  // ---- the texts of the IPv6 blocks ---------------------------------------

  lemma {:induction false} TrailingZeros(digits: seq<nat>, n: nat)
    ensures Weigh(digits + ZeroDigits(n), 0x1_0000) == Weigh(digits, 0x1_0000) * Power(0x1_0000, n)
  {
    if n == 0 {
      assert digits + ZeroDigits(0) == digits;
    } else {
      TrailingZeros(digits, n - 1);
      assert (digits + ZeroDigits(n))[..|digits| + n - 1] == digits + ZeroDigits(n - 1);
      assert Weigh(digits, 0x1_0000) * Power(0x1_0000, n) == (Weigh(digits, 0x1_0000) * Power(0x1_0000, n - 1)) * 0x1_0000;
    }
  }

  lemma NothingAdded(x: seq<nat>, b: seq<nat>)
    requires b == []
    ensures x + b == x
  {}

  lemma WeighLeading(a: seq<nat>, b: seq<nat>, n: nat)
    requires b == []
    ensures Weigh(a + ZeroDigits(n) + b, 0x1_0000) == Weigh(a, 0x1_0000) * Power(0x1_0000, n)
  {
    NothingAdded(a + ZeroDigits(n), b);
    TrailingZeros(a, n);
  }

  lemma WrittenGroups(a: seq<nat>, b: seq<nat>, t: string, w: nat)
    requires GroupValues(a) && GroupValues(b) && |a| + |b| <= 8
    requires t == Text(a) + "::" + Text(b) && w == Weigh(a + ZeroDigits(8 - |a| - |b|) + b, 0x1_0000)
    ensures ParseIpv6(t) == Some(w)
  {
    WrittenGroupsParse(a, b);
  }

  lemma OneGroup(g: nat)
    ensures Text([g]) == Hex(g) && Weigh([g], 0x1_0000) == g
  {
    assert [g][..0] == [];
  }

  lemma TwoGroups(g: nat, h: nat)
    ensures Text([g, h]) == Hex(g) + ":" + Hex(h) && Weigh([g, h], 0x1_0000) == g * 0x1_0000 + h
  {
    OneGroup(g);
    assert [g, h][..1] == [g];
    var parts := Numerals([g, h], 16);
    assert parts == [Hex(g), Hex(h)] && parts[1..] == [Hex(h)];
    assert Join(parts[1..], ':') == Hex(h);
  }

  lemma OneGroupParses(g: nat)
    requires g < 0x1_0000
    ensures ParseIpv6(Hex(g) + "::") == Some(g * HIGH_GROUP)
  {
    OneGroup(g);
    Powers128();
    assert Text([]) == "";
    WeighLeading([g], [], 7);
    WrittenGroups([g], [], Hex(g) + "::", g * HIGH_GROUP);
  }

  lemma TwoGroupsParse(g: nat, h: nat)
    requires g < 0x1_0000 && h < 0x1_0000
    ensures ParseIpv6(Hex(g) + ":" + Hex(h) + "::") == Some((g * 0x1_0000 + h) * (HIGH_GROUP / 0x1_0000))
  {
    TwoGroups(g, h);
    Powers128();
    assert Text([]) == "";
    WeighLeading([g, h], [], 6);
    WrittenGroups([g, h], [], Hex(g) + ":" + Hex(h) + "::", (g * 0x1_0000 + h) * (HIGH_GROUP / 0x1_0000));
  }

  lemma NextDigit(q: nat, r: nat)
    requires q >= 1 && r < 16
    ensures Hex(q * 16 + r) == Hex(q) + [Digit(r)]
  {
    DivisionIsUnique(q * 16 + r, 16, q, r);
  }

  lemma HexTexts()
    ensures Hex(0x2000) == "2000" && Hex(0x2001) == "2001" && Hex(0x2002) == "2002"
    ensures Hex(0x3fff) == "3fff" && Hex(0xdb8) == "db8"
  {
    NextDigit(0x2, 0);
    NextDigit(0x20, 0);
    NextDigit(0x200, 0);
    NextDigit(0x200, 1);
    NextDigit(0x200, 2);
    NextDigit(0x3, 15);
    NextDigit(0x3f, 15);
    NextDigit(0x3ff, 15);
    NextDigit(0xd, 11);
    NextDigit(0xdb, 8);
  }

  lemma BlockTexts()
    ensures Hex(0x2000) + "::" == "2000::" && Hex(0x2001) + "::" == "2001::" && Hex(0x2002) + "::" == "2002::"
    ensures Hex(0x3fff) + "::" == "3fff::" && Hex(0x2001) + ":" + Hex(0xdb8) + "::" == "2001:db8::"
  {
    HexTexts();
  }

  /** The bases of the IPv6 blocks are the values of the texts the program parses for them. */
  lemma BlockTextsParse()
    ensures ParseIpv6("2000::") == Some(GLOBAL_UNICAST.base)
    ensures ParseIpv6("2001::") == Some(BLOCKED_IPV6[0].base) && ParseIpv6("2001:db8::") == Some(BLOCKED_IPV6[1].base)
    ensures ParseIpv6("2002::") == Some(BLOCKED_IPV6[2].base) && ParseIpv6("3fff::") == Some(BLOCKED_IPV6[3].base)
  {
    BlockTexts();
    OneGroupParses(0x2000);
    OneGroupParses(0x2001);
    OneGroupParses(0x2002);
    OneGroupParses(0x3fff);
    TwoGroupsParse(0x2001, 0xdb8);
  }

  // ---- public addresses -------------------------------------------------

  predicate BlockedIpv4(v: nat) {
    exists k :: 0 <= k < |BLOCKED_IPV4| && BLOCKED_IPV4[k].prefix <= 32 && InCidr4(v, BLOCKED_IPV4[k])
  }

  function MappedIpv4(v: nat): Option<string> {
    if v / 0x1_0000_0000 == 0xffff then Some(FormatIpv4(LowWord(v))) else None
  }

  /** isPublicAddress, given the family that isIP reports; a parse error counts as not public. */
  predicate IsPublic(address: string, family: nat) {
    if family == 4 then ParseIpv4(address).Some? && !BlockedIpv4(ParseIpv4(address).value)
    else if family == 6 then
      match ParseIpv6(address)
      case None => false
      case Some(v) =>
        match MappedIpv4(v)
        case Some(quad) => ParseIpv4(quad).Some? && !BlockedIpv4(ParseIpv4(quad).value)
        case None =>
          InCidr6(v, GLOBAL_UNICAST)
          && !(exists k :: 0 <= k < |BLOCKED_IPV6| && BLOCKED_IPV6[k].prefix <= 128 && InCidr6(v, BLOCKED_IPV6[k]))
    else false
  }

  /** A canonical dotted quad and its IPv4-mapped form are both public or both not. */
  lemma MappedAgrees(v: nat)
    requires v < 0x1_0000_0000
    ensures IsPublic("::ffff:" + FormatIpv4(v), 6) <==> IsPublic(FormatIpv4(v), 4)
  {
    MappedParses(v);
    assert (0xffff * 0x1_0000_0000 + v) / 0x1_0000_0000 == 0xffff && (0xffff * 0x1_0000_0000 + v) % 0x1_0000_0000 == v;
  }

  /** A dotted quad is public iff its 32-bit value lies in none of the blocked ranges. */
  lemma PublicOutsideRanges(v: nat)
    requires v < 0x1_0000_0000
    ensures IsPublic(FormatIpv4(v), 4) <==> forall k :: 0 <= k < |BLOCKED_IPV4| ==> !InRange(v, BLOCKED_IPV4[k], 32)
  {
    Ipv4RoundTrip(v);
    forall k | 0 <= k < |BLOCKED_IPV4| ensures InCidr4(v, BLOCKED_IPV4[k]) <==> InRange(v, BLOCKED_IPV4[k], 32) {
      MaskIsRange(v, BLOCKED_IPV4[k]);
    }
  }

  lemma BasesFit()
    ensures GLOBAL_UNICAST.base < Power(2, 128) && forall k :: 0 <= k < |BLOCKED_IPV6| ==> BLOCKED_IPV6[k].base < Power(2, 128)
    ensures GLOBAL_UNICAST.prefix <= 128 && forall k :: 0 <= k < |BLOCKED_IPV6| ==> BLOCKED_IPV6[k].prefix <= 128
  {
    Powers128();
  }

  /** A value in no IPv4-mapped form is public by its IPv6 ranges alone. */
  lemma ShiftsAreRanges(v: nat)
    requires v < Power(2, 128)
    ensures GLOBAL_UNICAST.prefix <= 128 && (InCidr6(v, GLOBAL_UNICAST) <==> InRange(v, GLOBAL_UNICAST, 128))
    ensures forall k :: 0 <= k < |BLOCKED_IPV6| ==>
              BLOCKED_IPV6[k].prefix <= 128 && (InCidr6(v, BLOCKED_IPV6[k]) <==> InRange(v, BLOCKED_IPV6[k], 128))
  {
    BasesFit();
    ShiftIsRange(v, GLOBAL_UNICAST);
    forall k | 0 <= k < |BLOCKED_IPV6| ensures InCidr6(v, BLOCKED_IPV6[k]) <==> InRange(v, BLOCKED_IPV6[k], 128) {
      ShiftIsRange(v, BLOCKED_IPV6[k]);
    }
  }

  /**
   * Any 128-bit value, written as eight groups: as an IPv4-mapped address it is public iff its low 32 bits lie in
   * none of the IPv4 ranges, and otherwise iff it lies in the global unicast range and in none of the blocked ones.
   */
  lemma GroupsPublicOutsideRanges(v: nat)
    requires v < Power(0x1_0000, 8)
    ensures IsPublic(Text(GroupsOf(v, 8)), 6) <==>
            if v / 0x1_0000_0000 == 0xffff then
              forall k :: 0 <= k < |BLOCKED_IPV4| ==> !InRange(v % 0x1_0000_0000, BLOCKED_IPV4[k], 32)
            else
              InRange(v, GLOBAL_UNICAST, 128) && forall k :: 0 <= k < |BLOCKED_IPV6| ==> !InRange(v, BLOCKED_IPV6[k], 128)
  {
    Ipv6RoundTrip(v);
    if v / 0x1_0000_0000 == 0xffff {
      PublicOutsideRanges(v % 0x1_0000_0000);
    } else {
      Powers128();
      ShiftsAreRanges(v);
    }
  }

  // ---- the ranges, written out ---------------------------------------------

  lemma BlockIsRange(v: nat, base: nat, prefix: nat, size: nat)
    requires prefix <= 32 && Power(2, 32 - prefix) == size >= 1 && base % size == 0
    ensures InRange(v, Cidr(base, prefix), 32) <==> base <= v < base + size
  {
    assert base == base / size * size;
  }

  lemma SmallPowers()
    ensures Power(2, 8) == 0x100 && Power(2, 16) == 0x1_0000 && Power(2, 17) == 0x2_0000 && Power(2, 20) == 0x10_0000
    ensures Power(2, 22) == 0x40_0000 && Power(2, 24) == 0x100_0000 && Power(2, 28) == 0x1000_0000
  {
    PowersOfTwo();
    assert Power(2, 20) == 2 * (2 * (2 * (2 * Power(2, 16))));
    assert Power(2, 22) == 2 * (2 * Power(2, 20));
    assert Power(2, 24) == 2 * (2 * Power(2, 22));
    assert Power(2, 28) == 2 * (2 * (2 * (2 * Power(2, 24))));
  }

  /** An address that is never checked: private, local, reserved or multicast, octet by octet. */
  predicate SpecialQuad(a: nat, b: nat, c: nat) {
    || a == 0 || a == 10 || a == 127 || a >= 224
    || (a == 100 && 64 <= b <= 127)
    || (a == 169 && b == 254)
    || (a == 172 && 16 <= b <= 31)
    || (a == 192 && ((b == 0 && (c == 0 || c == 2)) || (b == 88 && c == 99) || b == 168))
    || (a == 198 && (18 <= b <= 19 || (b == 51 && c == 100)))
    || (a == 203 && b == 0 && c == 113)
  }

  lemma LowBlocks(v: nat)
    ensures InRange(v, BLOCKED_IPV4[0], 32) <==> v < 0x0100_0000
    ensures InRange(v, BLOCKED_IPV4[1], 32) <==> 0x0a00_0000 <= v < 0x0b00_0000
    ensures InRange(v, BLOCKED_IPV4[2], 32) <==> 0x6440_0000 <= v < 0x6480_0000
    ensures InRange(v, BLOCKED_IPV4[3], 32) <==> 0x7f00_0000 <= v < 0x8000_0000
    ensures InRange(v, BLOCKED_IPV4[4], 32) <==> 0xa9fe_0000 <= v < 0xa9ff_0000
    ensures InRange(v, BLOCKED_IPV4[5], 32) <==> 0xac10_0000 <= v < 0xac20_0000
    ensures InRange(v, BLOCKED_IPV4[6], 32) <==> 0xc000_0000 <= v < 0xc000_0100
    ensures InRange(v, BLOCKED_IPV4[7], 32) <==> 0xc000_0200 <= v < 0xc000_0300
  {
    SmallPowers();
    BlockIsRange(v, 0, 8, 0x100_0000);
    BlockIsRange(v, 0x0a00_0000, 8, 0x100_0000);
    BlockIsRange(v, 0x6440_0000, 10, 0x40_0000);
    BlockIsRange(v, 0x7f00_0000, 8, 0x100_0000);
    BlockIsRange(v, 0xa9fe_0000, 16, 0x1_0000);
    BlockIsRange(v, 0xac10_0000, 12, 0x10_0000);
    BlockIsRange(v, 0xc000_0000, 24, 0x100);
    BlockIsRange(v, 0xc000_0200, 24, 0x100);
  }

  lemma HighBlocks(v: nat)
    ensures InRange(v, BLOCKED_IPV4[8], 32) <==> 0xc058_6300 <= v < 0xc058_6400
    ensures InRange(v, BLOCKED_IPV4[9], 32) <==> 0xc0a8_0000 <= v < 0xc0a9_0000
    ensures InRange(v, BLOCKED_IPV4[10], 32) <==> 0xc612_0000 <= v < 0xc614_0000
    ensures InRange(v, BLOCKED_IPV4[11], 32) <==> 0xc633_6400 <= v < 0xc633_6500
    ensures InRange(v, BLOCKED_IPV4[12], 32) <==> 0xcb00_7100 <= v < 0xcb00_7200
    ensures InRange(v, BLOCKED_IPV4[13], 32) <==> 0xe000_0000 <= v < 0xf000_0000
    ensures InRange(v, BLOCKED_IPV4[14], 32) <==> 0xf000_0000 <= v < 0x1_0000_0000
  {
    SmallPowers();
    BlockIsRange(v, 0xc058_6300, 24, 0x100);
    BlockIsRange(v, 0xc0a8_0000, 16, 0x1_0000);
    BlockIsRange(v, 0xc612_0000, 15, 0x2_0000);
    BlockIsRange(v, 0xc633_6400, 24, 0x100);
    BlockIsRange(v, 0xcb00_7100, 24, 0x100);
    BlockIsRange(v, 0xe000_0000, 4, 0x1000_0000);
    BlockIsRange(v, 0xf000_0000, 4, 0x1000_0000);
  }

  lemma SpecialIsBlocked(a: nat, b: nat, c: nat, d: nat)
    requires a < 256 && b < 256 && c < 256 && d < 256 && SpecialQuad(a, b, c)
    ensures exists k :: 0 <= k < |BLOCKED_IPV4| && InRange(Quad(a, b, c, d), BLOCKED_IPV4[k], 32)
  {
    var v := Quad(a, b, c, d);
    LowBlocks(v);
    HighBlocks(v);
    QuadIn(a, b, c, d);
    var k := if a == 0 then 0 else if a == 10 then 1 else if a == 100 then 2 else if a == 127 then 3 else if a == 169 then 4
             else if a == 172 then 5 else if a == 192 then (if b == 0 then (if c == 0 then 6 else 7) else if b == 88 then 8 else 9)
             else if a == 198 then (if b <= 19 then 10 else 11) else if a == 203 then 12 else if a < 240 then 13 else 14;
    assert InRange(v, BLOCKED_IPV4[k], 32);
  }

  lemma OtherQuadsAreNotLow(a: nat, b: nat, c: nat, d: nat)
    requires a < 256 && b < 256 && c < 256 && d < 256 && !SpecialQuad(a, b, c)
    ensures !InRange(Quad(a, b, c, d), BLOCKED_IPV4[0], 32)
    ensures !InRange(Quad(a, b, c, d), BLOCKED_IPV4[1], 32)
    ensures !InRange(Quad(a, b, c, d), BLOCKED_IPV4[2], 32)
    ensures !InRange(Quad(a, b, c, d), BLOCKED_IPV4[3], 32)
    ensures !InRange(Quad(a, b, c, d), BLOCKED_IPV4[4], 32)
    ensures !InRange(Quad(a, b, c, d), BLOCKED_IPV4[5], 32)
    ensures !InRange(Quad(a, b, c, d), BLOCKED_IPV4[6], 32)
    ensures !InRange(Quad(a, b, c, d), BLOCKED_IPV4[7], 32)
  {
    QuadIn(a, b, c, d);
    LowBlocks(Quad(a, b, c, d));
  }

  lemma OtherQuadsAreNotHigh(a: nat, b: nat, c: nat, d: nat)
    requires a < 256 && b < 256 && c < 256 && d < 256 && !SpecialQuad(a, b, c)
    ensures !InRange(Quad(a, b, c, d), BLOCKED_IPV4[8], 32)
    ensures !InRange(Quad(a, b, c, d), BLOCKED_IPV4[9], 32)
    ensures !InRange(Quad(a, b, c, d), BLOCKED_IPV4[10], 32)
    ensures !InRange(Quad(a, b, c, d), BLOCKED_IPV4[11], 32)
    ensures !InRange(Quad(a, b, c, d), BLOCKED_IPV4[12], 32)
    ensures !InRange(Quad(a, b, c, d), BLOCKED_IPV4[13], 32)
    ensures !InRange(Quad(a, b, c, d), BLOCKED_IPV4[14], 32)
  {
    QuadIn(a, b, c, d);
    HighBlocks(Quad(a, b, c, d));
  }

  lemma OtherQuadsAreFree(a: nat, b: nat, c: nat, d: nat)
    requires a < 256 && b < 256 && c < 256 && d < 256 && !SpecialQuad(a, b, c)
    ensures forall k :: 0 <= k < |BLOCKED_IPV4| ==> !InRange(Quad(a, b, c, d), BLOCKED_IPV4[k], 32)
  {
    OtherQuadsAreNotLow(a, b, c, d);
    OtherQuadsAreNotHigh(a, b, c, d);
    assert |BLOCKED_IPV4| == 15;
  }

  /** The order of quads is that of their octets. */
  lemma QuadIn(a: nat, b: nat, c: nat, d: nat)
    requires a < 256 && b < 256 && c < 256 && d < 256
    ensures var v := Quad(a, b, c, d);
            v == a * 0x100_0000 + b * 0x1_0000 + c * 0x100 + d
  {}

  /** A dotted quad is public iff its octets lie in none of the special blocks. */
  lemma PublicQuads(a: nat, b: nat, c: nat, d: nat)
    requires a < 256 && b < 256 && c < 256 && d < 256
    ensures IsPublic(FormatIpv4(Quad(a, b, c, d)), 4) <==> !SpecialQuad(a, b, c)
  {
    PublicOutsideRanges(Quad(a, b, c, d));
    if SpecialQuad(a, b, c) {
      SpecialIsBlocked(a, b, c, d);
    } else {
      OtherQuadsAreFree(a, b, c, d);
    }
  }

  // ---- the IPv6 ranges -----------------------------------------------------

  /** The first 32 bits of a public IPv6 address: 2000::/3 without 2001::/23, 2001:db8::/32, 2002::/16 and 3fff::/20. */
  predicate PublicPrefix(g: nat, h: nat) {
    && 0x2000 <= g <= 0x3fff && g != 0x2002
    && !(g == 0x2001 && (h < 0x200 || h == 0xdb8))
    && !(g == 0x3fff && h < 0x1000)
  }

  const LOW_BITS: nat := HIGH_GROUP / 0x1_0000

  lemma LargePowers()
    ensures Power(2, 96) == LOW_BITS && Power(2, 105) == 0x200 * LOW_BITS && Power(2, 108) == 0x1000 * LOW_BITS
    ensures Power(2, 112) == 0x1_0000 * LOW_BITS == HIGH_GROUP && Power(2, 125) == 0x2000_0000 * LOW_BITS
  {
    PowersOfTwo();
    PowersMultiply(2, 32, 32);
    PowersMultiply(2, 64, 32);
    PowersMultiply(2, 9, 96);
    PowersMultiply(2, 12, 96);
    PowersMultiply(2, 16, 96);
    PowersMultiply(2, 29, 96);
    assert Power(2, 9) == 2 * Power(2, 8);
    assert Power(2, 12) == 2 * (2 * (2 * Power(2, 9)));
    assert Power(2, 20) == 2 * (2 * (2 * (2 * Power(2, 16))));
    assert Power(2, 24) == 2 * (2 * (2 * (2 * Power(2, 20))));
    assert Power(2, 28) == 2 * (2 * (2 * (2 * Power(2, 24))));
    assert Power(2, 29) == 2 * Power(2, 28);
  }

  lemma LongBlockIsRange(v: nat, base: nat, prefix: nat, size: nat)
    requires prefix <= 128 && Power(2, 128 - prefix) == size >= 1 && base % size == 0
    ensures InRange(v, Cidr(base, prefix), 128) <==> base <= v < base + size
  {
    assert base == base / size * size;
  }

  lemma LongBlocks(v: nat)
    ensures InRange(v, GLOBAL_UNICAST, 128) <==> 0x2000_0000 * LOW_BITS <= v < 0x4000_0000 * LOW_BITS
    ensures InRange(v, BLOCKED_IPV6[0], 128) <==> 0x2001_0000 * LOW_BITS <= v < 0x2001_0200 * LOW_BITS
    ensures InRange(v, BLOCKED_IPV6[1], 128) <==> 0x2001_0db8 * LOW_BITS <= v < 0x2001_0db9 * LOW_BITS
    ensures InRange(v, BLOCKED_IPV6[2], 128) <==> 0x2002_0000 * LOW_BITS <= v < 0x2003_0000 * LOW_BITS
    ensures InRange(v, BLOCKED_IPV6[3], 128) <==> 0x3fff_0000 * LOW_BITS <= v < 0x3fff_1000 * LOW_BITS
  {
    LargePowers();
    LongBlockIsRange(v, 0x2000 * HIGH_GROUP, 3, 0x2000_0000 * LOW_BITS);
    LongBlockIsRange(v, 0x2001 * HIGH_GROUP, 23, 0x200 * LOW_BITS);
    LongBlockIsRange(v, 0x2001_0db8 * LOW_BITS, 32, LOW_BITS);
    LongBlockIsRange(v, 0x2002 * HIGH_GROUP, 16, HIGH_GROUP);
    LongBlockIsRange(v, 0x3fff * HIGH_GROUP, 20, 0x1000 * LOW_BITS);
  }

  /** The leading 32 bits of a value decide in which of the ranges it lies. */
  lemma LeadingBits(v: nat, g: nat, h: nat, low: nat)
    requires v == (g * 0x1_0000 + h) * LOW_BITS + low && low < LOW_BITS && g < 0x1_0000 && h < 0x1_0000
    ensures forall n: nat :: n * LOW_BITS <= v <==> n <= g * 0x1_0000 + h
  {
    var x := g * 0x1_0000 + h;
    forall n: nat ensures n * LOW_BITS <= v <==> n <= x {
      Distribute(n, x, LOW_BITS);
      AtLeastOnce(n - x, LOW_BITS);
    }
  }

  lemma PrefixDecides(v: nat, g: nat, h: nat, low: nat)
    requires v == (g * 0x1_0000 + h) * LOW_BITS + low && low < LOW_BITS && g < 0x1_0000 && h < 0x1_0000
    ensures PublicPrefix(g, h) <==>
              InRange(v, GLOBAL_UNICAST, 128) && forall k :: 0 <= k < |BLOCKED_IPV6| ==> !InRange(v, BLOCKED_IPV6[k], 128)
  {
    LongBlocks(v);
    LeadingBits(v, g, h, low);
    assert |BLOCKED_IPV6| == 4;
    if InRange(v, GLOBAL_UNICAST, 128) && forall k :: 0 <= k < |BLOCKED_IPV6| ==> !InRange(v, BLOCKED_IPV6[k], 128) {
      assert !InRange(v, BLOCKED_IPV6[0], 128) && !InRange(v, BLOCKED_IPV6[1], 128);
      assert !InRange(v, BLOCKED_IPV6[2], 128) && !InRange(v, BLOCKED_IPV6[3], 128);
    }
  }

  /** An IPv6 address that is no IPv4-mapped one is public iff its first two groups are those of a public prefix. */
  lemma PublicGroups(v: nat, g: nat, h: nat, low: nat)
    requires v == (g * 0x1_0000 + h) * LOW_BITS + low && low < LOW_BITS && g < 0x1_0000 && h < 0x1_0000
    requires v < Power(0x1_0000, 8) && v / 0x1_0000_0000 != 0xffff
    ensures IsPublic(Text(GroupsOf(v, 8)), 6) <==> PublicPrefix(g, h)
  {
    GroupsPublicOutsideRanges(v);
    PrefixDecides(v, g, h, low);
  }
}
