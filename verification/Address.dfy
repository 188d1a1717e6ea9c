/** Text, numerals, positional values and IPv4 addresses. A shift to the right is written as a quotient. */
module Address {
  import opened Arithmetic
  import opened Bits
  import opened Domain

  // ---- text -------------------------------------------------------------

  function Split(s: string, c: char): (parts: seq<string>)
    ensures |parts| >= 1
  {
    if s == "" then [""]
    else
      var rest := Split(s[1..], c);
      if s[0] == c then [""] + rest else [[s[0]] + rest[0]] + rest[1..]
  }

  function Join(parts: seq<string>, c: char): string {
    if parts == [] then "" else if |parts| == 1 then parts[0] else parts[0] + [c] + Join(parts[1..], c)
  }

  /** split("::") */
  function SplitDouble(s: string): (parts: seq<string>)
    ensures |parts| >= 1
  {
    if |s| < 2 then [s]
    else if s[0] == ':' && s[1] == ':' then [""] + SplitDouble(s[2..])
    else
      var rest := SplitDouble(s[1..]);
      [[s[0]] + rest[0]] + rest[1..]
  }

  lemma {:induction false} SplitWord(s: string, c: char)
    requires c !in s
    ensures Split(s, c) == [s]
  {
    if s != "" {
      SplitWord(s[1..], c);
      assert [s[0]] + s[1..] == s;
    }
  }

  lemma {:induction false} SplitFirst(a: string, b: string, c: char)
    requires c !in a
    ensures Split(a + [c] + b, c) == [a] + Split(b, c)
  {
    var s := a + [c] + b;
    if a == "" {
      assert s[1..] == b;
    } else {
      assert s[1..] == a[1..] + [c] + b;
      SplitFirst(a[1..], b, c);
      assert [a[0]] + a[1..] == a;
    }
  }

  lemma {:induction false} SplitJoin(parts: seq<string>, c: char)
    requires parts != [] && forall k :: 0 <= k < |parts| ==> c !in parts[k]
    ensures Split(Join(parts, c), c) == parts
  {
    if |parts| == 1 {
      SplitWord(parts[0], c);
    } else {
      SplitFirst(parts[0], Join(parts[1..], c), c);
      SplitJoin(parts[1..], c);
    }
  }

  lemma {:induction false} JoinSplit(s: string, c: char)
    ensures Join(Split(s, c), c) == s && forall k :: 0 <= k < |Split(s, c)| ==> c !in Split(s, c)[k]
  {
    if s != "" {
      JoinSplit(s[1..], c);
      var rest := Split(s[1..], c);
      assert s == [s[0]] + s[1..];
      if s[0] == c {
        assert ([""] + rest)[1..] == rest;
      } else {
        assert ([[s[0]] + rest[0]] + rest[1..])[1..] == rest[1..];
      }
    }
  }

  // ---- numerals ---------------------------------------------------------

  function DigitValue(c: char): int {
    if '0' <= c <= '9' then c as int - '0' as int
    else if 'a' <= c <= 'f' then c as int - 'a' as int + 10
    else -1
  }

  function Digit(n: nat): (c: char)
    requires n < 16
    ensures DigitValue(c) == n
  {
    if n < 10 then ('0' as int + n) as char else ('a' as int + n - 10) as char
  }

  predicate IsNumeral(s: string, base: nat, maxLength: nat) {
    1 <= |s| <= maxLength && forall i :: 0 <= i < |s| ==> 0 <= DigitValue(s[i]) < base
  }

  function Number(s: string, base: nat): (n: nat)
    requires forall i :: 0 <= i < |s| ==> 0 <= DigitValue(s[i]) < base
  {
    if s == "" then 0 else Number(s[..|s| - 1], base) * base + DigitValue(s[|s| - 1])
  }

  function Numeral(n: nat, base: nat): string
    requires 2 <= base <= 16
  {
    if n < base then [Digit(n)] else Numeral(n / base, base) + [Digit(n % base)]
  }

  lemma AppendDigit(s: string, c: char, base: nat, length: nat)
    requires IsNumeral(s, base, length) && 0 <= DigitValue(c) < base
    ensures IsNumeral(s + [c], base, length + 1) && Number(s + [c], base) == Number(s, base) * base + DigitValue(c)
  {
    assert (s + [c])[..|s|] == s;
  }

  lemma OneDigit(c: char, base: nat, length: nat)
    requires 0 <= DigitValue(c) < base && length >= 1
    ensures IsNumeral([c], base, length) && Number([c], base) == DigitValue(c)
  {
    assert [c][..0] == "";
  }

  lemma NumeralIs(n: nat, base: nat) returns (q: nat, r: nat)
    requires 2 <= base <= 16 && n >= base
    ensures q < n && r < base && n == q * base + r && Numeral(n, base) == Numeral(q, base) + [Digit(r)]
  {
    q, r := n / base, n % base;
  }

  /** Writing a number and reading it back; its length is bounded by its size. */
  lemma {:induction false} NumeralRoundTrip(n: nat, base: nat, length: nat)
    requires 2 <= base <= 16 && length >= 1 && n < Power(base, length)
    ensures IsNumeral(Numeral(n, base), base, length) && Number(Numeral(n, base), base) == n
    decreases n
  {
    if n < base {
      OneDigit(Digit(n), base, length);
    } else {
      LongNumber(n, base, length);
      var q, r := NumeralIs(n, base);
      LessByFactor(q, Power(base, length - 1), base);
      NumeralRoundTrip(q, base, length - 1);
      AppendDigit(Numeral(q, base), Digit(r), base, length - 1);
    }
  }

  lemma LongNumber(n: nat, base: nat, length: nat)
    requires length >= 1 && base <= n < Power(base, length)
    ensures length >= 2 && Power(base, length) == base * Power(base, length - 1)
  {
    assert Power(base, 0) == 1;
  }

  lemma LessByFactor(q: nat, bound: nat, base: nat)
    requires q * base < bound * base
    ensures q < bound
  {}

  // ---- positional values ------------------------------------------------

  /** Numerals of at most maxLength digits, each below limit, read as the digits of a number to base limit. */
  function Fold(parts: seq<string>, base: nat, maxLength: nat, limit: nat): Option<nat> {
    if parts == [] then Some(0)
    else
      var before, part := Fold(parts[..|parts| - 1], base, maxLength, limit), parts[|parts| - 1];
      if before.None? || !IsNumeral(part, base, maxLength) || Number(part, base) >= limit then None
      else Some(before.value * limit + Number(part, base))
  }

  function Weigh(digits: seq<nat>, limit: nat): nat {
    if digits == [] then 0 else Weigh(digits[..|digits| - 1], limit) * limit + digits[|digits| - 1]
  }

  predicate Spells(parts: seq<string>, digits: seq<nat>, base: nat, maxLength: nat, limit: nat) {
    |parts| == |digits|
    && forall k :: 0 <= k < |parts| ==> IsNumeral(parts[k], base, maxLength) && Number(parts[k], base) == digits[k] < limit
  }

  lemma {:induction false} FoldIsWeigh(parts: seq<string>, digits: seq<nat>, base: nat, maxLength: nat, limit: nat)
    requires Spells(parts, digits, base, maxLength, limit)
    ensures Fold(parts, base, maxLength, limit) == Some(Weigh(digits, limit))
  {
    if parts != [] { FoldIsWeigh(parts[..|parts| - 1], digits[..|digits| - 1], base, maxLength, limit); }
  }

  lemma {:induction false} FoldBound(parts: seq<string>, base: nat, maxLength: nat, limit: nat)
    ensures var r := Fold(parts, base, maxLength, limit); r.Some? ==> r.value < Power(limit, |parts|)
  {
    if parts != [] {
      var prefix := parts[..|parts| - 1];
      FoldBound(prefix, base, maxLength, limit);
      var before := Fold(prefix, base, maxLength, limit);
      if before.Some? && IsNumeral(parts[|parts| - 1], base, maxLength) && Number(parts[|parts| - 1], base) < limit {
        OneMoreDigit(before.value, Power(limit, |prefix|), limit, Number(parts[|parts| - 1], base));
      }
    }
  }

  lemma OneMoreDigit(value: nat, bound: nat, limit: nat, digit: nat)
    requires value < bound && digit < limit
    ensures value * limit + digit < limit * bound
  {
    assert (value + 1) * limit <= bound * limit;
  }

  lemma {:induction false} FoldStops(parts: seq<string>, i: nat, base: nat, maxLength: nat, limit: nat)
    requires i <= |parts| && Fold(parts[..i], base, maxLength, limit).None?
    ensures Fold(parts, base, maxLength, limit).None?
  {
    if i < |parts| {
      assert parts[..|parts| - 1][..i] == parts[..i];
      FoldStops(parts[..|parts| - 1], i, base, maxLength, limit);
    } else {
      assert parts[..i] == parts;
    }
  }

  // ---- IPv4 -------------------------------------------------------------

  function ParseIpv4(address: string): Option<nat> {
    var parts := Split(address, '.');
    if |parts| != 4 then None else Fold(parts, 10, 3, 256)
  }

  function Octets(v: nat): (o: seq<nat>)
    requires v < 0x1_0000_0000
    ensures |o| == 4 && forall k :: 0 <= k < 4 ==> o[k] < 256
  {
    [v / 0x100_0000, LowByte(v / 0x1_0000), LowByte(v / 0x100), LowByte(v)]
  }

  function Numerals(digits: seq<nat>, base: nat): (parts: seq<string>)
    requires 2 <= base <= 16
    ensures |parts| == |digits| && forall k :: 0 <= k < |parts| ==> parts[k] == Numeral(digits[k], base)
  {
    if digits == [] then [] else Numerals(digits[..|digits| - 1], base) + [Numeral(digits[|digits| - 1], base)]
  }

  function FormatIpv4(v: nat): string
    requires v < 0x1_0000_0000
  {
    Join(Numerals(Octets(v), 10), '.')
  }

  lemma OctetText(n: nat)
    requires n < 256
    ensures IsNumeral(Numeral(n, 10), 10, 3) && Number(Numeral(n, 10), 10) == n
    ensures forall c :: c in Numeral(n, 10) ==> '0' <= c <= '9'
  {
    assert Power(10, 3) == 1000;
    NumeralRoundTrip(n, 10, 3);
    forall i | 0 <= i < |Numeral(n, 10)| ensures '0' <= Numeral(n, 10)[i] <= '9' {
      assert 0 <= DigitValue(Numeral(n, 10)[i]) < 10;
    }
  }

  lemma WeighFour(o: seq<nat>, limit: nat)
    requires |o| == 4
    ensures Weigh(o, limit) == ((o[0] * limit + o[1]) * limit + o[2]) * limit + o[3]
  {
    assert o[..3][..2] == o[..2] && o[..2][..1] == o[..1] && o[..1][..0] == [];
    assert Weigh(o[..1], limit) == o[0];
    assert Weigh(o[..2], limit) == o[0] * limit + o[1];
  }

  lemma WeighOctets(v: nat)
    requires v < 0x1_0000_0000
    ensures Weigh(Octets(v), 256) == v
  {
    var a, b := v / 0x100, v / 0x1_0000;
    DivisionIsUnique(v, 0x1_0000, a / 256, a % 256 * 256 + v % 256);
    DivisionIsUnique(v, 0x100_0000, b / 256, b % 256 * 0x1_0000 + v % 0x1_0000);
    OctetsAre(v, a, b, v / 0x100_0000);
    WeighFour(Octets(v), 256);
  }

  lemma OctetsAre(v: nat, a: nat, b: nat, c: nat)
    requires v < 0x1_0000_0000 && a == v / 0x100 && b == v / 0x1_0000 && c == v / 0x100_0000
    ensures Octets(v) == [c, b % 256, a % 256, v % 256]
  {}

  /** Every 32-bit value survives formatting and parsing. */
  lemma Ipv4RoundTrip(v: nat)
    requires v < 0x1_0000_0000
    ensures ParseIpv4(FormatIpv4(v)) == Some(v)
  {
    var o := Octets(v);
    var parts := Numerals(o, 10);
    forall k | 0 <= k < 4 ensures IsNumeral(parts[k], 10, 3) && Number(parts[k], 10) == o[k] && '.' !in parts[k] { OctetText(o[k]); }
    SplitJoin(parts, '.');
    FoldIsWeigh(parts, o, 10, 3, 256);
    WeighOctets(v);
  }

  /** One to three decimal digits, read as at most 255. */
  predicate IsOctet(s: string) {
    1 <= |s| <= 3 && (forall i :: 0 <= i < |s| ==> '0' <= s[i] <= '9') && DecimalValue(s) <= 255
  }

  function DecimalValue(s: string): nat
    requires forall i :: 0 <= i < |s| ==> '0' <= s[i] <= '9'
  {
    if s == "" then 0 else DecimalValue(s[..|s| - 1]) * 10 + (s[|s| - 1] as int - '0' as int)
  }

  lemma DecimalDigit(c: char)
    ensures 0 <= DigitValue(c) < 10 <==> '0' <= c <= '9'
    ensures '0' <= c <= '9' ==> DigitValue(c) == c as int - '0' as int
  {}

  lemma {:induction false} DecimalIsNumber(s: string)
    requires forall i :: 0 <= i < |s| ==> '0' <= s[i] <= '9'
    ensures (forall i :: 0 <= i < |s| ==> 0 <= DigitValue(s[i]) < 10) && Number(s, 10) == DecimalValue(s)
  {
    if s != "" { DecimalIsNumber(s[..|s| - 1]); }
  }

  lemma OctetIsNumeral(s: string)
    ensures IsOctet(s) <==> IsNumeral(s, 10, 3) && Number(s, 10) < 256
    ensures IsOctet(s) ==> Number(s, 10) == DecimalValue(s) && '.' !in s
  {
    if forall i :: 0 <= i < |s| ==> '0' <= s[i] <= '9' {
      DecimalIsNumber(s);
    } else {
      var i :| 0 <= i < |s| && !('0' <= s[i] <= '9');
      DecimalDigit(s[i]);
    }
  }

  /** Four octets with dots between them. */
  ghost predicate Dotted(x: string, a: string, b: string, c: string, d: string) {
    IsOctet(a) && IsOctet(b) && IsOctet(c) && IsOctet(d) && x == a + "." + b + "." + c + "." + d
  }

  lemma JoinFour(a: string, b: string, c: string, d: string)
    ensures Join([a, b, c, d], '.') == a + "." + b + "." + c + "." + d
  {
    assert [a, b, c, d][1..] == [b, c, d] && [b, c, d][1..] == [c, d] && [c, d][1..] == [d];
    assert Join([c, d], '.') == c + "." + d;
    assert Join([b, c, d], '.') == b + "." + (c + "." + d);
    assert a + "." + (b + "." + (c + "." + d)) == a + "." + b + "." + c + "." + d;
  }

  lemma DottedParses(x: string, a: string, b: string, c: string, d: string)
    requires Dotted(x, a, b, c, d)
    ensures ParseIpv4(x) == Some(((DecimalValue(a) * 256 + DecimalValue(b)) * 256 + DecimalValue(c)) * 256 + DecimalValue(d))
  {
    var parts, o := [a, b, c, d], [DecimalValue(a), DecimalValue(b), DecimalValue(c), DecimalValue(d)];
    forall k | 0 <= k < 4 ensures IsNumeral(parts[k], 10, 3) && Number(parts[k], 10) == o[k] < 256 && '.' !in parts[k] {
      OctetIsNumeral(parts[k]);
    }
    JoinFour(a, b, c, d);
    SplitJoin(parts, '.');
    FoldIsWeigh(parts, o, 10, 3, 256);
    WeighFour(o, 256);
  }

  lemma {:induction false} FoldReadsNumerals(parts: seq<string>, base: nat, maxLength: nat, limit: nat)
    requires Fold(parts, base, maxLength, limit).Some?
    ensures forall k :: 0 <= k < |parts| ==> IsNumeral(parts[k], base, maxLength) && Number(parts[k], base) < limit
  {
    if parts != [] { FoldReadsNumerals(parts[..|parts| - 1], base, maxLength, limit); }
  }

  /** A text is read as an IPv4 address iff it is four octets with dots between them, and then as the number they stand for. */
  lemma Ipv4ReadsDotted(x: string)
    ensures ParseIpv4(x).Some? <==> exists a, b, c, d :: Dotted(x, a, b, c, d)
    ensures forall a, b, c, d :: Dotted(x, a, b, c, d) ==>
              ParseIpv4(x) == Some(((DecimalValue(a) * 256 + DecimalValue(b)) * 256 + DecimalValue(c)) * 256 + DecimalValue(d))
  {
    forall a, b, c, d | Dotted(x, a, b, c, d)
      ensures ParseIpv4(x) == Some(((DecimalValue(a) * 256 + DecimalValue(b)) * 256 + DecimalValue(c)) * 256 + DecimalValue(d))
    {
      DottedParses(x, a, b, c, d);
    }
    if ParseIpv4(x).Some? {
      var parts := Split(x, '.');
      JoinSplit(x, '.');
      FoldReadsNumerals(parts, 10, 3, 256);
      forall k | 0 <= k < 4 ensures IsOctet(parts[k]) { OctetIsNumeral(parts[k]); }
      assert parts == [parts[0], parts[1], parts[2], parts[3]];
      JoinFour(parts[0], parts[1], parts[2], parts[3]);
      assert Dotted(x, parts[0], parts[1], parts[2], parts[3]);
    }
  }

  lemma PowersOf256()
    ensures Power(256, 0) == 1 && Power(256, 1) == 256 && Power(256, 2) == 0x1_0000
    ensures Power(256, 3) == 0x100_0000 && Power(256, 4) == 0x1_0000_0000
  {}

  /** Shifting up to three octets left and setting a fourth loses nothing of the 32 bits. */
  lemma AppendOctet(value: nat, octet: nat)
    requires value < 0x100_0000 && octet < 256
    ensures Or(ShiftLeft32(value, 8), octet) == value * 256 + octet
  {
    PowersOfTwo();
    ShiftIsProduct(value, 8);
    OrOfDisjoint(value, octet, 8);
  }

  /** ipv4ToNumber; the wrap to 32 bits never loses anything. */
  method Ipv4ToNumber(address: string) returns (r: Option<nat>)
    ensures r == ParseIpv4(address)
    ensures r.Some? ==> r.value < 0x1_0000_0000
  {
    var parts := Split(address, '.');
    if |parts| != 4 { return None; }
    PowersOf256();
    var value := 0;
    var i := 0;
    while i < 4
      invariant 0 <= i <= 4 && Fold(parts[..i], 10, 3, 256) == Some(value)
      invariant value < Power(256, i)
    {
      assert parts[..i + 1][..i] == parts[..i];
      if !IsNumeral(parts[i], 10, 3) || Number(parts[i], 10) > 255 {
        FoldStops(parts, i + 1, 10, 3, 256);
        return None;
      }
      OneMoreDigit(value, Power(256, i), 256, Number(parts[i], 10));
      AppendOctet(value, Number(parts[i], 10));
      value := Or(ShiftLeft32(value, 8), Number(parts[i], 10));
      i := i + 1;
    }
    assert parts[..i] == parts;
    return Some(value);
  }
}
