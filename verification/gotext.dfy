/**
 * The pieces of Go's strconv, fmt and strings packages that the bidding
 * backend relies on, restricted to plain decimal text: formatting of
 * integers (%d) and of fixed-point numbers with six decimals (%f),
 * parsing with Go's (value, err) convention, and splitting on a separator.
 */
module GoText {
  import opened Common

  /** Go's `(v, err)` pair: `ok` stands for `err == nil`. */
  datatype Parsed<T> = Parsed(value: T, ok: bool)

  const MinInt64: int := -0x8000_0000_0000_0000
  const MaxInt64: int := 0x7fff_ffff_ffff_ffff
  const MaxUint32: int := 0xffff_ffff
  const Micro: int := 1000000

  predicate IsDigit(c: char)
  {
    '0' <= c <= '9'
  }

  predicate AllDigits(s: string)
  {
    forall i :: 0 <= i < |s| ==> IsDigit(s[i])
  }

  function DigitChar(d: nat): (c: char)
    requires d < 10
    ensures IsDigit(c)
  {
    (('0' as int) + d) as char
  }

  function DigitValue(c: char): (d: nat)
    requires IsDigit(c)
    ensures d < 10
  {
    (c as int) - ('0' as int)
  }

  function Pow10(n: nat): (p: nat)
    ensures p >= 1
  {
    if n == 0 then 1 else 10 * Pow10(n - 1)
  }

  lemma Pow10Six()
    ensures Pow10(6) == Micro
  {
    assert Pow10(1) == 10;
    assert Pow10(2) == 100;
    assert Pow10(3) == 1000;
    assert Pow10(4) == 10000;
    assert Pow10(5) == 100000;
  }

  // ---------------------------------------------------------------------
  // Decimal digits

  /** The decimal digits of `n`, most significant first, without leading zeros. */
  function FormatNat(n: nat): (s: string)
    ensures |s| >= 1 && AllDigits(s)
    ensures n >= 10 ==> s[0] != '0'
  {
    if n < 10 then [DigitChar(n)] else FormatNat(n / 10) + [DigitChar(n % 10)]
  }

  /** The value of a string of decimal digits (the empty string reads as 0). */
  function ParseNat(s: string): nat
    requires AllDigits(s)
  {
    if s == [] then 0 else ParseNat(s[..|s| - 1]) * 10 + DigitValue(s[|s| - 1])
  }

  lemma {:induction false} ParseFormatNat(n: nat)
    ensures ParseNat(FormatNat(n)) == n
  {
    var s := FormatNat(n);
    if n >= 10 {
      assert s[..|s| - 1] == FormatNat(n / 10);
      ParseFormatNat(n / 10);
    }
  }

  /** A digit string is worth less than ten to the power of its length. */
  lemma {:induction false} ParseNatBound(s: string)
    requires AllDigits(s)
    ensures ParseNat(s) < Pow10(|s|)
  {
    if s != [] {
      ParseNatBound(s[..|s| - 1]);
    }
  }

  /** Leading zeros do not change the value of a digit string. */
  lemma {:induction false} ParseNatLeadingZeros(z: nat, s: string)
    requires AllDigits(s)
    ensures AllDigits(seq(z, _ => '0') + s)
    ensures ParseNat(seq(z, _ => '0') + s) == ParseNat(s)
  {
    var t := seq(z, _ => '0') + s;
    assert AllDigits(t) by {
      forall i | 0 <= i < |t| ensures IsDigit(t[i]) {
        if i >= z { assert t[i] == s[i - z]; }
      }
    }
    if s == [] {
      if z > 0 {
        assert t[..|t| - 1] == seq(z - 1, _ => '0') + [];
        ParseNatLeadingZeros(z - 1, []);
      }
    } else {
      assert t[..|t| - 1] == seq(z, _ => '0') + s[..|s| - 1];
      ParseNatLeadingZeros(z, s[..|s| - 1]);
    }
  }

  /** String.prototype.padStart / a zero-filled %0Nd: pads on the left up to `width`. */
  function PadLeft(s: string, width: nat, c: char): (r: string)
    ensures |r| == if |s| >= width then |s| else width
    ensures r[|r| - |s|..] == s
    ensures forall i :: 0 <= i < |r| - |s| ==> r[i] == c
  {
    if |s| >= width then s else seq(width - |s|, _ => c) + s
  }

  // ---------------------------------------------------------------------
  // Signed integers

  /** fmt's %d. */
  function FormatInt(i: int): (s: string)
    ensures |s| >= 1 && s[0] != '+' && s[0] != '.'
  {
    if i < 0 then "-" + FormatNat(-i) else FormatNat(i)
  }

  /** An optional leading sign, as strconv accepts it: (is negative, rest). */
  function SplitSign(s: string): (bool, string)
  {
    if |s| > 0 && (s[0] == '+' || s[0] == '-') then (s[0] == '-', s[1..]) else (false, s)
  }

  /**
   * strconv.ParseInt(s, 10, 64), which is also strconv.Atoi on a 64-bit
   * platform: a syntax error gives 0, a value out of range gives the
   * nearest bound, and both report an error.
   */
  function ParseInt64(s: string): (r: Parsed<int>)
    ensures r.ok ==> MinInt64 <= r.value <= MaxInt64
    ensures !r.ok ==> r.value == 0 || r.value == MinInt64 || r.value == MaxInt64
  {
    var (neg, body) := SplitSign(s);
    if body == [] || !AllDigits(body) then Parsed(0, false)
    else
      var mag: int := ParseNat(body);
      var v := if neg then -mag else mag;
      if v > MaxInt64 then Parsed(MaxInt64, false)
      else if v < MinInt64 then Parsed(MinInt64, false)
      else Parsed(v, true)
  }

  lemma ParseFormatInt(i: int)
    requires MinInt64 <= i <= MaxInt64
    ensures ParseInt64(FormatInt(i)) == Parsed(i, true)
  {
    if i < 0 {
      assert SplitSign(FormatInt(i)) == (true, FormatNat(-i));
      ParseFormatNat(-i);
    } else {
      assert SplitSign(FormatInt(i)) == (false, FormatNat(i));
      ParseFormatNat(i);
    }
  }

  /** strconv.ParseUint(s, 10, 32): digits only, no sign, at most 2^32 - 1. */
  function ParseUint32(s: string): (r: Parsed<nat>)
    ensures r.ok <==> |s| >= 1 && AllDigits(s) && ParseNat(s) <= MaxUint32
    ensures r.ok ==> r.value == ParseNat(s)
  {
    if s == [] || !AllDigits(s) then Parsed(0, false)
    else if ParseNat(s) > MaxUint32 then Parsed(MaxUint32, false)
    else Parsed(ParseNat(s), true)
  }

  // ---------------------------------------------------------------------
  // Fixed-point numbers

  /** x rounded to six decimals, the precision of fmt's %f. */
  function Round6(x: real): (r: real)
    ensures -0.0000005 <= r - x <= 0.0000005
  {
    RoundHalfAway(x * 1000000.0) as real / 1000000.0
  }

  /** `m` millionths written as fmt's %f writes them: sign, integer part, '.', six digits. */
  function FormatMicros(m: int): string
  {
    var a := if m < 0 then -m else m;
    (if m < 0 then "-" else "") + FormatNat(a / Micro) + "." + PadLeft(FormatNat(a % Micro), 6, '0')
  }

  /** fmt.Sprintf("%f", x), with ties rounded away from zero. */
  function FormatFixed6(x: real): string
  {
    FormatMicros(RoundHalfAway(x * 1000000.0))
  }

  /** The first position of `c` in `s`, if any. */
  function IndexOf(s: string, c: char): (r: Option<nat>)
    ensures r.None? ==> c !in s
    ensures r.Some? ==> r.value < |s| && s[r.value] == c && c !in s[..r.value]
  {
    if s == [] then None
    else if s[0] == c then Some(0)
    else match IndexOf(s[1..], c)
      case None => None
      case Some(i) => assert s[..i + 1] == [s[0]] + s[1..][..i]; Some(i + 1)
  }

  lemma {:induction false} IndexOfAfter(a: string, c: char, b: string)
    requires c !in a
    ensures IndexOf(a + [c] + b, c) == Some(|a|)
  {
    if a != [] {
      assert (a + [c] + b)[1..] == a[1..] + [c] + b;
      IndexOfAfter(a[1..], c, b);
    }
  }

  /**
   * strconv.ParseFloat(s, 64) on plain decimal text: an optional sign,
   * digits, and an optional '.' with more digits. A syntax error gives 0.
   */
  function ParseFloat(s: string): (r: Parsed<real>)
    ensures !r.ok ==> r.value == 0.0
  {
    var (neg, body) := SplitSign(s);
    var d := ParseDecimal(body);
    Parsed(if neg then -d.value else d.value, d.ok)
  }

  /** Unsigned decimal text: the integer part ends at the first '.'. */
  function ParseDecimal(body: string): (r: Parsed<real>)
    ensures !r.ok ==> r.value == 0.0
  {
    match IndexOf(body, '.')
    case None => DecimalValue(body, [])
    case Some(i) => DecimalValue(body[..i], body[i + 1..])
  }

  /** The value of an integer part and a fraction part; at least one digit overall. */
  function DecimalValue(ip: string, fp: string): (r: Parsed<real>)
    ensures !r.ok ==> r.value == 0.0
  {
    if AllDigits(ip) && AllDigits(fp) && |ip| + |fp| > 0 then
      Parsed(ParseNat(ip) as real + ParseNat(fp) as real / Pow10(|fp|) as real, true)
    else Parsed(0.0, false)
  }

  /** An optional minus sign in front of text that starts with a digit. */
  lemma SignOfPlain(neg: bool, body: string)
    requires |body| >= 1 && IsDigit(body[0])
    ensures SplitSign((if neg then "-" else "") + body) == (neg, body)
  {
    var s := (if neg then "-" else "") + body;
    if neg {
      assert s[0] == '-' && s[1..] == body;
    } else {
      assert s == body;
    }
  }

  /** Digits, a '.', and a fraction split at that '.'. */
  lemma DecimalOfPlain(ip: string, fp: string)
    requires AllDigits(ip)
    ensures ParseDecimal(ip + "." + fp) == DecimalValue(ip, fp)
  {
    var body := ip + "." + fp;
    assert '.' !in ip by {
      forall i | 0 <= i < |ip| ensures ip[i] != '.' { assert IsDigit(ip[i]); }
    }
    IndexOfAfter(ip, '.', fp);
    assert body[..|ip|] == ip;
    assert body[|ip| + 1..] == fp;
  }

  /** ParseFloat on `[-]digits.digits`. */
  lemma ParseFloatPlain(neg: bool, ip: string, fp: string)
    requires |ip| >= 1 && AllDigits(ip) && AllDigits(fp)
    ensures var d := DecimalValue(ip, fp);
            ParseFloat((if neg then "-" else "") + ip + "." + fp) == Parsed(if neg then -d.value else d.value, true)
  {
    var body := ip + "." + fp;
    var s := (if neg then "-" else "") + ip + "." + fp;
    assert s == (if neg then "-" else "") + body;
    assert body[0] == ip[0];
    SignOfPlain(neg, body);
    DecimalOfPlain(ip, fp);
    assert DecimalValue(ip, fp).ok;
  }

  /** A number below a million has at most six digits. */
  lemma SmallHasSixDigits(rm: nat)
    requires rm < Micro
    ensures |FormatNat(rm)| <= 6
  {
    var digits := FormatNat(rm);
    if |digits| >= 7 {
      ParseFormatNat(rm);
      Pow10Six();
      Pow10Mono(6, |digits| - 1);
      LeadingDigitBound(digits);
    }
  }

  /** The six-digit, zero-padded fraction field of %f reads back as its value. */
  lemma PaddedFraction(rm: nat)
    requires rm < Micro
    ensures var fp := PadLeft(FormatNat(rm), 6, '0');
            |fp| == 6 && AllDigits(fp) && ParseNat(fp) == rm
  {
    var digits := FormatNat(rm);
    SmallHasSixDigits(rm);
    ParseFormatNat(rm);
    ParseNatLeadingZeros(6 - |digits|, digits);
    assert PadLeft(digits, 6, '0') == seq(6 - |digits|, _ => '0') + digits;
  }

  /** The integer and fraction fields of %f, read back. */
  lemma MicrosFields(q: nat, rm: nat)
    requires rm < Micro
    ensures DecimalValue(FormatNat(q), PadLeft(FormatNat(rm), 6, '0')) == Parsed(q as real + rm as real / 1000000.0, true)
  {
    var ip, fp := FormatNat(q), PadLeft(FormatNat(rm), 6, '0');
    PaddedFraction(rm);
    ParseFormatNat(q);
    Pow10Six();
    assert Pow10(|fp|) as real == 1000000.0;
  }

  /** Reading back what %f wrote gives the value to the micro-unit. */
  lemma ParseFormatMicros(m: int)
    ensures ParseFloat(FormatMicros(m)) == Parsed(m as real / 1000000.0, true)
  {
    var a := if m < 0 then -m else m;
    var q, rm := a / Micro, a % Micro;
    var ip, fp := FormatNat(q), PadLeft(FormatNat(rm), 6, '0');
    PaddedFraction(rm);
    ParseFloatPlain(m < 0, ip, fp);
    assert FormatMicros(m) == (if m < 0 then "-" else "") + ip + "." + fp;
    MicrosFields(q, rm);
    MicrosValue(a);
  }

  lemma MicrosValue(a: nat)
    ensures (a / Micro) as real + (a % Micro) as real / 1000000.0 == a as real / 1000000.0
  {
    var q, rm := a / Micro, a % Micro;
    assert a == q * Micro + rm;
    assert a as real == q as real * 1000000.0 + rm as real;
  }

  lemma {:induction false} Pow10Mono(i: nat, j: nat)
    requires i <= j
    ensures Pow10(i) <= Pow10(j)
  {
    if i < j { Pow10Mono(i, j - 1); }
  }

  /** A digit string without a leading zero is worth at least ten to its length minus one. */
  lemma {:induction false} LeadingDigitBound(s: string)
    requires |s| >= 1 && AllDigits(s) && s[0] != '0'
    ensures ParseNat(s) >= Pow10(|s| - 1)
  {
    if |s| > 1 {
      LeadingDigitBound(s[..|s| - 1]);
    }
  }

  lemma ParseFormatFixed6(x: real)
    ensures ParseFloat(FormatFixed6(x)) == Parsed(Round6(x), true)
  {
    ParseFormatMicros(RoundHalfAway(x * 1000000.0));
  }

  // ---------------------------------------------------------------------
  // strings.Split and strings.Join on a one-character separator

  function Split(s: string, sep: char): (parts: seq<string>)
    ensures |parts| >= 1
    ensures forall i :: 0 <= i < |parts| ==> sep !in parts[i]
    decreases |s|
  {
    match IndexOf(s, sep)
    case None => [s]
    case Some(i) => [s[..i]] + Split(s[i + 1..], sep)
  }

  function Join(parts: seq<string>, sep: char): string
  {
    if parts == [] then ""
    else if |parts| == 1 then parts[0]
    else parts[0] + [sep] + Join(parts[1..], sep)
  }

  /** Splitting undoes joining when no part holds the separator. */
  lemma {:induction false} SplitJoin(parts: seq<string>, sep: char)
    requires |parts| >= 1
    requires forall i :: 0 <= i < |parts| ==> sep !in parts[i]
    ensures Split(Join(parts, sep), sep) == parts
  {
    if |parts| == 1 {
      assert IndexOf(parts[0], sep) == None;
    } else {
      var rest := Join(parts[1..], sep);
      IndexOfAfter(parts[0], sep, rest);
      var s := parts[0] + [sep] + rest;
      assert s[..|parts[0]|] == parts[0];
      assert s[|parts[0]| + 1..] == rest;
      SplitJoin(parts[1..], sep);
      assert parts == [parts[0]] + parts[1..];
    }
  }

  /** Joining one more part appends the separator and that part. */
  lemma {:induction false} JoinSnoc(parts: seq<string>, x: string, sep: char)
    requires |parts| >= 1
    ensures Join(parts + [x], sep) == Join(parts, sep) + [sep] + x
  {
    if |parts| == 1 {
      assert (parts + [x])[1..] == [x];
    } else {
      assert (parts + [x])[1..] == parts[1..] + [x];
      JoinSnoc(parts[1..], x, sep);
    }
  }
}
