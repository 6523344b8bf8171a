/**
 * The Swiss social-insurance number with 13 digits (src/main.rs): the `Nav13` value,
 * its parser `from_str`, its `Display` form and the generator of fake numbers.
 */
module Navs13 {
  import opened Ean13

  /** `struct Nav13 { digits: [u8;12], check: u8 }`: twelve payload digits, then the check digit. */
  datatype Nav13 = Nav13(digits: seq<Byte>, check: Byte)

  /** The error of `from_str`: the code the command line exits with, and the data its description shows. */
  datatype ParseError =
    | InvalidLength(count: nat)
    | InvalidCountryCode(first: Byte, second: Byte, third: Byte)
    | InvalidChecksum(claimed: Byte)
  {
    /** The `code` field of `ParseNav13Error`. */
    function Code(): (code: int)
      ensures 64 <= code <= 66
      ensures code == 64 <==> InvalidLength?
      ensures code == 65 <==> InvalidCountryCode?
      ensures code == 66 <==> InvalidChecksum?
    {
      match this
      case InvalidLength(_) => 64
      case InvalidCountryCode(_, _, _) => 65
      case InvalidChecksum(_) => 66
    }
  }

  datatype Result<T, E> = Ok(value: T) | Err(error: E)

  /** The shape `[u8;12]` gives the payload. */
  predicate WellFormed(n: Nav13)
  {
    |n.digits| == 12
  }

  /** Every value is a decimal digit. */
  predicate AllDecimal(v: seq<Byte>)
  {
    forall k | 0 <= k < |v| :: v[k] <= 9
  }

  /** Every one of the thirteen values is a decimal digit. */
  predicate DecimalOnly(n: Nav13)
  {
    WellFormed(n) && n.check <= 9 && AllDecimal(n.digits)
  }

  /** The country test of `from_str` as written: it fails only when all three leading digits differ from 7, 5 and 6. */
  predicate CountryRejected(v: seq<Byte>)
    requires |v| >= 3
    ensures CountryRejected(v) ==> NotSwiss(v)
    ensures v[0] == 7 || v[1] == 5 || v[2] == 6 ==> !CountryRejected(v)
  {
    v[0] != 7 && v[1] != 5 && v[2] != 6
  }

  /** The values `from_str` accepts: decimal digits, a prefix the country test lets through, a matching check digit. */
  predicate Accepted(n: Nav13)
  {
    DecimalOnly(n) && !CountryRejected(n.digits) && n.check == Check(n.digits)
  }

  /** The thirteen digits in the order they are written. */
  function Values(n: Nav13): seq<Byte>
  {
    n.digits + [n.check]
  }

  // ---------------------------------------------------------------- characters

  /** Every character is ASCII: the only numeric characters are then '0' to '9'. */
  predicate IsAscii(s: string)
  {
    forall k | 0 <= k < |s| :: s[k] as int < 128
  }

  predicate IsDigitChar(c: char)
  {
    '0' <= c <= '9'
  }

  function DigitValue(c: char): (b: Byte)
    requires IsDigitChar(c)
  {
    c as int - '0' as int
  }

  function DigitChar(b: Byte): (c: char)
    requires b <= 9
    ensures IsDigitChar(c) && DigitValue(c) == b
  {
    ('0' as int + b) as char
  }

  /** The decimal digits of a sequence of digit values, one character each. */
  function DigitString(v: seq<Byte>): (t: string)
    requires AllDecimal(v)
  {
    seq(|v|, k requires 0 <= k < |v| => DigitChar(v[k]))
  }

  // ---------------------------------------------------------------- parsing

  /** The digit values of `s` in their original order, all other characters dropped (the `filter_map` of `from_str`). */
  function Digits(s: string): (v: seq<Byte>)
    ensures |v| <= |s|
    ensures AllDecimal(v)
  {
    if s == [] then [] else Keep(s[0]) + Digits(s[1..])
  }

  /** What the `filter_map` keeps of one character: its value if it is a digit, nothing otherwise. */
  function Keep(c: char): (v: seq<Byte>)
    ensures |v| <= 1
    ensures |v| == 1 <==> IsDigitChar(c)
    ensures |v| == 1 ==> v[0] <= 9 && DigitChar(v[0]) == c
  {
    if IsDigitChar(c) then [DigitValue(c)] else []
  }

  /** `values[0..12].iter().zip(nav13.digits.iter_mut())`: `dst` with its leading elements overwritten by `src`. */
  function ZipCopy(src: seq<Byte>, dst: seq<Byte>): (r: seq<Byte>)
    ensures |r| == |dst|
    ensures forall k | 0 <= k < |r| :: r[k] == if k < |src| then src[k] else dst[k]
  {
    if src == [] || dst == [] then dst else [src[0]] + ZipCopy(src[1..], dst[1..])
  }

  /** The value `from_str` starts from: every digit the sentinel 255. */
  function Blank(): (n: Nav13)
    ensures WellFormed(n)
    ensures n.check == 255 && forall k | 0 <= k < 12 :: n.digits[k] == 255
    ensures !DecimalOnly(n)
  {
    Nav13([255, 255, 255, 255, 255, 255, 255, 255, 255, 255, 255, 255], 255)
  }

  /** Lines 94-95 of `from_str`: the thirteenth digit becomes the check, the first twelve overwrite the blank payload. */
  function CopyInto(values: seq<Byte>, blank: Nav13): (n: Nav13)
    requires |values| == 13 && WellFormed(blank)
    ensures WellFormed(n) && n.digits == values[..12] && n.check == values[12]
    ensures Values(n) == values
  {
    blank.(check := values[12]).(digits := ZipCopy(values[..12], blank.digits))
  }

  /** The checksum step of `from_str`, once thirteen digits have passed the earlier tests. */
  function Validate(n: Nav13): (r: Result<Nav13, ParseError>)
    ensures r.Ok? <==> n.check == Check(n.digits)
    ensures r.Ok? ==> r.value == n
    ensures r.Err? ==> r.error == InvalidChecksum(n.check) && r.error.Code() == 66
  {
    if n.check != Check(n.digits) then Err(InvalidChecksum(n.check)) else Ok(n)
  }

  /** The checks of `from_str` on the extracted digits, in their order: length, country, checksum. */
  function ParseValues(values: seq<Byte>): (r: Result<Nav13, ParseError>)
    requires AllDecimal(values)
    ensures |values| != 13 ==> r == Err(InvalidLength(|values|))
    ensures |values| == 13 && CountryRejected(values) ==>
              r == Err(InvalidCountryCode(values[0], values[1], values[2]))
    ensures |values| == 13 && !CountryRejected(values) && values[12] != Check(values[..12]) ==>
              r == Err(InvalidChecksum(values[12]))
    ensures |values| == 13 && !CountryRejected(values) && values[12] == Check(values[..12]) ==>
              r == Ok(Nav13(values[..12], values[12])) && Accepted(r.value) && Values(r.value) == values
  {
    if |values| != 13 then
      Err(InvalidLength(|values|))
    else if CountryRejected(values) then
      Err(InvalidCountryCode(values[0], values[1], values[2]))
    else
      assert CopyInto(values, Blank()).digits == values[..12];
      assert values[..12] + [values[12]] == values;
      Validate(CopyInto(values, Blank()))
  }

  /** `Nav13::from_str`, on ASCII text. */
  function Parse(s: string): (r: Result<Nav13, ParseError>)
    requires IsAscii(s)
    ensures r.Ok? ==> Accepted(r.value) && Values(r.value) == Digits(s)
  {
    ParseValues(Digits(s))
  }

  /** The country test as its message ("isn't iso-3166 for Switzerland") intends: any prefix but 7, 5, 6 fails. */
  predicate NotSwiss(v: seq<Byte>)
    requires |v| >= 3
  {
    v[..3] != [7, 5, 6]
  }

  /** `from_str` with the intended country test: the as-written test only fails when all three digits differ. */
  function ParseValuesSwiss(values: seq<Byte>): (r: Result<Nav13, ParseError>)
    requires AllDecimal(values)
    ensures r.Ok? ==> Accepted(r.value) && r.value.digits[..3] == [7, 5, 6] && Values(r.value) == values
    ensures r.Ok? <==> ParseValues(values).Ok? && values[..3] == [7, 5, 6]
    ensures |values| != 13 ==> r == Err(InvalidLength(|values|))
    ensures |values| == 13 && NotSwiss(values) ==> r == Err(InvalidCountryCode(values[0], values[1], values[2]))
    ensures r != ParseValues(values) ==>
              |values| == 13 && NotSwiss(values) && !CountryRejected(values)
              && r == Err(InvalidCountryCode(values[0], values[1], values[2]))
  {
    if |values| != 13 then
      Err(InvalidLength(|values|))
    else if NotSwiss(values) then
      Err(InvalidCountryCode(values[0], values[1], values[2]))
    else
      assert CopyInto(values, Blank()).digits == values[..12];
      Validate(CopyInto(values, Blank()))
  }

  /** Parsing with the intended country test, on ASCII text. */
  function ParseSwiss(s: string): (r: Result<Nav13, ParseError>)
    requires IsAscii(s)
    ensures r.Ok? ==> Parse(s) == r && r.value.digits[..3] == [7, 5, 6]
  {
    ParseValuesSwiss(Digits(s))
  }

  // ---------------------------------------------------------------- formatting

  /** A `u8` as `{}` writes it: its decimal digits, without leading zeros. */
  function Decimal(b: Byte): (t: string)
    ensures 1 <= |t| <= 3
    ensures forall k | 0 <= k < |t| :: IsDigitChar(t[k])
    ensures |t| == 1 <==> b <= 9
    ensures DecimalValue(t) == b
    ensures t[0] == '0' ==> b == 0
  {
    if b <= 9 then [DigitChar(b)] else Decimal(b / 10) + [DigitChar(b % 10)]
  }

  /** The number a string of decimal digits denotes, read most significant digit first. */
  function DecimalValue(t: string): nat
    requires forall k | 0 <= k < |t| :: IsDigitChar(t[k])
  {
    if t == [] then 0 else 10 * DecimalValue(t[..|t| - 1]) + DigitValue(t[|t| - 1])
  }

  /** `Display for Nav13`: the layout `DDD.DDDD.DDDD.DC`. */
  function Format(n: Nav13): (t: string)
    requires WellFormed(n)
    ensures 16 <= |t| <= 42
    ensures |t| == 16 <==> DecimalOnly(n)
  {
    var d := n.digits;
    Decimal(d[0]) + Decimal(d[1]) + Decimal(d[2]) + "."
    + Decimal(d[3]) + Decimal(d[4]) + Decimal(d[5]) + Decimal(d[6]) + "."
    + Decimal(d[7]) + Decimal(d[8]) + Decimal(d[9]) + Decimal(d[10]) + "."
    + Decimal(d[11]) + Decimal(n.check)
  }

  // ---------------------------------------------------------------- generation

  /**
   * `create_fake_swiss_navs13`: the country code 756, nine drawn digits, the check digit.
   * `draws` stands for the nine values of `rng.gen_range(0..10)`, in the order they are drawn.
   */
  method CreateFakeSwissNavs13(draws: seq<Byte>) returns (n: Nav13)
    requires |draws| == 9 && forall k | 0 <= k < 9 :: draws[k] <= 9
    ensures n.digits == [7, 5, 6] + draws
    ensures Accepted(n) && n.check == Check(n.digits)
    ensures IsAscii(Format(n)) && Parse(Format(n)) == Ok(n) && ParseSwiss(Format(n)) == Ok(n)
  {
    var digits := new Byte[12](_ => 255);
    digits[0] := 7;
    digits[1] := 5;
    digits[2] := 6;
    var i := 3;
    while i < 12
      invariant 3 <= i <= 12
      invariant digits[0] == 7 && digits[1] == 5 && digits[2] == 6
      invariant forall k | 3 <= k < i :: digits[k] == draws[k - 3]
    {
      digits[i] := draws[i - 3];
      i := i + 1;
    }
    assert digits[..] == [7, 5, 6] + draws;
    var check := ComputeCheck(digits);
    n := Nav13(digits[..], check);
    FormatThenParseSwiss(n);
  }

  // ---------------------------------------------------------------- properties

  /** Extraction distributes over concatenation: digits keep their relative order. */
  lemma {:induction false} DigitsAppend(s: string, t: string)
    ensures Digits(s + t) == Digits(s) + Digits(t)
  {
    if s == [] {
      assert s + t == t;
    } else {
      assert (s + t)[1..] == s[1..] + t;
      DigitsAppend(s[1..], t);
      calc {
        Digits(s + t);
        Keep(s[0]) + Digits(s[1..] + t);
        Keep(s[0]) + (Digits(s[1..]) + Digits(t));
        (Keep(s[0]) + Digits(s[1..])) + Digits(t);
      }
    }
  }

  /** Reading back a string of digit characters gives the digit values it was written from. */
  lemma {:induction false} DigitsOfDigitString(v: seq<Byte>)
    requires AllDecimal(v)
    ensures Digits(DigitString(v)) == v
  {
    if v != [] {
      assert DigitString(v)[1..] == DigitString(v[1..]);
      DigitsOfDigitString(v[1..]);
    }
  }

  /** A non-digit character between two pieces of text adds no digit. */
  lemma {:induction false} DigitsIgnoreNonDigit(before: string, c: char, after: string)
    requires !IsDigitChar(c)
    ensures Digits(before + [c] + after) == Digits(before + after)
  {
    DigitsOfNonDigit(c);
    DigitsAppend(before, [c]);
    DigitsAppend(before + [c], after);
    DigitsAppend(before, after);
  }

  /** A lone character that is not a digit has no digits. */
  lemma {:induction false} DigitsOfNonDigit(c: char)
    requires !IsDigitChar(c)
    ensures Digits([c]) == []
  {
    assert [c][1..] == [];
  }

  /** A character that is not a digit, inserted anywhere, changes nothing: only the extracted digits matter. */
  lemma {:induction false} ParseIgnoresNonDigit(s: string, i: nat, c: char)
    requires IsAscii(s) && i <= |s| && c as int < 128 && !IsDigitChar(c)
    ensures IsAscii(s[..i] + [c] + s[i..])
    ensures Parse(s[..i] + [c] + s[i..]) == Parse(s)
  {
    var t := s[..i] + [c] + s[i..];
    forall k | 0 <= k < |t| ensures t[k] as int < 128 {
      if k > i {
        assert t[k] == s[k - 1];
      }
    }
    DigitsIgnoreNonDigit(s[..i], c, s[i..]);
    assert s[..i] + s[i..] == s;
  }

  /** A single digit written by `{}` reads back as that digit. */
  lemma {:induction false} DigitsOfDecimal(b: Byte)
    requires b <= 9
    ensures Digits(Decimal(b)) == [b]
  {
    assert Decimal(b)[1..] == [];
  }

  /** Four groups of digits joined by dots: the shape of a written NAVS13. */
  function Grouped(a: seq<Byte>, b: seq<Byte>, c: seq<Byte>, d: seq<Byte>): string
    requires AllDecimal(a) && AllDecimal(b) && AllDecimal(c) && AllDecimal(d)
  {
    DigitString(a) + "." + DigitString(b) + "." + DigitString(c) + "." + DigitString(d)
  }

  /** Reading digits back from grouped text drops the dots and keeps the groups in order. */
  lemma {:induction false} DigitsOfGrouped(a: seq<Byte>, b: seq<Byte>, c: seq<Byte>, d: seq<Byte>)
    requires AllDecimal(a) && AllDecimal(b) && AllDecimal(c) && AllDecimal(d)
    ensures Digits(Grouped(a, b, c, d)) == a + b + c + d
  {
    assert Digits(".") == [] by {
      assert "."[1..] == [];
    }
    DigitsOfDigitString(a);
    DigitsOfDigitString(b);
    DigitsOfDigitString(c);
    DigitsOfDigitString(d);
    var t1 := DigitString(a) + ".";
    DigitsAppend(DigitString(a), ".");
    assert Digits(t1) == a;
    var t2 := t1 + DigitString(b);
    DigitsAppend(t1, DigitString(b));
    assert Digits(t2) == a + b;
    var t3 := t2 + ".";
    DigitsAppend(t2, ".");
    assert Digits(t3) == a + b;
    var t4 := t3 + DigitString(c);
    DigitsAppend(t3, DigitString(c));
    assert Digits(t4) == a + b + c;
    var t5 := t4 + ".";
    DigitsAppend(t4, ".");
    assert Digits(t5) == a + b + c;
    DigitsAppend(t5, DigitString(d));
    assert Grouped(a, b, c, d) == t5 + DigitString(d);
  }

  /** The thirteen digits written in the layout `DDD.DDDD.DDDD.DC`. */
  function Layout(v: seq<Byte>): (t: string)
    requires |v| == 13 && AllDecimal(v)
  {
    [DigitChar(v[0]), DigitChar(v[1]), DigitChar(v[2]), '.',
     DigitChar(v[3]), DigitChar(v[4]), DigitChar(v[5]), DigitChar(v[6]), '.',
     DigitChar(v[7]), DigitChar(v[8]), DigitChar(v[9]), DigitChar(v[10]), '.',
     DigitChar(v[11]), DigitChar(v[12])]
  }

  /** Thirteen one-character pieces joined as `Display` joins them give the sixteen characters of the layout. */
  lemma JoinSingletons(c0: char, c1: char, c2: char, c3: char, c4: char, c5: char, c6: char,
                       c7: char, c8: char, c9: char, c10: char, c11: char, c12: char)
    ensures [c0] + [c1] + [c2] + "." + [c3] + [c4] + [c5] + [c6] + "." + [c7] + [c8] + [c9] + [c10] + "."
            + [c11] + [c12]
            == [c0, c1, c2, '.', c3, c4, c5, c6, '.', c7, c8, c9, c10, '.', c11, c12]
  {
  }

  /** The layout is the grouped form of the digits, three, four, four and two. */
  lemma LayoutIsGrouped(v: seq<Byte>)
    requires |v| == 13 && AllDecimal(v)
    ensures Layout(v) == Grouped(v[..3], v[3..7], v[7..11], v[11..])
  {
    assert DigitString(v[..3]) == [DigitChar(v[0]), DigitChar(v[1]), DigitChar(v[2])];
    assert DigitString(v[3..7]) == [DigitChar(v[3]), DigitChar(v[4]), DigitChar(v[5]), DigitChar(v[6])];
    assert DigitString(v[7..11]) == [DigitChar(v[7]), DigitChar(v[8]), DigitChar(v[9]), DigitChar(v[10])];
    assert DigitString(v[11..]) == [DigitChar(v[11]), DigitChar(v[12])];
  }

  /** `Display` of a number made of decimal digits: exactly sixteen characters in the layout `DDD.DDDD.DDDD.DC`. */
  lemma FormatLayout(n: Nav13)
    requires DecimalOnly(n)
    ensures |Format(n)| == 16 && Format(n) == Layout(Values(n))
  {
    var v, d := Values(n), n.digits;
    forall k | 0 <= k < 12 ensures Decimal(d[k]) == [DigitChar(v[k])] {
    }
    assert Decimal(n.check) == [DigitChar(v[12])];
    JoinSingletons(DigitChar(v[0]), DigitChar(v[1]), DigitChar(v[2]), DigitChar(v[3]), DigitChar(v[4]),
                   DigitChar(v[5]), DigitChar(v[6]), DigitChar(v[7]), DigitChar(v[8]), DigitChar(v[9]),
                   DigitChar(v[10]), DigitChar(v[11]), DigitChar(v[12]));
  }

  /** The digits of the formatted number are its thirteen values, and it is ASCII. */
  lemma DigitsOfFormat(n: Nav13)
    requires DecimalOnly(n)
    ensures IsAscii(Format(n))
    ensures Digits(Format(n)) == Values(n)
  {
    var v := Values(n);
    FormatLayout(n);
    LayoutIsGrouped(v);
    ParseGrouped(v[..3], v[3..7], v[7..11], v[11..], v);
    DigitsOfGrouped(v[..3], v[3..7], v[7..11], v[11..]);
  }

  /** The checks accept the thirteen digits of every accepted number and give that number back. */
  lemma ParseValuesOfNumber(n: Nav13)
    requires Accepted(n)
    ensures AllDecimal(Values(n)) && ParseValues(Values(n)) == Ok(n)
  {
    assert Values(n)[..12] == n.digits;
  }

  /** Round trip: every value `from_str` accepts is read back unchanged from its `Display` form. */
  lemma FormatThenParse(n: Nav13)
    requires Accepted(n)
    ensures IsAscii(Format(n)) && Parse(Format(n)) == Ok(n)
  {
    DigitsOfFormat(n);
    assert Values(n)[..12] == n.digits;
  }

  /** Parsing is canonical: a parsed number formats to text with the same digits, which parses to the same number. */
  lemma ParseThenFormat(s: string, n: Nav13)
    requires IsAscii(s) && Parse(s) == Ok(n)
    ensures IsAscii(Format(n)) && Digits(Format(n)) == Digits(s) && Parse(Format(n)) == Ok(n)
  {
    DigitsOfFormat(n);
    FormatThenParse(n);
  }

  /** Round trip with the intended country test: Swiss numbers read back unchanged from their `Display` form. */
  lemma FormatThenParseSwiss(n: Nav13)
    requires Accepted(n) && n.digits[..3] == [7, 5, 6]
    ensures IsAscii(Format(n)) && Parse(Format(n)) == Ok(n) && ParseSwiss(Format(n)) == Ok(n)
  {
    FormatThenParse(n);
    assert Values(n)[..3] == n.digits[..3];
  }

  /** The check digit of the payload 156.2465.8935.6 is 0. */
  lemma ForeignCheckDigit()
    ensures Check([1, 5, 6, 2, 4, 6, 5, 8, 9, 3, 5, 6]) == 0
  {
    WeightedSumOfTwelve([1, 5, 6, 2, 4, 6, 5, 8, 9, 3, 5, 6]);
  }

  /** The country test as written lets the foreign prefix 156 through; the intended one refuses it with code 65. */
  lemma ForeignPrefixAccepted()
    ensures IsAscii("156.2465.8935.60")
    ensures Parse("156.2465.8935.60") == Ok(Nav13([1, 5, 6, 2, 4, 6, 5, 8, 9, 3, 5, 6], 0))
    ensures ParseSwiss("156.2465.8935.60") == Err(InvalidCountryCode(1, 5, 6))
  {
    var v: seq<Byte> := [1, 5, 6, 2, 4, 6, 5, 8, 9, 3, 5, 6, 0];
    ForeignPrefixText();
    ParseGrouped([1, 5, 6], [2, 4, 6, 5], [8, 9, 3, 5], [6, 0], v);
    ForeignPrefixVerdict();
  }

  lemma ForeignPrefixText()
    ensures "156.2465.8935.60" == Grouped([1, 5, 6], [2, 4, 6, 5], [8, 9, 3, 5], [6, 0])
    ensures [1, 5, 6] + [2, 4, 6, 5] + [8, 9, 3, 5] + [6, 0] == [1, 5, 6, 2, 4, 6, 5, 8, 9, 3, 5, 6, 0]
  {
  }

  /** The digits 156.2465.8935.60 pass the checks as written and fail the intended country test. */
  lemma ForeignPrefixVerdict()
    ensures ParseValues([1, 5, 6, 2, 4, 6, 5, 8, 9, 3, 5, 6, 0]) == Ok(Nav13([1, 5, 6, 2, 4, 6, 5, 8, 9, 3, 5, 6], 0))
    ensures ParseValuesSwiss([1, 5, 6, 2, 4, 6, 5, 8, 9, 3, 5, 6, 0]) == Err(InvalidCountryCode(1, 5, 6))
  {
    var payload: seq<Byte> := [1, 5, 6, 2, 4, 6, 5, 8, 9, 3, 5, 6];
    var v: seq<Byte> := [1, 5, 6, 2, 4, 6, 5, 8, 9, 3, 5, 6, 0];
    assert v == payload + [0] && v[..3][0] == 1;
    ForeignCheckDigit();
    ParseValuesOfNumber(Nav13(payload, 0));
  }

  /** Any other check digit on an accepted number is refused with code 66, claiming that digit. */
  lemma OtherCheckDigitRejected(n: Nav13, c: Byte)
    requires Accepted(n) && c <= 9 && c != n.check
    ensures IsAscii(Format(n.(check := c)))
    ensures Parse(Format(n.(check := c))) == Err(InvalidChecksum(c))
  {
    var m := n.(check := c);
    DigitsOfFormat(m);
    assert Values(m)[..12] == n.digits;
  }

  /** Changing one of the nine free digits of an accepted number is caught by the check digit (code 66). */
  lemma ChangedDigitRejected(n: Nav13, i: nat, x: Byte)
    requires Accepted(n) && 3 <= i < 12 && x <= 9 && x != n.digits[i]
    ensures IsAscii(Format(n.(digits := n.digits[i := x])))
    ensures Parse(Format(n.(digits := n.digits[i := x]))) == Err(InvalidChecksum(n.check))
  {
    var m := n.(digits := n.digits[i := x]);
    DigitsOfFormat(m);
    DetectsSingleDigitError(n.digits, i, x);
    assert Values(m)[..12] == m.digits;
  }

  /** Grouped text is ASCII and parses exactly as the concatenated groups do. */
  lemma {:induction false} ParseGrouped(a: seq<Byte>, b: seq<Byte>, c: seq<Byte>, d: seq<Byte>, v: seq<Byte>)
    requires AllDecimal(a) && AllDecimal(b) && AllDecimal(c) && AllDecimal(d) && v == a + b + c + d
    ensures IsAscii(Grouped(a, b, c, d))
    ensures AllDecimal(v) && Parse(Grouped(a, b, c, d)) == ParseValues(v)
  {
    var t := Grouped(a, b, c, d);
    forall k | 0 <= k < |t| ensures t[k] as int < 128 {
      assert IsDigitChar(t[k]) || t[k] == '.';
    }
    DigitsOfGrouped(a, b, c, d);
  }

  /** The check digit of the unit tests' example payload 756.2465.8935.6 is 4. */
  lemma ExampleCheckDigit()
    ensures Check([7, 5, 6, 2, 4, 6, 5, 8, 9, 3, 5, 6]) == 4
  {
    WeightedSumOfTwelve([7, 5, 6, 2, 4, 6, 5, 8, 9, 3, 5, 6]);
  }

  /** The verdict of the checks on the example payload followed by check digit `c`. */
  lemma ExampleVerdict(c: Byte)
    requires c <= 9
    ensures ParseValues([7, 5, 6, 2, 4, 6, 5, 8, 9, 3, 5, 6, c])
            == if c == 4 then Ok(Nav13([7, 5, 6, 2, 4, 6, 5, 8, 9, 3, 5, 6], 4)) else Err(InvalidChecksum(c))
  {
    var payload: seq<Byte> := [7, 5, 6, 2, 4, 6, 5, 8, 9, 3, 5, 6];
    var v := payload + [c];
    assert v == [7, 5, 6, 2, 4, 6, 5, 8, 9, 3, 5, 6, c];
    assert |v| == 13 && v[..12] == payload && v[12] == c && !CountryRejected(v);
    ExampleCheckDigit();
  }

  /** The unit test `test_from_str_ok`: the example number is accepted. */
  lemma KnownParseOk()
    ensures IsAscii("756.2465.8935.64")
    ensures Parse("756.2465.8935.64") == Ok(Nav13([7, 5, 6, 2, 4, 6, 5, 8, 9, 3, 5, 6], 4))
  {
    ExampleText();
    ParseGrouped([7, 5, 6], [2, 4, 6, 5], [8, 9, 3, 5], [6, 4], [7, 5, 6, 2, 4, 6, 5, 8, 9, 3, 5, 6, 4]);
    ExampleVerdict(4);
  }

  /** The unit test `test_from_str_nok_ean`: the example number with check digit 5 instead of 4, code 66. */
  lemma KnownParseWrongCheck()
    ensures IsAscii("756.2465.8935.65")
    ensures Parse("756.2465.8935.65") == Err(InvalidChecksum(5))
    ensures InvalidChecksum(5).Code() == 66
  {
    ExampleWrongCheckText();
    ParseGrouped([7, 5, 6], [2, 4, 6, 5], [8, 9, 3, 5], [6, 5], [7, 5, 6, 2, 4, 6, 5, 8, 9, 3, 5, 6, 5]);
    ExampleVerdict(5);
  }

  lemma ExampleText()
    ensures "756.2465.8935.64" == Grouped([7, 5, 6], [2, 4, 6, 5], [8, 9, 3, 5], [6, 4])
    ensures [7, 5, 6] + [2, 4, 6, 5] + [8, 9, 3, 5] + [6, 4] == [7, 5, 6, 2, 4, 6, 5, 8, 9, 3, 5, 6, 4]
  {
  }

  lemma ExampleWrongCheckText()
    ensures "756.2465.8935.65" == Grouped([7, 5, 6], [2, 4, 6, 5], [8, 9, 3, 5], [6, 5])
    ensures [7, 5, 6] + [2, 4, 6, 5] + [8, 9, 3, 5] + [6, 5] == [7, 5, 6, 2, 4, 6, 5, 8, 9, 3, 5, 6, 5]
  {
  }


  /** The unit test `test_from_str_nok_len_short`: twelve digits give code 64. */
  lemma KnownParseTooShort()
    ensures IsAscii("756.246.8935.64") && Parse("756.246.8935.64") == Err(InvalidLength(12))
    ensures InvalidLength(12).Code() == 64
  {
    TooShortText();
    ParseGrouped([7, 5, 6], [2, 4, 6], [8, 9, 3, 5], [6, 4], [7, 5, 6, 2, 4, 6, 8, 9, 3, 5, 6, 4]);
  }

  /** The unit test `test_from_str_nok_len_long`: fifteen digits give code 64. */
  lemma KnownParseTooLong()
    ensures IsAscii("756.246.8935.64789") && Parse("756.246.8935.64789") == Err(InvalidLength(15))
    ensures InvalidLength(15).Code() == 64
  {
    TooLongText();
    ParseGrouped([7, 5, 6], [2, 4, 6], [8, 9, 3, 5], [6, 4, 7, 8, 9], [7, 5, 6, 2, 4, 6, 8, 9, 3, 5, 6, 4, 7, 8, 9]);
  }

  lemma TooShortText()
    ensures AllDecimal([7, 5, 6]) && AllDecimal([2, 4, 6]) && AllDecimal([8, 9, 3, 5]) && AllDecimal([6, 4])
    ensures "756.246.8935.64" == Grouped([7, 5, 6], [2, 4, 6], [8, 9, 3, 5], [6, 4])
    ensures [7, 5, 6] + [2, 4, 6] + [8, 9, 3, 5] + [6, 4] == [7, 5, 6, 2, 4, 6, 8, 9, 3, 5, 6, 4]
  {
  }

  lemma TooLongText()
    ensures AllDecimal([7, 5, 6]) && AllDecimal([2, 4, 6]) && AllDecimal([8, 9, 3, 5]) && AllDecimal([6, 4, 7, 8, 9])
    ensures "756.246.8935.64789" == Grouped([7, 5, 6], [2, 4, 6], [8, 9, 3, 5], [6, 4, 7, 8, 9])
    ensures [7, 5, 6] + [2, 4, 6] + [8, 9, 3, 5] + [6, 4, 7, 8, 9] == [7, 5, 6, 2, 4, 6, 8, 9, 3, 5, 6, 4, 7, 8, 9]
  {
  }


  /** The unit test `test_from_str_nok_iso`: the prefix 471 differs from 756 in every position, code 65. */
  lemma KnownParseWrongCountry()
    ensures IsAscii("471.9512.0028.88")
    ensures Parse("471.9512.0028.88") == Err(InvalidCountryCode(4, 7, 1))
    ensures InvalidCountryCode(4, 7, 1).Code() == 65
  {
    WrongCountryText();
    ParseGrouped([4, 7, 1], [9, 5, 1, 2], [0, 0, 2, 8], [8, 8], [4, 7, 1, 9, 5, 1, 2, 0, 0, 2, 8, 8, 8]);
    WrongCountryVerdict();
  }

  /** The digits 471.9512.0028.88 fail the country test as written. */
  lemma WrongCountryVerdict()
    ensures ParseValues([4, 7, 1, 9, 5, 1, 2, 0, 0, 2, 8, 8, 8]) == Err(InvalidCountryCode(4, 7, 1))
  {
    var v: seq<Byte> := [4, 7, 1, 9, 5, 1, 2, 0, 0, 2, 8, 8, 8];
    assert |v| == 13 && CountryRejected(v);
  }

  lemma WrongCountryText()
    ensures AllDecimal([4, 7, 1]) && AllDecimal([9, 5, 1, 2]) && AllDecimal([0, 0, 2, 8]) && AllDecimal([8, 8])
    ensures "471.9512.0028.88" == Grouped([4, 7, 1], [9, 5, 1, 2], [0, 0, 2, 8], [8, 8])
    ensures [4, 7, 1] + [9, 5, 1, 2] + [0, 0, 2, 8] + [8, 8] == [4, 7, 1, 9, 5, 1, 2, 0, 0, 2, 8, 8, 8]
  {
  }
}
