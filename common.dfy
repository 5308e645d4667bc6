/** Small building blocks shared by the document and search-queue models:
    optional values and results, Java `long` parsing, Java's truncating
    integer division, the byte-to-kilobyte conversion and string joining. */
module Common {

  datatype Option<+T> = None | Some(value: T)

  datatype Result<+T, +E> = Success(value: T) | Failure(error: E)

  /** Bounds of Java's 64-bit `long`. */
  const MinLong: int := -0x8000_0000_0000_0000
  const MaxLong: int := 0x7FFF_FFFF_FFFF_FFFF

  // ---------------------------------------------------------------------
  // Java integer division and remainder (both truncate toward zero)
  // ---------------------------------------------------------------------

  /** Java's `/`: the quotient truncated toward zero. For a non-negative
      dividend `q * b` is the largest multiple of `b` not above it; for a
      negative one, the smallest multiple of `b` not below it. */
  function JavaDiv(a: int, b: int): (q: int)
    requires b > 0
    ensures a >= 0 ==> q >= 0 && q * b <= a < q * b + b
    ensures a < 0 ==> q <= 0 && q * b - b < a <= q * b
  {
    if a >= 0 then a / b else -((-a) / b)
  }

  /** Java's `%`: what is left after the truncating quotient; it takes the
      sign of the dividend. */
  function JavaRem(a: int, b: int): (r: int)
    requires b > 0
    ensures a == JavaDiv(a, b) * b + r
    ensures -b < r < b
    ensures a >= 0 ==> r >= 0
    ensures a < 0 ==> r <= 0
  {
    a - JavaDiv(a, b) * b
  }

  /** The size in kilobytes computed from a size in bytes: the truncated
      quotient by 1024, plus one whenever the remainder is not zero. */
  function KiloBytes(bytes: int): int
  {
    JavaDiv(bytes, 1024) + (if JavaRem(bytes, 1024) == 0 then 0 else 1)
  }

  /** For non-negative sizes the conversion is ceiling division: the result
      is the least number of whole kilobytes that hold `bytes`. */
  lemma KiloBytesIsCeiling(bytes: int)
    requires bytes >= 0
    ensures KiloBytes(bytes) >= 0
    ensures KiloBytes(bytes) * 1024 >= bytes
    ensures (KiloBytes(bytes) - 1) * 1024 < bytes || bytes == 0
    ensures KiloBytes(bytes) == (bytes + 1023) / 1024
  {
    var q, r := bytes / 1024, bytes % 1024;
    assert bytes == q * 1024 + r && 0 <= r < 1024;
    assert JavaDiv(bytes, 1024) == q;
    assert JavaRem(bytes, 1024) == r;
    if r == 0 {
      assert KiloBytes(bytes) == q;
      assert bytes + 1023 == q * 1024 + 1023;
    } else {
      assert KiloBytes(bytes) == q + 1;
      assert bytes + 1023 == (q + 1) * 1024 + (r - 1);
    }
  }

  /** The two cases of the conversion as they read for non-negative sizes:
      an exact multiple of 1024 is not rounded, anything else is rounded up. */
  lemma KiloBytesCases(bytes: int)
    requires bytes >= 0
    ensures bytes % 1024 == 0 ==> KiloBytes(bytes) == bytes / 1024
    ensures bytes % 1024 != 0 ==> KiloBytes(bytes) == bytes / 1024 + 1
  {
    assert JavaDiv(bytes, 1024) == bytes / 1024;
    assert JavaRem(bytes, 1024) == bytes % 1024;
  }

  // ---------------------------------------------------------------------
  // Long.valueOf(String): an optional sign, then ASCII decimal digits
  // ---------------------------------------------------------------------

  predicate IsDigit(c: char)
  {
    '0' <= c <= '9'
  }

  predicate AllDigits(s: string)
  {
    forall i :: 0 <= i < |s| ==> IsDigit(s[i])
  }

  function DigitsValue(s: string): (v: nat)
    requires AllDigits(s)
    decreases |s|
  {
    if s == [] then 0
    else DigitsValue(s[..|s| - 1]) * 10 + (s[|s| - 1] as int - '0' as int)
  }

  /** Whether the text starts with a sign that `Long.valueOf` accepts. */
  predicate HasSign(s: string)
  {
    |s| > 0 && (s[0] == '-' || s[0] == '+')
  }

  /** The text after an optional leading sign. */
  function Unsigned(s: string): string
  {
    if HasSign(s) then s[1..] else s
  }

  /** Parses a decimal `long`; `None` stands for the NumberFormatException
      thrown on an empty or malformed string or a value out of range. */
  function ParseLong(s: string): (r: Option<int>)
    ensures r.Some? <==>
              && |Unsigned(s)| > 0 && AllDigits(Unsigned(s))
              && (if HasSign(s) && s[0] == '-' then DigitsValue(Unsigned(s)) <= -MinLong
                  else DigitsValue(Unsigned(s)) <= MaxLong)
    ensures r.Some? ==> r.value == if s[0] == '-' then -(DigitsValue(s[1..]) as int) else DigitsValue(Unsigned(s))
    ensures r.Some? ==> MinLong <= r.value <= MaxLong
  {
    var digits := Unsigned(s);
    if |digits| == 0 || !AllDigits(digits) then None
    else
      var magnitude: int := DigitsValue(digits);
      var v: int := if HasSign(s) && s[0] == '-' then -magnitude else magnitude;
      if MinLong <= v <= MaxLong then Some(v) else None
  }

  /** The decimal text of a natural number, as the indexer writes sizes. */
  function Decimal(n: nat): (s: string)
    ensures |s| > 0 && AllDigits(s)
    decreases n
  {
    var last := ['0' + ((n % 10) as char)];
    if n < 10 then last else Decimal(n / 10) + last
  }

  lemma {:induction false} DigitsValueOfDecimal(n: nat)
    ensures DigitsValue(Decimal(n)) == n
    decreases n
  {
    var s := Decimal(n);
    if n < 10 {
      assert s[..|s| - 1] == [];
    } else {
      DigitsValueOfDecimal(n / 10);
      assert s[..|s| - 1] == Decimal(n / 10);
    }
  }

  /** Round trip: parsing the decimal text of an in-range size gives it back. */
  lemma ParseDecimal(n: nat)
    requires n <= MaxLong
    ensures ParseLong(Decimal(n)) == Some(n)
  {
    DigitsValueOfDecimal(n);
  }

  /** The same with a sign: "+" keeps the value, "-" negates it, down to
      `Long.MIN_VALUE`, and beyond the range the text does not parse. */
  lemma ParseSignedDecimal(n: nat)
    ensures n <= MaxLong ==> ParseLong("+" + Decimal(n)) == Some(n)
    ensures n <= -MinLong ==> ParseLong("-" + Decimal(n)) == Some(-(n as int))
    ensures n > MaxLong ==> ParseLong(Decimal(n)) == None && ParseLong("+" + Decimal(n)) == None
    ensures n > -MinLong ==> ParseLong("-" + Decimal(n)) == None
  {
    DigitsValueOfDecimal(n);
    assert ("+" + Decimal(n))[1..] == Decimal(n);
    assert ("-" + Decimal(n))[1..] == Decimal(n);
  }

  /** Text with no digits, or with a character that is not a digit after
      the optional sign, does not parse. */
  lemma ParseRejectsMalformed(s: string, i: nat)
    ensures ParseLong("") == None && ParseLong("-") == None && ParseLong("+") == None
    ensures i < |Unsigned(s)| && !IsDigit(Unsigned(s)[i]) ==> ParseLong(s) == None
  {
    assert Unsigned("-") == [];
    assert Unsigned("+") == [];
  }

  // ---------------------------------------------------------------------
  // Joining strings with a separator
  // ---------------------------------------------------------------------

  function Join(sep: string, parts: seq<string>): (r: string)
    decreases |parts|
  {
    if parts == [] then ""
    else if |parts| == 1 then parts[0]
    else Join(sep, parts[..|parts| - 1]) + sep + parts[|parts| - 1]
  }

  function TotalLength(parts: seq<string>): nat
    decreases |parts|
  {
    if parts == [] then 0 else TotalLength(parts[..|parts| - 1]) + |parts[|parts| - 1]|
  }

  /** The joined string holds every part and one separator between each two. */
  lemma {:induction false} JoinLength(sep: string, parts: seq<string>)
    requires |parts| > 0
    ensures |Join(sep, parts)| == TotalLength(parts) + (|parts| - 1) * |sep|
    decreases |parts|
  {
    if |parts| == 1 {
      assert parts[..0] == [];
    } else {
      JoinLength(sep, parts[..|parts| - 1]);
    }
  }

  /** The last part ends the joined string, after all other parts and
      their separators. */
  lemma JoinEndsWithLast(sep: string, parts: seq<string>)
    requires |parts| > 1
    ensures var k := |parts| - 1;
            var off := TotalLength(parts[..k]) + k * |sep|;
            off + |parts[k]| == |Join(sep, parts)| &&
            Join(sep, parts)[off..] == parts[k]
  {
    var k := |parts| - 1;
    var init := parts[..k];
    var prefix := Join(sep, init);
    JoinLength(sep, init);
    assert (k - 1) * |sep| + |sep| == k * |sep|;
    assert |prefix + sep| == TotalLength(init) + k * |sep|;
    assert Join(sep, parts) == (prefix + sep) + parts[k];
  }

  /** Between each part and the next, the joined string holds the separator. */
  lemma {:induction false} JoinSeparatesParts(sep: string, parts: seq<string>, k: nat)
    requires k + 1 < |parts|
    ensures var off := TotalLength(parts[..k + 1]) + k * |sep|;
            off + |sep| <= |Join(sep, parts)| &&
            Join(sep, parts)[off..off + |sep|] == sep
    decreases |parts|
  {
    var n := |parts|;
    var init := parts[..n - 1];
    var whole, prefix := Join(sep, parts), Join(sep, init);
    assert whole == prefix + sep + parts[n - 1];
    var off := TotalLength(parts[..k + 1]) + k * |sep|;
    if k + 1 == n - 1 {
      assert parts[..k + 1] == init;
      JoinLength(sep, init);
      assert off == |prefix|;
    } else {
      JoinSeparatesParts(sep, init, k);
      assert init[..k + 1] == parts[..k + 1];
      assert whole[..|prefix|] == prefix;
      assert whole[off..off + |sep|] == prefix[off..off + |sep|];
    }
  }

  /** Every part occurs in the joined string, in order, at the offset given
      by the parts and separators before it. */
  lemma {:induction false} JoinContainsParts(sep: string, parts: seq<string>, k: nat)
    requires k < |parts|
    ensures var off := TotalLength(parts[..k]) + k * |sep|;
            off + |parts[k]| <= |Join(sep, parts)| &&
            Join(sep, parts)[off..off + |parts[k]|] == parts[k]
    decreases |parts|
  {
    var n := |parts|;
    if n == 1 {
      assert parts[..0] == [];
    } else if k == n - 1 {
      JoinEndsWithLast(sep, parts);
    } else {
      var init := parts[..n - 1];
      var whole, prefix := Join(sep, parts), Join(sep, init);
      assert whole == prefix + sep + parts[n - 1];
      JoinContainsParts(sep, init, k);
      assert init[..k] == parts[..k] && init[k] == parts[k];
      var off := TotalLength(parts[..k]) + k * |sep|;
      assert whole[..|prefix|] == prefix;
      assert whole[off..off + |parts[k]|] == prefix[off..off + |parts[k]|];
    }
  }
}
