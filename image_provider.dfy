/** Image sizes: the `WIDTHxHEIGHT` form they are written in and read back
    from, and their pixel count. Go's `int` is 64 bits wide and wraps around;
    the model writes that wrap-around out wherever the source computes with
    it. Go strings are bytes, the model's are characters: the parser reads
    only ASCII digits and separators and rejects every other byte, so the
    two agree on every input. */
module ImageProvider {
  import opened Wrappers
  import opened ImageErrors

  datatype ImageSize = ImageSize(width: int, height: int)

  const Two63: int := 0x8000_0000_0000_0000
  const Two64: int := 0x1_0000_0000_0000_0000

  /** A 64-bit signed integer's wrap-around. */
  function Wrap64(x: int): (r: int)
    ensures -Two63 <= r < Two63
    ensures -Two63 <= x < Two63 ==> r == x
  {
    (x + Two63) % Two64 - Two63
  }

  /** `rune(x)` of an `int`: the low 32 bits, signed. */
  function Wrap32(x: int): (r: int)
    ensures -0x8000_0000 <= r < 0x8000_0000
    ensures -0x8000_0000 <= x < 0x8000_0000 ==> r == x
  {
    (x + 0x8000_0000) % 0x1_0000_0000 - 0x8000_0000
  }

  /** Go's `/` on `int`, which truncates toward zero. */
  function Quo(a: int, b: int): int
    requires b > 0
  {
    if a >= 0 then a / b else -((-a) / b)
  }

  /** Go's `%`, whose sign follows the dividend. */
  function Rem(a: int, b: int): int
    requires b > 0
  {
    a - b * Quo(a, b)
  }

  /** `string(rune(x))`: the character, or U+FFFD when the value is not a
      Unicode scalar value. */
  function RuneString(x: int): string
  {
    var r := Wrap32(x);
    if 0 <= r < 0xD800 || 0xE000 <= r <= 0x10FFFF then [r as char] else ['�']
  }

  /** The four characters `formatSize` writes for one dimension. */
  function Pad4(v: int): string
  {
    RuneString('0' as int + Quo(v, 1000)) + RuneString('0' as int + Quo(Rem(v, 1000), 100))
    + RuneString('0' as int + Quo(Rem(v, 100), 10)) + RuneString('0' as int + Rem(v, 10))
  }

  predicate IsDigit(c: char)
  {
    '0' <= c <= '9'
  }

  predicate AllDigits(s: string)
  {
    forall i :: 0 <= i < |s| ==> IsDigit(s[i])
  }

  predicate IsSeparator(c: char)
  {
    c == 'x' || c == 'X'
  }

  function DigitValue(c: char): int
  {
    c as int - '0' as int
  }

  /** The value `w = w*10 + digit` accumulates over a digit string, with the
      64-bit wrap-around of each step. */
  function Value(ds: string): (v: int)
    ensures -Two63 <= v < Two63
  {
    if ds == [] then 0 else Wrap64(Value(ds[..|ds| - 1]) * 10 + DigitValue(ds[|ds| - 1]))
  }

  /** `formatSize`. */
  function FormatSize(width: int, height: int): (r: string)
    ensures 0 <= width <= 9999 && 0 <= height <= 9999 ==>
      && |r| == 9 && r[4] == 'x' && AllDigits(r[..4]) && AllDigits(r[5..])
      && Value(r[..4]) == width && Value(r[5..]) == height
  {
    var r := Pad4(width) + "x" + Pad4(height);
    if 0 <= width <= 9999 && 0 <= height <= 9999 then
      Pad4Meaning(width);
      Pad4Meaning(height);
      assert r[..4] == Pad4(width) && r[5..] == Pad4(height);
      r
    else r
  }

  /** `ImageSize.String`. */
  function SizeString(s: ImageSize): string
  {
    FormatSize(s.width, s.height)
  }

  /** `ImageSize.Pixels`: the product, wrapped to 64 bits. */
  function Pixels(s: ImageSize): (p: int)
  {
    Wrap64(s.width * s.height)
  }

  /** Within 0..9999 a dimension is four zero-padded decimal digits whose
      value is the dimension. */
  lemma Pad4Meaning(v: int)
    requires 0 <= v <= 9999
    ensures |Pad4(v)| == 4 && AllDigits(Pad4(v)) && Value(Pad4(v)) == v
  {
    var a, b, c, d := v / 1000, v % 1000 / 100, v % 100 / 10, v % 10;
    GoDigits(v);
    assert Pad4(v) == [DigitChar(a), DigitChar(b), DigitChar(c), DigitChar(d)];
    FourDigitsValue(a, b, c, d);
    Decimal4(v);
  }

  function DigitChar(d: int): char
    requires 0 <= d <= 9
  {
    ('0' as int + d) as char
  }

  /** For 0..9999, Go's quotients and remainders are the Euclidean ones, and
      each digit is below 10. */
  lemma GoDigits(v: int)
    requires 0 <= v <= 9999
    ensures Quo(v, 1000) == v / 1000 <= 9 && Rem(v, 1000) == v % 1000
    ensures Quo(v % 1000, 100) == v % 1000 / 100 <= 9 && Rem(v, 100) == v % 100
    ensures Quo(v % 100, 10) == v % 100 / 10 <= 9 && Rem(v, 10) == v % 10
  {
  }

  lemma FourDigitsValue(a: int, b: int, c: int, d: int)
    requires 0 <= a <= 9 && 0 <= b <= 9 && 0 <= c <= 9 && 0 <= d <= 9
    ensures var p := [DigitChar(a), DigitChar(b), DigitChar(c), DigitChar(d)];
      AllDigits(p) && Value(p) == ((a * 10 + b) * 10 + c) * 10 + d
  {
    var p := [DigitChar(a), DigitChar(b), DigitChar(c), DigitChar(d)];
    assert p[..3] == [DigitChar(a), DigitChar(b), DigitChar(c)];
    assert p[..3][..2] == [DigitChar(a), DigitChar(b)];
    assert p[..3][..2][..1] == [DigitChar(a)] && [DigitChar(a)][..0] == [];
    assert Value([DigitChar(a)]) == a;
    assert Value(p[..3][..2]) == a * 10 + b;
    assert Value(p[..3]) == (a * 10 + b) * 10 + c;
  }

  lemma Decimal4(v: int)
    requires 0 <= v <= 9999
    ensures ((v / 1000 * 10 + v % 1000 / 100) * 10 + v % 100 / 10) * 10 + v % 10 == v
  {
    DropDigit(v, 100);
    DropDigit(v, 10);
    DropDigit(v, 1);
  }

  /** Going from quotient by `10 * m` to quotient by `m` appends the next
      decimal digit, for the powers of ten used by `Pad4`. */
  lemma DropDigit(v: int, m: int)
    requires 0 <= v && (m == 1 || m == 10 || m == 100)
    ensures v / (10 * m) * 10 + v % (10 * m) / m == v / m
  {
    if m == 1 {
      assert v / 10 * 10 + v % 10 == v;
    } else if m == 10 {
      var q, r := v / 100, v % 100;
      assert v == 10 * (10 * q + r / 10) + r % 10;
    } else {
      var q, r := v / 1000, v % 1000;
      assert v == 100 * (10 * q + r / 100) + r % 100;
    }
  }


  // ---------------------------------------------------------------------------
  // parseSize

  /** The index of the first character that is not a digit, or the length. */
  function FirstNonDigit(s: string): (k: nat)
    ensures k <= |s| && AllDigits(s[..k])
    ensures k < |s| ==> !IsDigit(s[k])
  {
    if s == [] || !IsDigit(s[0]) then 0
    else
      var k := 1 + FirstNonDigit(s[1..]);
      assert forall i :: 1 <= i < k ==> s[..k][i] == s[1..][..k - 1][i - 1];
      k
  }

  /** What `parseSize` accepts and the size it reads: digits, then `x` or
      `X`, then digits only, neither value zero. */
  function ParsedSize(s: string): Option<ImageSize>
  {
    var k := FirstNonDigit(s);
    if k == |s| || !IsSeparator(s[k]) || !AllDigits(s[k + 1..]) then None
    else
      var w, h := Value(s[..k]), Value(s[k + 1..]);
      if w == 0 || h == 0 then None else Some(ImageSize(w, h))
  }

  lemma FirstNonDigitAt(s: string, i: nat)
    requires i <= |s| && AllDigits(s[..i]) && (i == |s| || !IsDigit(s[i]))
    ensures FirstNonDigit(s) == i
  {
    var k := FirstNonDigit(s);
    assert forall j :: 0 <= j < i ==> IsDigit(s[j]) by {
      forall j | 0 <= j < i ensures IsDigit(s[j]) { assert s[..i][j] == s[j]; }
    }
    assert forall j :: 0 <= j < k ==> IsDigit(s[j]) by {
      forall j | 0 <= j < k ensures IsDigit(s[j]) { assert s[..k][j] == s[j]; }
    }
  }

  /** Reading `ds`, a separator and `es` where both are digit strings gives
      their values, unless one is zero; these are the only strings accepted. */
  lemma ParsedSizeMeaning(s: string)
    ensures ParsedSize(s).Some? <==>
      exists k :: 0 <= k < |s| && AllDigits(s[..k]) && IsSeparator(s[k]) && AllDigits(s[k + 1..])
                  && Value(s[..k]) != 0 && Value(s[k + 1..]) != 0
    ensures ParsedSize(s).Some? ==>
      exists k :: 0 <= k < |s| && AllDigits(s[..k]) && IsSeparator(s[k])
                  && ParsedSize(s).value == ImageSize(Value(s[..k]), Value(s[k + 1..]))
  {
    forall k | 0 <= k < |s| && AllDigits(s[..k]) && IsSeparator(s[k])
      ensures FirstNonDigit(s) == k
    {
      FirstNonDigitAt(s, k);
    }
  }

  /** The parse of a digit string, a separator and a digit string. */
  lemma ParseParts(ds: string, sep: char, es: string)
    requires AllDigits(ds) && IsSeparator(sep) && AllDigits(es)
    ensures ParsedSize(ds + [sep] + es) ==
      if Value(ds) == 0 || Value(es) == 0 then None else Some(ImageSize(Value(ds), Value(es)))
  {
    var s := ds + [sep] + es;
    assert s[..|ds|] == ds && s[|ds|] == sep && s[|ds| + 1..] == es;
    FirstNonDigitAt(s, |ds|);
  }

  /** One more digit: the string stays a digit string and its value takes
      one accumulation step. */
  lemma DigitsSnoc(ds: string, c: char)
    requires AllDigits(ds) && IsDigit(c)
    ensures AllDigits(ds + [c]) && Value(ds + [c]) == Wrap64(Value(ds) * 10 + DigitValue(c))
  {
    assert (ds + [c])[..|ds|] == ds;
  }

  /** A first non-digit that is not a separator (or none) is rejected. */
  lemma RejectedAt(s: string, k: nat)
    requires k == FirstNonDigit(s) && (k == |s| || !IsSeparator(s[k]))
    ensures ParsedSize(s).None?
  {
  }

  /** A non-digit after the separator is rejected. */
  lemma RejectedAfter(s: string, k: nat, j: nat)
    requires k == FirstNonDigit(s) && k < j < |s| && !IsDigit(s[j])
    ensures ParsedSize(s).None?
  {
    assert s[k + 1..][j - k - 1] == s[j];
  }

  /** Digits, a separator and digits: the values read, unless one is zero. */
  lemma AcceptedWith(s: string, k: nat)
    requires k == FirstNonDigit(s) && k < |s| && IsSeparator(s[k]) && AllDigits(s[k + 1..])
    ensures ParsedSize(s) ==
      if Value(s[..k]) == 0 || Value(s[k + 1..]) == 0 then None else Some(ImageSize(Value(s[..k]), Value(s[k + 1..])))
  {
  }

  /** A cell an `*int` output parameter points to. */
  class IntCell {
    var value: int

    constructor (value: int)
      ensures this.value == value
    {
      this.value := value;
    }
  }

  /** `parseSize`: the width digits accumulated up to the separator, the
      height digits after it; any other character, a missing separator or a
      zero dimension fails with `ErrInvalidSize` and leaves the outputs as
      they were; success writes the width, then the height. */
  method ParseSizeInto(s: string, width: IntCell, height: IntCell) returns (ok: bool, err: Option<Error>)
    modifies width, height
    ensures ok <==> ParsedSize(s).Some?
    ensures !ok ==> err == Some(Sentinel(InvalidSize)) && width.value == old(width.value) && height.value == old(height.value)
    ensures ok ==> err.None? && height.value == ParsedSize(s).value.height
    ensures ok && width != height ==> width.value == ParsedSize(s).value.width
  {
    var w, n := ReadWidth(s);
    if n == 0 {
      return false, Some(Sentinel(InvalidSize));
    }
    var h, digits := ReadHeight(s, n);
    if !digits {
      return false, Some(Sentinel(InvalidSize));
    }
    AcceptedWith(s, n - 1);
    if w == 0 || h == 0 {
      return false, Some(Sentinel(InvalidSize));
    }
    width.value := w;
    height.value := h;
    return true, None;
  }

  /** `parseSize`'s first loop: the width accumulated digit by digit up to
      the separator, whose successor position it returns; 0 when a
      character other than a digit or a separator comes first, or there is
      no separator, and the string is then rejected. */
  method ReadWidth(s: string) returns (w: int, n: nat)
    ensures n <= |s|
    ensures n == 0 ==> ParsedSize(s).None?
    ensures n > 0 ==> FirstNonDigit(s) == n - 1 && IsSeparator(s[n - 1]) && w == Value(s[..n - 1])
  {
    w, n := 0, 0;
    var i := 0;
    while i < |s|
      invariant 0 <= i <= |s| && n == 0
      invariant AllDigits(s[..i]) && w == Value(s[..i])
    {
      if IsDigit(s[i]) {
        assert s[..i + 1] == s[..i] + [s[i]];
        DigitsSnoc(s[..i], s[i]);
        w := Wrap64(w * 10 + DigitValue(s[i]));
      } else if IsSeparator(s[i]) {
        FirstNonDigitAt(s, i);
        return w, i + 1;
      } else {
        FirstNonDigitAt(s, i);
        RejectedAt(s, i);
        return w, 0;
      }
      i := i + 1;
    }
    FirstNonDigitAt(s, |s|);
    RejectedAt(s, |s|);
  }

  /** `parseSize`'s second loop: the height accumulated digit by digit from
      position `n`; `digits` is false when a non-digit follows. */
  method ReadHeight(s: string, n: nat) returns (h: int, digits: bool)
    requires n <= |s|
    ensures digits <==> AllDigits(s[n..])
    ensures digits ==> h == Value(s[n..])
  {
    h := 0;
    var i := n;
    while i < |s|
      invariant n <= i <= |s|
      invariant AllDigits(s[n..i]) && h == Value(s[n..i])
    {
      if IsDigit(s[i]) {
        assert s[n..i + 1] == s[n..i] + [s[i]];
        DigitsSnoc(s[n..i], s[i]);
        h := Wrap64(h * 10 + DigitValue(s[i]));
      } else {
        assert s[n..][i - n] == s[i];
        return h, false;
      }
      i := i + 1;
    }
    assert s[n..|s|] == s[n..];
    return h, true;
  }

  /** `ParseSize`: the size read, or the zero size with `ErrInvalidSize`. */
  method ParseSize(s: string) returns (size: ImageSize, err: Option<Error>)
    ensures ParsedSize(s).Some? ==> size == ParsedSize(s).value && err.None?
    ensures ParsedSize(s).None? ==> size == ImageSize(0, 0) && err == Some(Sentinel(InvalidSize))
  {
    var width := new IntCell(0);
    var height := new IntCell(0);
    var ok;
    ok, err := ParseSizeInto(s, width, height);
    if err.Some? {
      return ImageSize(0, 0), err;
    }
    return ImageSize(width.value, height.value), None;
  }

  /** Every size with both dimensions in 1..9999 reads back from its string. */
  lemma SizeRoundTrip(s: ImageSize)
    requires 1 <= s.width <= 9999 && 1 <= s.height <= 9999
    ensures ParsedSize(SizeString(s)) == Some(s)
  {
    var r := SizeString(s);
    AroundSeparator(r);
    ParseParts(r[..4], 'x', r[5..]);
  }

  /** A nine-character size string is its width digits, the separator and
      its height digits. */
  lemma AroundSeparator(r: string)
    requires |r| == 9
    ensures r == r[..4] + [r[4]] + r[5..]
  {
  }

  /** A zero dimension is written as `0000` and not read back. */
  lemma ZeroSizeRejected(s: ImageSize)
    requires 0 <= s.width <= 9999 && 0 <= s.height <= 9999 && (s.width == 0 || s.height == 0)
    ensures ParsedSize(SizeString(s)).None?
  {
    var r := SizeString(s);
    AroundSeparator(r);
    ParseParts(r[..4], 'x', r[5..]);
  }

  function Zeros(n: nat): (z: string)
    ensures |z| == n && AllDigits(z)
  {
    seq(n, _ => '0')
  }

  /** Leading zeros add nothing to a value. */
  lemma {:induction false} LeadingZerosIgnored(z: nat, ds: string)
    ensures Value(Zeros(z) + ds) == Value(ds)
    decreases |ds|
  {
    if ds == [] {
      ZerosValue(z);
      assert Zeros(z) + ds == Zeros(z);
    } else {
      var init := ds[..|ds| - 1];
      LeadingZerosIgnored(z, init);
      assert (Zeros(z) + ds)[..|Zeros(z) + ds| - 1] == Zeros(z) + init;
    }
  }

  lemma {:induction false} ZerosValue(z: nat)
    ensures Value(Zeros(z)) == 0
  {
    if z > 0 {
      ZerosValue(z - 1);
      assert Zeros(z)[..z - 1] == Zeros(z - 1);
    }
  }

  /** The size string with any number of extra leading zeros on either
      dimension, and either separator, still reads back as the size. */
  lemma LeadingZerosAccepted(s: ImageSize, a: nat, b: nat, sep: char)
    requires 1 <= s.width <= 9999 && 1 <= s.height <= 9999 && IsSeparator(sep)
    ensures ParsedSize(Zeros(a) + Pad4(s.width) + [sep] + Zeros(b) + Pad4(s.height)) == Some(s)
  {
    Pad4Meaning(s.width);
    Pad4Meaning(s.height);
    var ds, es := Zeros(a) + Pad4(s.width), Zeros(b) + Pad4(s.height);
    assert AllDigits(ds) && AllDigits(es);
    LeadingZerosIgnored(a, Pad4(s.width));
    LeadingZerosIgnored(b, Pad4(s.height));
    assert Zeros(a) + Pad4(s.width) + [sep] + Zeros(b) + Pad4(s.height) == ds + [sep] + es;
    ParseParts(ds, sep, es);
  }

  function Pow10(n: nat): (p: nat)
    ensures p >= 1
  {
    if n == 0 then 1 else 10 * Pow10(n - 1)
  }

  /** The decimal value of a digit string, without wrap-around. */
  function Decimal(ds: string): int
  {
    if ds == [] then 0 else Decimal(ds[..|ds| - 1]) * 10 + DigitValue(ds[|ds| - 1])
  }

  /** Up to 18 digits never wrap: the value is the decimal one, below
      10^|ds|. Longer strings can wrap, so a width of 2^64 + 1 digits reads
      as 1. */
  lemma {:induction false} ValueExact(ds: string)
    requires AllDigits(ds) && |ds| <= 18
    ensures Value(ds) == Decimal(ds) && 0 <= Value(ds) < Pow10(|ds|)
    decreases |ds|
  {
    if ds != [] {
      var init := ds[..|ds| - 1];
      assert AllDigits(init) by {
        forall i | 0 <= i < |init| ensures IsDigit(init[i]) { assert init[i] == ds[i]; }
      }
      ValueExact(init);
      Pow10Monotone(|ds|, 18);
      Pow10At18();
      assert Value(init) * 10 + DigitValue(ds[|ds| - 1]) < Pow10(|ds|);
    }
  }

  lemma Pow10At18()
    ensures Pow10(18) == 1_000_000_000_000_000_000
  {
    assert Pow10(6) == 1_000_000;
    assert Pow10(12) == 1_000_000_000_000;
  }

  lemma {:induction false} Pow10Monotone(m: nat, n: nat)
    requires m <= n
    ensures Pow10(m) <= Pow10(n)
    decreases n
  {
    if m < n {
      Pow10Monotone(m, n - 1);
    }
  }

  /** Sizes whose dimensions are below 2^31 have their exact product as the
      pixel count. */
  lemma PixelsExact(s: ImageSize)
    requires 0 <= s.width < 0x8000_0000 && 0 <= s.height < 0x8000_0000
    ensures Pixels(s) == s.width * s.height && Pixels(s) >= 0
  {
    var c := 0x8000_0000;
    MulMonotone(s.width, s.height, c);
    MulMonotone(c, s.width, c);
    assert s.width * c == c * s.width;
    assert c * c == 0x4000_0000_0000_0000;
  }

  lemma MulMonotone(x: int, y: int, z: int)
    requires x >= 0 && y <= z
    ensures x * y <= x * z
  {
    assert x * z - x * y == x * (z - y);
  }

  /** Every size that parses has a positive width and height when each
      dimension is written with at most 18 digits. */
  lemma ParsedSizePositive(ds: string, sep: char, es: string)
    requires AllDigits(ds) && IsSeparator(sep) && AllDigits(es) && |ds| <= 18 && |es| <= 18
    requires ParsedSize(ds + [sep] + es).Some?
    ensures ParsedSize(ds + [sep] + es).value.width > 0 && ParsedSize(ds + [sep] + es).value.height > 0
  {
    ParseParts(ds, sep, es);
    ValueExact(ds);
    ValueExact(es);
  }
}
