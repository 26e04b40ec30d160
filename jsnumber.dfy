/** The part of JavaScript's number semantics the storefront relies on:
    `parseInt` with its default radix, NaN, `String(n)` for integers, and the
    NaN-propagating `Math.min`/`Math.max` and comparisons. Only integers are
    modelled; fractional parts and exponent notation are not. */
module JsNumber {
  import opened Strings

  /** A JavaScript number restricted to the integers, plus NaN. */
  datatype Num = Finite(value: int) | NaN

  /** `x < y`, false when either side is NaN. */
  predicate Lt(x: Num, y: Num)
  {
    x.Finite? && y.Finite? && x.value < y.value
  }

  /** `x <= y`, false when either side is NaN. */
  predicate Le(x: Num, y: Num)
  {
    x.Finite? && y.Finite? && x.value <= y.value
  }

  /** `Math.min(x, y)`: NaN when either argument is NaN. */
  function Min(x: Num, y: Num): (r: Num)
    ensures r.Finite? <==> x.Finite? && y.Finite?
    ensures r.Finite? ==> r.value <= x.value && r.value <= y.value
    ensures r.Finite? ==> r == x || r == y
  {
    if x.NaN? || y.NaN? then NaN
    else if x.value <= y.value then x else y
  }

  /** `Math.max(x, y)`: NaN when either argument is NaN. */
  function Max(x: Num, y: Num): (r: Num)
    ensures r.Finite? <==> x.Finite? && y.Finite?
    ensures r.Finite? ==> r.value >= x.value && r.value >= y.value
    ensures r.Finite? ==> r == x || r == y
  {
    if x.NaN? || y.NaN? then NaN
    else if x.value >= y.value then x else y
  }

  /** `x + y`, NaN when either side is NaN. */
  function Plus(x: Num, y: Num): (r: Num)
    ensures r.Finite? <==> x.Finite? && y.Finite?
    ensures r.Finite? ==> r.value == x.value + y.value
  {
    if x.NaN? || y.NaN? then NaN else Finite(x.value + y.value)
  }

  /** `x * k` for an integer constant `k`: NaN stays NaN. */
  function Times(x: Num, k: int): (r: Num)
    ensures r.Finite? <==> x.Finite?
    ensures r.Finite? ==> r.value == x.value * k
  {
    if x.NaN? then NaN else Finite(x.value * k)
  }

  /** `x || d` for a number: 0 and NaN are falsy. */
  function OrElse(x: Num, d: int): (r: int)
    ensures x.Finite? && x.value != 0 ==> r == x.value
    ensures x.NaN? || x.value == 0 ==> r == d
  {
    if x.Finite? && x.value != 0 then x.value else d
  }

  /** A digit of radix 10, or of radix 16 when `hex` holds. */
  predicate IsRadixDigit(c: char, hex: bool)
  {
    IsDigit(c) || (hex && (('a' <= c <= 'f') || ('A' <= c <= 'F')))
  }

  function DigitValue(c: char): nat
  {
    if IsDigit(c) then c as int - '0' as int
    else if 'a' <= c <= 'f' then c as int - 'a' as int + 10
    else if 'A' <= c <= 'F' then c as int - 'A' as int + 10
    else 0
  }

  /** The longest prefix of `s` made of radix digits. */
  function DigitPrefix(s: string, hex: bool): (r: string)
    ensures |r| <= |s| && r == s[..|r|]
    ensures forall i :: 0 <= i < |r| ==> IsRadixDigit(r[i], hex)
    ensures |r| < |s| ==> !IsRadixDigit(s[|r|], hex)
  {
    if s != [] && IsRadixDigit(s[0], hex) then [s[0]] + DigitPrefix(s[1..], hex) else []
  }

  /** The value of a digit string, most significant digit first. */
  function DigitsValue(ds: string, base: nat): nat
  {
    if ds == [] then 0 else DigitsValue(ds[..|ds| - 1], base) * base + DigitValue(ds[|ds| - 1])
  }

  /** `parseInt(s)` with no radix argument: leading white space is skipped,
      then an optional sign, then a "0x"/"0X" prefix selects radix 16; the
      longest run of digits is read and the rest ignored; no digits gives NaN. */
  function ParseInt(s: string): Num
  {
    var t := TrimStart(s);
    var negative := |t| > 0 && t[0] == '-';
    var unsigned := if |t| > 0 && (t[0] == '-' || t[0] == '+') then t[1..] else t;
    var hex := |unsigned| >= 2 && unsigned[0] == '0' && (unsigned[1] == 'x' || unsigned[1] == 'X');
    var body := if hex then unsigned[2..] else unsigned;
    var ds := DigitPrefix(body, hex);
    if ds == [] then NaN
    else
      var magnitude: int := DigitsValue(ds, if hex then 16 else 10);
      Finite(if negative then -magnitude else magnitude)
  }

  function DigitChar(d: nat): (c: char)
    requires d < 10
    ensures IsDigit(c) && DigitValue(c) == d
  {
    ('0' as int + d) as char
  }

  /** `String(n)` for a non-negative integer. */
  function NatToString(n: nat): (r: string)
    ensures r != [] && AllDigits(r)
  {
    if n < 10 then [DigitChar(n)] else NatToString(n / 10) + [DigitChar(n % 10)]
  }

  /** `String(x)` for an integer number or NaN. */
  function NumToString(x: Num): string
  {
    match x
    case NaN => "NaN"
    case Finite(v) => if v < 0 then "-" + NatToString(-v) else NatToString(v)
  }

  lemma {:induction false} NatToStringValue(n: nat)
    ensures DigitsValue(NatToString(n), 10) == n
  {
    if n >= 10 {
      NatToStringValue(n / 10);
      var s := NatToString(n);
      assert s[..|s| - 1] == NatToString(n / 10);
    }
  }

  lemma {:induction false} DigitPrefixAll(s: string, hex: bool)
    requires forall i :: 0 <= i < |s| ==> IsRadixDigit(s[i], hex)
    ensures DigitPrefix(s, hex) == s
  {
    if s != [] {
      DigitPrefixAll(s[1..], hex);
    }
  }

  /** Neither a digit nor a minus sign is white space. */
  lemma NotSpace(c: char)
    requires IsDigit(c) || c == '-'
    ensures !IsSpace(c)
  {
  }

  /** A string of decimal digits parses to its value. */
  lemma ParseIntDigits(s: string)
    requires s != [] && AllDigits(s)
    ensures ParseInt(s) == Finite(DigitsValue(s, 10))
  {
    NotSpace(s[0]);
    assert TrimStart(s) == s;
    if |s| >= 2 {
      assert IsDigit(s[1]);
    }
    DigitPrefixAll(s, false);
  }

  /** A minus sign before a string of decimal digits negates its value. */
  lemma ParseIntNegDigits(s: string)
    requires s != [] && AllDigits(s)
    ensures ParseInt("-" + s) == Finite(-(DigitsValue(s, 10) as int))
  {
    var t := "-" + s;
    NotSpace('-');
    assert TrimStart(t) == t;
    assert t[0] == '-' && t[1..] == s;
    var hex := |s| >= 2 && s[0] == '0' && (s[1] == 'x' || s[1] == 'X');
    assert !hex by {
      if |s| >= 2 {
        assert IsDigit(s[1]);
      }
    }
    DigitPrefixAll(s, false);
  }

  /** `parseInt` of a one-character string: the digit's value, or NaN. */
  function ParseIntChar(c: char): (r: Num)
    ensures r.Finite? <==> IsDigit(c)
    ensures r.Finite? ==> 0 <= r.value <= 9
  {
    if IsDigit(c) then Finite(DigitValue(c)) else NaN
  }

  /** Text that starts with a letter parses to NaN. */
  lemma ParseIntLetter(s: string)
    requires s != [] && IsAsciiLetter(s[0])
    ensures ParseInt(s) == NaN
  {
    assert !IsSpace(s[0]);
    assert TrimStart(s) == s;
    assert DigitPrefix(s, false) == [];
  }

  /** `ParseIntChar` is `parseInt` on one character. */
  lemma ParseIntCharAgrees(c: char)
    ensures ParseIntChar(c) == ParseInt([c])
  {
    if IsDigit(c) {
      ParseDigitChar(c);
    } else {
      ParseNonDigitChar(c);
    }
  }

  lemma ParseDigitChar(c: char)
    requires IsDigit(c)
    ensures ParseInt([c]) == Finite(DigitValue(c))
  {
    ParseIntDigits([c]);
    assert [c][..0] == [];
  }

  lemma ParseNonDigitChar(c: char)
    requires !IsDigit(c)
    ensures ParseInt([c]) == NaN
  {
    if IsSpace(c) {
      assert [c][1..] == [];
      assert TrimStart([c]) == [];
    } else {
      assert TrimStart([c]) == [c];
      if c == '-' || c == '+' {
        assert [c][1..] == [];
      } else {
        assert DigitPrefix([c], false) == [];
      }
    }
  }

  /** Reading back what `String(n)` wrote gives `n`: the round trip that the
      URL's `page`, `minPrice` and `maxPrice` parameters rely on. */
  lemma ParseIntToString(n: int)
    ensures ParseInt(NumToString(Finite(n))) == Finite(n)
  {
    var m: nat := if n < 0 then -n else n;
    if n < 0 {
      ParseIntNegDigits(NatToString(m));
    } else {
      ParseIntDigits(NatToString(m));
    }
    NatToStringValue(m);
  }
}
