/** The card form of components/features/checkout/PaymentForm.tsx: the
    per-field validator, the Luhn check, the input formatters and the form's
    error and touched state. */
module PaymentForm {
  import opened Strings
  import opened JsNumber
  import opened Types

  /** The keys of the form data, in the order `Object.keys` lists them. */
  datatype Field = CardholderName | CardNumber | ExpDate | Cvv | SameAsBilling

  const FormKeys: seq<Field> := [CardholderName, CardNumber, ExpDate, Cvv, SameAsBilling]

  /** The clock reading the expiry check takes: the full year and the month
      numbered from 1. */
  datatype Today = Today(fullYear: nat, month: int)

  /** The text of a field; the checkbox has none that is validated. */
  function FieldOf(data: PaymentFormData, f: Field): string
  {
    match f
    case CardholderName => data.cardholderName
    case CardNumber => data.cardNumber
    case ExpDate => data.expDate
    case Cvv => data.cvv
    case SameAsBilling => ""
  }

  // ---------------------------------------------------------------- Luhn

  /** What one digit adds to the Luhn sum: itself, or when doubled the double
      with 9 taken off above 9, which is the sum of the double's digits. */
  function Term(c: char, doubled: bool): (t: nat)
    requires IsDigit(c)
    ensures t <= 9
    ensures !doubled ==> t == DigitValue(c)
  {
    var d := DigitValue(c);
    if doubled then (if 2 * d > 9 then 2 * d - 9 else 2 * d) else d
  }

  /** The Luhn sum read from the right; `doubled` says whether the last digit
      is doubled, and the doubling alternates from there. */
  function LuhnSum(s: string, doubled: bool): nat
    requires AllDigits(s)
    decreases |s|
  {
    if s == [] then 0 else Term(s[|s| - 1], doubled) + LuhnSum(s[..|s| - 1], !doubled)
  }

  /** Luhn validity (ISO/IEC 7812-1, Annex B): digits only, and the sum with
      every second digit from the right doubled is a multiple of 10. */
  predicate LuhnValid(s: string)
  {
    AllDigits(s) && LuhnSum(s, false) % 10 == 0
  }

  /** A digit put in front is doubled when the digits after it are an odd
      number, counting from an undoubled last digit. */
  lemma {:induction false} LuhnFront(c: char, t: string, d: bool)
    requires IsDigit(c) && AllDigits(t)
    ensures AllDigits([c] + t)
    ensures LuhnSum([c] + t, d) == LuhnSum(t, d) + Term(c, d != (|t| % 2 == 1))
    decreases |t|
  {
    var s := [c] + t;
    if t == [] {
      assert s[..0] == [];
    } else {
      var u := t[..|t| - 1];
      LuhnFront(c, u, !d);
      assert s[..|s| - 1] == [c] + u;
      assert s[|s| - 1] == t[|t| - 1];
    }
  }

  /** `isValidCardNumber`: the right-to-left loop. `parseInt` of a character
      that is not a digit is NaN (`ParseIntCharAgrees`), which makes the sum
      NaN and the test false. */
  method IsValidCardNumber(cardNumber: string) returns (r: bool)
    ensures r == LuhnValid(cardNumber)
  {
    var sum := Finite(0);
    var isEven := false;
    var i: int := |cardNumber| - 1;
    while i >= 0
      invariant -1 <= i < |cardNumber|
      invariant isEven == ((|cardNumber| - 1 - i) % 2 == 1)
      invariant sum == if AllDigits(cardNumber[i + 1..]) then Finite(LuhnSum(cardNumber[i + 1..], false) as int) else NaN
    {
      var c := cardNumber[i];
      var digit := ParseIntChar(c);
      if isEven {
        digit := Times(digit, 2);
        if Lt(Finite(9), digit) {
          digit := Plus(digit, Finite(-9));
        }
      }
      assert cardNumber[i..] == [c] + cardNumber[i + 1..];
      if IsDigit(c) && AllDigits(cardNumber[i + 1..]) {
        LuhnFront(c, cardNumber[i + 1..], false);
      } else if !IsDigit(c) {
        assert !AllDigits(cardNumber[i..]) by { assert cardNumber[i..][0] == c; }
      } else {
        assert !AllDigits(cardNumber[i..]) by {
          var k :| 0 <= k < |cardNumber[i + 1..]| && !IsDigit(cardNumber[i + 1..][k]);
          assert cardNumber[i..][k + 1] == cardNumber[i + 1..][k];
        }
      }
      sum := Plus(sum, digit);
      isEven := !isEven;
      i := i - 1;
    }
    assert cardNumber[0..] == cardNumber;
    r := sum.Finite? && sum.value % 10 == 0;
  }

  /** The check digit: a digit string with digit `c` appended is valid exactly
      when `c` is the digit that brings the doubled sum of the rest up to a
      multiple of 10. */
  lemma CheckDigit(p: string, c: char)
    requires AllDigits(p) && IsDigit(c)
    ensures AllDigits(p + [c])
    ensures LuhnValid(p + [c]) <==> DigitValue(c) == (10 - LuhnSum(p, true) % 10) % 10
  {
    var s := p + [c];
    assert s[..|s| - 1] == p && s[|s| - 1] == c;
    assert LuhnSum(s, false) == DigitValue(c) + LuhnSum(p, true);
    CompletesToTen(DigitValue(c), LuhnSum(p, true));
  }

  /** A digit added to a number gives a multiple of 10 exactly when it is the
      number's distance up to the next multiple of 10. */
  lemma CompletesToTen(d: int, n: nat)
    requires 0 <= d <= 9
    ensures (d + n) % 10 == 0 <==> d == (10 - n % 10) % 10
  {
    var q, m := n / 10, n % 10;
    assert n == 10 * q + m && 0 <= m < 10;
    assert d + n == 10 * q + (d + m);
    if m == 0 {
      assert (10 - m) % 10 == 0;
    } else {
      assert (10 - m) % 10 == 10 - m;
    }
    if d + m < 10 {
      assert (d + n) % 10 == d + m;
    } else {
      assert d + n == 10 * (q + 1) + (d + m - 10);
      assert (d + n) % 10 == d + m - 10;
    }
  }

  /** Changing the digit at one position changes the sum by the change of
      that digit's term alone. */
  lemma {:induction false} LuhnSumOneChange(a: string, b: string, k: nat, d: bool)
    requires AllDigits(a) && AllDigits(b) && |a| == |b| && k < |a|
    requires forall i :: 0 <= i < |a| && i != k ==> a[i] == b[i]
    ensures LuhnSum(a, d) - LuhnSum(b, d) ==
            Term(a[k], DoubledAt(|a|, k, d)) - Term(b[k], DoubledAt(|a|, k, d))
    decreases |a|
  {
    var n := |a|;
    if k == n - 1 {
      assert a[..n - 1] == b[..n - 1];
    } else {
      assert a[n - 1] == b[n - 1];
      LuhnSumOneChange(a[..n - 1], b[..n - 1], k, !d);
      DoubledAtStep(n, k, d);
    }
  }

  /** Whether position `k` of an `n`-digit string is doubled, when the last
      digit is doubled exactly if `d`. */
  predicate DoubledAt(n: int, k: int, d: bool)
  {
    d != ((n - 1 - k) % 2 == 1)
  }

  lemma DoubledAtStep(n: int, k: int, d: bool)
    ensures DoubledAt(n - 1, k, !d) == DoubledAt(n, k, d)
  {
    var j := n - 1 - k;
    assert j % 2 == 1 <==> (j - 1) % 2 == 0;
  }

  /** A doubled digit adds the sum of the decimal digits of its double. */
  lemma TermDoubled(c: char)
    requires IsDigit(c)
    ensures Term(c, true) == (2 * DigitValue(c)) / 10 + (2 * DigitValue(c)) % 10
  {
    var d := DigitValue(c);
    assert 0 <= d <= 9;
    if 2 * d > 9 {
      assert (2 * d) / 10 == 1 && (2 * d) % 10 == 2 * d - 10;
    } else {
      assert (2 * d) / 10 == 0 && (2 * d) % 10 == 2 * d;
    }
  }

  /** Distinct digits have distinct terms, doubled or not. */
  lemma TermInjective(x: char, y: char, doubled: bool)
    requires IsDigit(x) && IsDigit(y) && x != y
    ensures Term(x, doubled) != Term(y, doubled)
  {
  }

  /** The Luhn check catches every single mistyped digit: two digit strings
      that differ in exactly one position are never both valid. */
  lemma SingleErrorDetected(a: string, b: string, k: nat)
    requires AllDigits(a) && AllDigits(b) && |a| == |b| && k < |a| && a[k] != b[k]
    requires forall i :: 0 <= i < |a| && i != k ==> a[i] == b[i]
    ensures !(LuhnValid(a) && LuhnValid(b))
  {
    var dk := DoubledAt(|a|, k, false);
    LuhnSumOneChange(a, b, k, false);
    TermInjective(a[k], b[k], dk);
    CloseMultiples(LuhnSum(a, false), LuhnSum(b, false));
  }

  /** Two multiples of 10 less than 10 apart are equal. */
  lemma CloseMultiples(x: int, y: int)
    ensures x % 10 == 0 && y % 10 == 0 && -9 <= x - y <= 9 ==> x == y
  {
    assert x == 10 * (x / 10) + x % 10 && y == 10 * (y / 10) + y % 10;
  }

  // ---------------------------------------------------------- validators

  /** `/^[a-zA-Z\s]+$/` without the non-empty part. */
  predicate LettersAndSpaces(s: string)
  {
    forall i :: 0 <= i < |s| ==> IsAsciiLetter(s[i]) || IsSpace(s[i])
  }

  function NameError(value: string): (r: Option<string>)
    ensures r == None <==> |Trim(value)| >= 3 && LettersAndSpaces(value)
    ensures r == Some("Cardholder name is required") <==> Trim(value) == []
  {
    if Trim(value) == [] then Some("Cardholder name is required")
    else if |Trim(value)| < 3 then Some("Name must be at least 3 characters")
    else if !LettersAndSpaces(value) then Some("Name can only contain letters")
    else None
  }

  function CardError(value: string): (r: Option<string>)
    ensures r == None <==> var c := RemoveSpaces(value); 13 <= |c| <= 19 && LuhnValid(c)
    ensures r == Some("Card number is too long") <==> |RemoveSpaces(value)| > 19
  {
    var clean := RemoveSpaces(value);
    if clean == [] then Some("Card number is required")
    else if |clean| < 13 then Some("Card number must be at least 13 digits")
    else if |clean| > 19 then Some("Card number is too long")
    else if !AllDigits(clean) then Some("Card number must contain only digits")
    else if !LuhnValid(clean) then Some("Invalid card number")
    else None
  }

  /** The expiry checks. The month and year are `parseInt`ed halves of the
      text split at '/'; a missing year is NaN. */
  function ExpiryError(value: string, today: Today): Option<string>
  {
    if value == [] then Some("Expiration date is required")
    else if |value| != 5 then Some("Format must be MM/YY")
    else
      var parts := Split(value, '/');
      ExpiryDateError(ParseInt(parts[0]), if |parts| > 1 then ParseInt(parts[1]) else NaN, today)
  }

  /** The month and date checks on the parsed halves. A NaN month or year
      fails no comparison, so it passes both checks. */
  function ExpiryDateError(month: Num, year: Num, today: Today): (r: Option<string>)
    ensures month.NaN? && year.NaN? ==> r == None
    ensures month.Finite? && year.Finite? ==>
      (r == None <==> 1 <= month.value <= 12 &&
                      (year.value > today.fullYear % 100 ||
                       (year.value == today.fullYear % 100 && month.value >= today.month)))
  {
    var currentYear := today.fullYear % 100;
    if Lt(month, Finite(1)) || Lt(Finite(12), month) then Some("Invalid month")
    else if Lt(year, Finite(currentYear)) || (year == Finite(currentYear) && Lt(month, Finite(today.month)))
    then Some("Card has expired")
    else None
  }

  function CvvError(value: string): (r: Option<string>)
    ensures r == None <==> |value| >= 3 && AllDigits(value)
  {
    if value == [] then Some("CVV is required")
    else if |value| < 3 then Some("CVV must be 3-4 digits")
    else if !AllDigits(value) then Some("CVV must contain only digits")
    else None
  }

  /** `validateField`: the first failing check of the field, or none. */
  function ValidateField(name: Field, value: string, today: Today): (r: Option<string>)
    ensures name == SameAsBilling ==> r == None
  {
    match name
    case CardholderName => NameError(value)
    case CardNumber => CardError(value)
    case ExpDate => ExpiryError(value, today)
    case Cvv => CvvError(value)
    case SameAsBilling => None
  }

  /** The expiry validator does not check that the halves are digits: text
      such as "ab/cd" passes. The expiry formatter never produces it. */
  lemma NonNumericExpiryPasses(today: Today)
    ensures ExpiryError("ab/cd", today) == None
  {
    var v := "ab/cd";
    assert v == "ab" + ['/'] + "cd";
    SplitAppendSep("ab", "cd", '/');
    SplitNoSep("cd", '/');
    ParseIntLetter("ab");
    ParseIntLetter("cd");
    assert ExpiryError(v, today) == ExpiryDateError(NaN, NaN, today);
  }

  // ---------------------------------------------------------- formatters

  /** Concatenation of the pieces. */
  function Concat(parts: seq<string>): string
  {
    if parts == [] then [] else parts[0] + Concat(parts[1..])
  }

  /** `cleaned.match(/.{1,4}/g)`: consecutive blocks of four, the last one
      shorter (no match at all for the empty string). */
  function Chunks(s: string): (r: seq<string>)
    ensures forall k :: 0 <= k < |r| ==> 1 <= |r[k]| <= 4
    ensures forall k :: 0 <= k < |r| - 1 ==> |r[k]| == 4
    ensures Concat(r) == s
    ensures r == [] <==> s == []
    decreases |s|
  {
    if s == [] then []
    else if |s| <= 4 then (assert Concat([s]) == s + []; [s])
    else
      var rest := Chunks(s[4..]);
      assert ([s[..4]] + rest)[1..] == rest;
      assert s[..4] + s[4..] == s;
      [s[..4]] + rest
  }

  /** Blocks of a string without white space have none either. */
  lemma {:induction false} ChunksNoSpace(s: string)
    requires forall i :: 0 <= i < |s| ==> !IsSpace(s[i])
    ensures forall k :: 0 <= k < |Chunks(s)| ==> forall i :: 0 <= i < |Chunks(s)[k]| ==> !IsSpace(Chunks(s)[k][i])
    decreases |s|
  {
    if |s| > 4 {
      ChunksNoSpace(s[4..]);
      var r := Chunks(s);
      assert r == [s[..4]] + Chunks(s[4..]);
      forall k | 1 <= k < |r| ensures r[k] == Chunks(s[4..])[k - 1] {
      }
    }
  }

  /** Removing the spaces of a join with ' ' of space-free pieces gives
      their concatenation. */
  lemma {:induction false} RemoveSpacesJoin(parts: seq<string>)
    requires forall k :: 0 <= k < |parts| ==> forall i :: 0 <= i < |parts[k]| ==> !IsSpace(parts[k][i])
    ensures RemoveSpaces(Join(parts, ' ')) == Concat(parts)
  {
    if |parts| == 1 {
      RemoveSpacesNoop(parts[0]);
      assert Concat(parts) == parts[0] + Concat([]);
      assert parts[0] + [] == parts[0];
    } else if |parts| > 1 {
      RemoveSpacesJoin(parts[1..]);
      RemoveSpacesNoop(parts[0]);
      RemoveSpacesAppend(parts[0] + [' '], Join(parts[1..], ' '));
      RemoveSpacesAppend(parts[0], [' ']);
      assert RemoveSpaces([' ']) == [] by { assert [' '][1..] == []; }
    }
  }

  /** `formatCardNumber`. */
  function FormatCardNumber(value: string): string
  {
    var cleaned := RemoveSpaces(value);
    var blocks := Chunks(cleaned);
    if blocks == [] then cleaned else Join(blocks, ' ')
  }

  /** The formatter keeps every non-space character in order, splits at ' '
      into the blocks of four, and formatting again changes nothing. */
  lemma FormatCardNumberSpec(value: string)
    ensures RemoveSpaces(FormatCardNumber(value)) == RemoveSpaces(value)
    ensures RemoveSpaces(value) != [] ==> Split(FormatCardNumber(value), ' ') == Chunks(RemoveSpaces(value))
    ensures FormatCardNumber(FormatCardNumber(value)) == FormatCardNumber(value)
  {
    var c := RemoveSpaces(value);
    var blocks := Chunks(c);
    if blocks != [] {
      ChunksNoSpace(c);
      RemoveSpacesJoin(blocks);
      forall k | 0 <= k < |blocks| ensures ' ' !in blocks[k] {
        assert IsSpace(' ');
      }
      SplitJoin(blocks, ' ');
    } else {
      assert RemoveSpaces([]) == [];
    }
  }

  /** `formatExpDate`: the digits only, a '/' after the first two, and at most
      two digits after it. */
  function FormatExpDate(value: string): (r: string)
    ensures |r| <= 5
    ensures |r| <= 2 ==> AllDigits(r)
    ensures |r| > 2 ==> |r| >= 4 && IsDigit(r[0]) && IsDigit(r[1]) && r[2] == '/' && AllDigits(r[3..])
  {
    var cleaned := KeepDigits(value);
    if |cleaned| >= 2 then
      cleaned[..2] + (if |cleaned| > 2 then "/" + cleaned[2..if |cleaned| < 4 then |cleaned| else 4] else "")
    else cleaned
  }

  /** The digits the expiry formatter keeps are the first four of the input,
      and formatting again changes nothing. */
  lemma FormatExpDateSpec(value: string)
    ensures var c := KeepDigits(value);
      KeepDigits(FormatExpDate(value)) == c[..if |c| < 4 then |c| else 4]
    ensures FormatExpDate(FormatExpDate(value)) == FormatExpDate(value)
  {
    var c := KeepDigits(value);
    var m := if |c| < 4 then |c| else 4;
    var r := FormatExpDate(value);
    if |c| > 2 {
      assert r == c[..2] + "/" + c[2..m];
      KeepDigitsAppend(c[..2] + "/", c[2..m]);
      KeepDigitsAppend(c[..2], "/");
      KeepDigitsNoop(c[..2]);
      KeepDigitsNoop(c[2..m]);
      assert KeepDigits("/") == [] by { assert "/"[1..] == []; }
      assert c[..2] + c[2..m] == c[..m];
      var c' := c[..m];
      assert c'[..2] == c[..2] && c'[2..m] == c[2..m];
    } else if |c| == 2 {
      assert r == c[..2] + "";
      KeepDigitsNoop(c);
    } else {
      KeepDigitsNoop(c);
    }
  }

  /** A complete formatted expiry reads as two numbers: the validator's answer
      is then the plain comparison of month and year with today. */
  lemma ExpiryOfFormatted(value: string, today: Today)
    requires |FormatExpDate(value)| == 5
    ensures var r := FormatExpDate(value);
      var mm := DigitsValue(r[..2], 10);
      var yy := DigitsValue(r[3..], 10);
      ExpiryError(r, today) ==
        if mm < 1 || mm > 12 then Some("Invalid month")
        else if yy < today.fullYear % 100 || (yy == today.fullYear % 100 && mm < today.month) then Some("Card has expired")
        else None
  {
    var r := FormatExpDate(value);
    SplitExpiry(r);
    ParseIntDigits(r[..2]);
    ParseIntDigits(r[3..]);
    assert ExpiryError(r, today) ==
      ExpiryDateError(Finite(DigitsValue(r[..2], 10)), Finite(DigitsValue(r[3..], 10)), today);
  }

  lemma SplitExpiry(r: string)
    requires |r| == 5 && IsDigit(r[0]) && IsDigit(r[1]) && r[2] == '/' && AllDigits(r[3..])
    ensures Split(r, '/') == [r[..2], r[3..]]
    ensures r[..2] != [] && AllDigits(r[..2]) && r[3..] != []
  {
    assert r == r[..2] + ['/'] + r[3..];
    assert '/' !in r[..2] && '/' !in r[3..];
    SplitAppendSep(r[..2], r[3..], '/');
    SplitNoSep(r[3..], '/');
  }

  /** What the card field keeps of a change: the first 19 characters,
      formatted. */
  function CardInput(value: string): string
  {
    FormatCardNumber(value[..if |value| < 19 then |value| else 19])
  }

  /** A card number typed into the field holds at most 19 non-space
      characters, so "Card number is too long" cannot be reached from it. */
  lemma CardInputNeverTooLong(value: string, today: Today)
    ensures |RemoveSpaces(CardInput(value))| <= 19
    ensures ValidateField(CardNumber, CardInput(value), today) != Some("Card number is too long")
  {
    FormatCardNumberSpec(value[..if |value| < 19 then |value| else 19]);
  }

  /** What the CVV field keeps of a change: its first four digits. */
  function CvvInput(value: string): (r: string)
    ensures |r| <= 4 && AllDigits(r)
    ensures |r| <= |KeepDigits(value)| && r == KeepDigits(value)[..|r|]
    ensures |KeepDigits(value)| >= 4 ==> |r| == 4
  {
    var cleaned := KeepDigits(value);
    cleaned[..if |cleaned| < 4 then |cleaned| else 4]
  }

  /** A CVV typed into the field is accepted exactly when it has 3 or 4
      digits: the length check the validator lacks is made by the input. */
  lemma CvvInputValid(value: string, today: Today)
    ensures ValidateField(Cvv, CvvInput(value), today) == None <==> 3 <= |CvvInput(value)| <= 4
  {
  }

  /** What a change event stores: the formatted card number, the formatted
      expiry, the cut CVV, the name as typed, or the checkbox state. */
  function Sanitised(name: Field, value: string): string
  {
    match name
    case CardNumber => CardInput(value)
    case ExpDate => FormatExpDate(value)
    case Cvv => CvvInput(value)
    case _ => value
  }

  function WithField(data: PaymentFormData, name: Field, value: string, checked: bool): (d: PaymentFormData)
    ensures name != SameAsBilling ==> FieldOf(d, name) == Sanitised(name, value)
    ensures forall f :: f != name ==> FieldOf(d, f) == FieldOf(data, f)
    ensures d.sameAsBilling == if name == SameAsBilling then checked else data.sameAsBilling
  {
    match name
    case CardholderName => data.(cardholderName := value)
    case CardNumber => data.(cardNumber := CardInput(value))
    case ExpDate => data.(expDate := FormatExpDate(value))
    case Cvv => data.(cvv := CvvInput(value))
    case SameAsBilling => data.(sameAsBilling := checked)
  }

  /** No field of the form has an error. */
  predicate FormValid(data: PaymentFormData, today: Today)
  {
    forall f :: ValidateField(f, FieldOf(data, f), today) == None
  }

  lemma FormValidFields(data: PaymentFormData, today: Today)
    ensures FormValid(data, today) <==>
      NameError(data.cardholderName) == None && CardError(data.cardNumber) == None &&
      ExpiryError(data.expDate, today) == None && CvvError(data.cvv) == None
  {
    if NameError(data.cardholderName) == None && CardError(data.cardNumber) == None &&
       ExpiryError(data.expDate, today) == None && CvvError(data.cvv) == None {
      forall f ensures ValidateField(f, FieldOf(data, f), today) == None {
        match f
        case CardholderName =>
        case CardNumber =>
        case ExpDate =>
        case Cvv =>
        case SameAsBilling =>
      }
    } else {
      var f := if NameError(data.cardholderName) != None then CardholderName
        else if CardError(data.cardNumber) != None then CardNumber
        else if ExpiryError(data.expDate, today) != None then ExpDate
        else Cvv;
      assert ValidateField(f, FieldOf(data, f), today) != None;
    }
  }

  /** The body of `validateForm`: one pass over the keys, skipping the
      checkbox, collecting each field's error. */
  method FormErrors(data: PaymentFormData, today: Today) returns (newErrors: map<Field, string>)
    ensures forall f :: f in newErrors <==> ValidateField(f, FieldOf(data, f), today).Some?
    ensures forall f :: f in newErrors ==> newErrors[f] == ValidateField(f, FieldOf(data, f), today).value
    ensures newErrors == map[] <==> FormValid(data, today)
  {
    newErrors := map[];
    var i := 0;
    while i < |FormKeys|
      invariant 0 <= i <= |FormKeys|
      invariant forall f :: f in newErrors <==> f in FormKeys[..i] && ValidateField(f, FieldOf(data, f), today).Some?
      invariant forall f :: f in newErrors ==> newErrors[f] == ValidateField(f, FieldOf(data, f), today).value
    {
      var key := FormKeys[i];
      assert FormKeys[..i + 1] == FormKeys[..i] + [key];
      if key != SameAsBilling {
        var error := ValidateField(key, FieldOf(data, key), today);
        if error.Some? {
          newErrors := newErrors[key := error.value];
        }
      }
      i := i + 1;
    }
    assert forall f :: f in FormKeys by {
      forall f ensures f in FormKeys {
        match f
        case CardholderName => assert FormKeys[0] == f;
        case CardNumber => assert FormKeys[1] == f;
        case ExpDate => assert FormKeys[2] == f;
        case Cvv => assert FormKeys[3] == f;
        case SameAsBilling => assert FormKeys[4] == f;
      }
    }
    assert FormKeys[..|FormKeys|] == FormKeys;
    if newErrors != map[] {
      var f :| f in newErrors;
      assert !FormValid(data, today);
    }
  }

  /** The form's own state: the data it edits (held by the checkout page),
      the shown errors and the fields that have been left once. */
  class Form {
    var data: PaymentFormData
    var errors: map<Field, Option<string>>
    var touched: set<Field>

    constructor (initial: PaymentFormData)
      ensures data == initial && errors == map[] && touched == {}
    {
      data := initial;
      errors := map[];
      touched := {};
    }

    /** `handleInputChange`: store the sanitised value; re-validate it when
        the field has been touched. The checkbox is never validated. */
    method HandleInputChange(name: Field, value: string, checked: bool, today: Today)
      modifies this`data, this`errors
      ensures data == WithField(old(data), name, value, checked)
      ensures errors == if name != SameAsBilling && name in touched
        then old(errors)[name := ValidateField(name, Sanitised(name, value), today)]
        else old(errors)
    {
      data := WithField(data, name, value, checked);
      if name != SameAsBilling && name in touched {
        errors := errors[name := ValidateField(name, Sanitised(name, value), today)];
      }
    }

    /** `handleBlur`: mark the field touched and show its current error. */
    method HandleBlur(name: Field, today: Today)
      modifies this`touched, this`errors
      ensures touched == old(touched) + {name}
      ensures errors == old(errors)[name := ValidateField(name, FieldOf(data, name), today)]
    {
      var error := ValidateField(name, FieldOf(data, name), today);
      errors := errors[name := error];
      touched := touched + {name};
    }

    /** `handlePayWithValidation`: touch every text field, replace the errors
        by the full validation's, and pay exactly when there are none. */
    method HandlePayWithValidation(today: Today) returns (pay: bool)
      modifies this`touched, this`errors
      ensures touched == {CardholderName, CardNumber, ExpDate, Cvv}
      ensures forall f :: f in errors <==> ValidateField(f, FieldOf(data, f), today).Some?
      ensures forall f :: f in errors ==> errors[f] == ValidateField(f, FieldOf(data, f), today)
      ensures pay <==> FormValid(data, today)
    {
      touched := {CardholderName, CardNumber, ExpDate, Cvv};
      var newErrors := FormErrors(data, today);
      errors := map f | f in newErrors :: Some(newErrors[f]);
      pay := newErrors == map[];
    }
  }
}
