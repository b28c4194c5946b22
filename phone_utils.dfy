/**
 * Phone number normalisation and display formatting (src/lib/phone-utils.js).
 * Pure string functions over ASCII digits and `+`.
 */
module PhoneUtils {

  /** `\d` of a JavaScript regular expression without the `u` flag. */
  predicate IsDigit(c: char) {
    '0' <= c <= '9'
  }

  predicate IsDialChar(c: char) {
    IsDigit(c) || c == '+'
  }

  predicate AllDial(s: string) {
    forall i :: 0 <= i < |s| ==> IsDialChar(s[i])
  }

  predicate AllDigits(s: string) {
    forall i :: 0 <= i < |s| ==> IsDigit(s[i])
  }

  predicate StartsWith(s: string, c: char) {
    |s| > 0 && s[0] == c
  }

  /** `phone.replace(/[^\d+]/g, '')`: keeps every digit and every `+`, wherever it stands. */
  function Clean(s: string): (r: string)
    ensures |r| <= |s| && AllDial(r)
    ensures AllDial(s) ==> r == s
    ensures '+' !in s ==> AllDigits(r)
    decreases |s|
  {
    if s == [] then []
    else (if IsDialChar(s[0]) then [s[0]] else []) + Clean(s[1..])
  }

  /** `str.replace(/\D/g, '')`: the digits of s, in order. */
  function DigitsOf(s: string): (r: string)
    ensures |r| <= |s| && AllDigits(r)
    ensures AllDigits(s) ==> r == s
    ensures (forall i :: 0 <= i < |s| ==> !IsDigit(s[i])) ==> r == []
    decreases |s|
  {
    if s == [] then []
    else (if IsDigit(s[0]) then [s[0]] else []) + DigitsOf(s[1..])
  }

  /**
   * `normalizePhoneNumber`. The branch for an 11-character value starting with
   * `1` and the final `return cleaned` are kept as written although no input
   * reaches them (see NormalizeReference).
   */
  function Normalize(phone: string): (r: string)
    ensures r == "" <==> phone == ""
    ensures AllDial(r)
    ensures r != "" ==> r[0] == '+'
  {
    if phone == "" then ""
    else
      var cleaned := Clean(phone);
      if StartsWith(cleaned, '+') then cleaned
      else
        var cleaned := if StartsWith(cleaned, '1') && |cleaned| == 11 then cleaned[1..] else cleaned;
        if |cleaned| == 10 then "+1" + cleaned
        else if |cleaned| == 11 && StartsWith(cleaned, '1') then "+" + cleaned
        else if !StartsWith(cleaned, '+') then "+" + cleaned
        else cleaned
  }

  /**
   * The three outcomes Normalize actually has: a cleaned value starting with `+`
   * is returned as it is, ten characters get `+1`, everything else gets `+`.
   * In particular 11 digits starting with 1 come back as `+` and those 11 digits.
   */
  lemma {:induction false} NormalizeReference(phone: string)
    requires phone != ""
    ensures var c := Clean(phone);
      Normalize(phone) == if StartsWith(c, '+') then c
                          else if |c| == 10 then "+1" + c
                          else "+" + c
  {
    var c := Clean(phone);
    if !StartsWith(c, '+') && StartsWith(c, '1') && |c| == 11 {
      assert "+1" + c[1..] == "+" + c;
    }
  }

  /** A normalised number is a fixed point: normalising twice changes nothing. */
  lemma {:induction false} NormalizeIdempotent(phone: string)
    ensures Normalize(Normalize(phone)) == Normalize(phone)
  {
    var r := Normalize(phone);
    if r != "" {
      assert Clean(r) == r;
    }
  }

  lemma {:induction false} CleanIsDigitsWithoutPlus(s: string)
    requires '+' !in s
    ensures Clean(s) == DigitsOf(s)
    decreases |s|
  {
    if s != [] {
      CleanIsDigitsWithoutPlus(s[1..]);
    }
  }

  /** Ten digits (however punctuated, without `+`) become `+1` and those digits. */
  lemma NormalizeTenDigits(phone: string)
    requires '+' !in phone && |DigitsOf(phone)| == 10
    ensures Normalize(phone) == "+1" + DigitsOf(phone)
  {
    CleanIsDigitsWithoutPlus(phone);
  }

  /** Eleven digits starting with 1 (without `+`) become `+` and those eleven digits. */
  lemma NormalizeElevenDigits(phone: string)
    requires '+' !in phone && |DigitsOf(phone)| == 11 && DigitsOf(phone)[0] == '1'
    ensures Normalize(phone) == "+" + DigitsOf(phone)
  {
    CleanIsDigitsWithoutPlus(phone);
    NormalizeReference(phone);
  }

  /** A non-empty input always yields `+` followed by dial characters; e.g. "abc" yields "+". */
  lemma NormalizeNoDigits(phone: string)
    requires phone != "" && Clean(phone) == ""
    ensures Normalize(phone) == "+"
  {
  }

  /** The US display form "(AAA) PPP-LLLL". */
  function UsDisplay(area: string, prefix: string, line: string): string {
    "(" + area + ") " + prefix + "-" + line
  }

  /** `formatPhoneDisplay`. */
  function FormatDisplay(phone: string): string {
    Display(Normalize(phone))
  }

  /** The formatting part of `formatPhoneDisplay`, applied to the normalised number. */
  function Display(normalized: string): string {
    var digits := DigitsOf(normalized);
    if |digits| == 11 && StartsWith(digits, '1') then
      UsDisplay(digits[1..4], digits[4..7], digits[7..11])
    else if |digits| == 10 then
      UsDisplay(digits[0..3], digits[3..6], digits[6..10])
    else
      normalized
  }

  /**
   * The display form differs from the normalised number exactly when the digits
   * of the normalised number are 11 starting with 1, or 10; then it is the
   * fourteen-character "(AAA) PPP-LLLL" over the last ten of them.
   */
  lemma FormatDisplayCases(phone: string)
    ensures var d := DigitsOf(Normalize(phone));
      && (FormatDisplay(phone) != Normalize(phone) <==> (|d| == 11 && d[0] == '1') || |d| == 10)
      && (|d| == 11 && d[0] == '1' ==> FormatDisplay(phone) == UsDisplay(d[1..4], d[4..7], d[7..11]))
      && (|d| == 10 ==> FormatDisplay(phone) == UsDisplay(d[0..3], d[3..6], d[6..10]))
      && (FormatDisplay(phone) != Normalize(phone) ==> |FormatDisplay(phone)| == 14)
  {
    var n := Normalize(phone);
    var d := DigitsOf(n);
    if (|d| == 11 && d[0] == '1') || |d| == 10 {
      var f := FormatDisplay(phone);
      assert f[0] == '(';
      assert n == "" || n[0] == '+';
    }
  }

  lemma {:induction false} DigitsOfAppend(a: string, b: string)
    ensures DigitsOf(a + b) == DigitsOf(a) + DigitsOf(b)
    decreases |a|
  {
    if a == [] {
      assert a + b == b;
    } else {
      var head: string := if IsDigit(a[0]) then [a[0]] else [];
      calc {
        DigitsOf(a + b);
      == { assert (a + b)[0] == a[0] && (a + b)[1..] == a[1..] + b; }
        head + DigitsOf(a[1..] + b);
      == { DigitsOfAppend(a[1..], b); }
        head + (DigitsOf(a[1..]) + DigitsOf(b));
      ==
        (head + DigitsOf(a[1..])) + DigitsOf(b);
      }
    }
  }

  /** A ten-digit input normalises to a number whose digits are 1 followed by its own. */
  lemma TenDigitsNormalized(phone: string)
    requires '+' !in phone && |DigitsOf(phone)| == 10
    ensures DigitsOf(Normalize(phone)) == "1" + DigitsOf(phone)
  {
    NormalizeTenDigits(phone);
    DigitsOfAppend("+1", DigitsOf(phone));
    assert DigitsOf("+1") == "1";
  }

  /** A ten-digit input is displayed as "(AAA) PPP-LLLL" over its own digits. */
  lemma {:induction false} FormatDisplayTenDigits(phone: string)
    requires '+' !in phone && |DigitsOf(phone)| == 10
    ensures var d := DigitsOf(phone);
      FormatDisplay(phone) == UsDisplay(d[0..3], d[3..6], d[6..10])
  {
    TenDigitsNormalized(phone);
    DisplayUsNumber(Normalize(phone), DigitsOf(phone));
  }

  /** A number whose digits are 1 and ten more is displayed over those ten. */
  lemma DisplayUsNumber(n: string, d: string)
    requires DigitsOf(n) == "1" + d && |d| == 10
    ensures Display(n) == UsDisplay(d[0..3], d[3..6], d[6..10])
  {
    var e := DigitsOf(n);
    assert e[0] == '1' && |e| == 11 && e[1..] == d;
    DisplayEleven(n);
    SliceOfTail(e, 0, 3);
    SliceOfTail(e, 3, 6);
    SliceOfTail(e, 6, 10);
  }

  lemma DisplayEleven(n: string)
    requires |DigitsOf(n)| == 11 && DigitsOf(n)[0] == '1'
    ensures var e := DigitsOf(n); Display(n) == UsDisplay(e[1..4], e[4..7], e[7..11])
  {
  }

  /** Slicing the tail of s is slicing s one position further on. */
  lemma SliceOfTail(s: string, i: nat, j: nat)
    requires i <= j < |s|
    ensures s[1..][i..j] == s[i + 1..j + 1]
  {
  }

  /** The examples of the header comment: "(555) 123-4567" and "15551234567". */
  lemma {:induction false} ExamplePunctuated(s: string)
    requires s == "(555) 123-4567"
    ensures Normalize(s) == "+15551234567"
  {
    var a, b, c, d, e, f := "(", "555", ") ", "123", "-", "4567";
    PunctuatedText();
    assert DigitsOf(a) == "" && DigitsOf(c) == "" && DigitsOf(e) == "";
    assert AllDigits(b) && AllDigits(d) && AllDigits(f);
    DigitsOfGroups(a, b, c, d, e, f);
    NormalizeTenDigits(s);
  }

  /** Digits separated by punctuation: the digit groups, joined. */
  lemma DigitsOfGroups(a: string, b: string, c: string, d: string, e: string, f: string)
    requires DigitsOf(a) == "" && DigitsOf(c) == "" && DigitsOf(e) == ""
    requires AllDigits(b) && AllDigits(d) && AllDigits(f)
    ensures DigitsOf(a + b + c + d + e + f) == b + d + f
  {
    var x1, x2, x3, x4 := a + b, a + b + c, a + b + c + d, a + b + c + d + e;
    DigitsOfAppend(a, b);
    assert DigitsOf(x1) == b by { assert DigitsOf(b) == b; assert "" + b == b; }
    DigitsOfAppend(x1, c);
    assert DigitsOf(x2) == b by { assert b + "" == b; }
    DigitsOfAppend(x2, d);
    assert DigitsOf(x3) == b + d by { assert DigitsOf(d) == d; }
    DigitsOfAppend(x3, e);
    assert DigitsOf(x4) == b + d by { assert (b + d) + "" == b + d; }
    DigitsOfAppend(x4, f);
    assert DigitsOf(f) == f;
  }

  lemma PunctuatedText()
    ensures "(555) 123-4567" == "(" + "555" + ") " + "123" + "-" + "4567"
    ensures "555" + "123" + "4567" == "5551234567"
    ensures "+1" + "5551234567" == "+15551234567"
    ensures '+' !in "(555) 123-4567"
  {
  }

  lemma DisplayText()
    ensures UsDisplay("555", "123", "4567") == "(555) 123-4567"
  {
  }

  lemma {:induction false} ExampleElevenDigits(s: string)
    requires s == "15551234567"
    ensures Normalize(s) == "+15551234567"
  {
    assert AllDigits(s);
    NormalizeElevenDigits(s);
    assert Normalize(s) == "+" + s;
    ElevenText();
  }

  lemma ElevenText()
    ensures "+" + "15551234567" == "+15551234567"
  {
  }

  lemma ExampleNoDigits()
    ensures Normalize("abc") == "+"
  {
    assert Clean("abc") == "";
  }

  lemma E164Digits(s: string)
    requires s == "+15551234567"
    ensures Normalize(s) == s && DigitsOf(s) == "15551234567"
  {
    var t := "15551234567";
    assert s == "+" + t && AllDigits(t);
    PlusDigits(t);
  }

  /** `+` and digits are already normalised, and their digits are the digits after the `+`. */
  lemma PlusDigits(t: string)
    requires AllDigits(t)
    ensures Normalize("+" + t) == "+" + t && DigitsOf("+" + t) == t
  {
    var s := "+" + t;
    forall i | 0 <= i < |s| ensures IsDialChar(s[i]) {
      if i > 0 { assert s[i] == t[i - 1]; }
    }
    assert Clean(s) == s && StartsWith(s, '+');
    assert DigitsOf("+") == "";
    DigitsOfAppend("+", t);
  }

  lemma {:induction false} ExampleDisplay(s: string)
    requires s == "+15551234567"
    ensures FormatDisplay(s) == "(555) 123-4567"
  {
    E164Digits(s);
    var area, prefix, line := "555", "123", "4567";
    DisplayDigitsText();
    ThreeParts(area, prefix, line);
    DisplayUsNumber(s, area + prefix + line);
    DisplayText();
    assert FormatDisplay(s) == Display(s);
  }

  lemma DisplayDigitsText()
    ensures "15551234567" == "1" + ("555" + "123" + "4567")
  {
  }

  /** The three groups of a ten-digit number are its slices 0-3, 3-6 and 6-10. */
  lemma ThreeParts(a: string, b: string, c: string)
    requires |a| == 3 && |b| == 3 && |c| == 4
    ensures var d := a + b + c; d[0..3] == a && d[3..6] == b && d[6..10] == c
  {
    var d := a + b + c;
    assert d[0..3] == a;
    assert d[3..6] == b;
    assert d[6..10] == c;
  }
}
