/** The `pattern` attributes of the record forms and the browser's constraint
    validation of a `required` text control (section 4.10.5.3.6 of the WHATWG
    HTML Standard: the pattern must match the entire value, and an empty
    value is never checked against it; section 4.10.5.3.4: a required control
    with an empty value is missing). */
module Patterns {
  import opened Common
  import opened Decimal

  /** The three patterns the forms use. */
  datatype Pattern =
    | Price  // `[0-9]+(\.[0-9][0-9]?)?`, cost and selling price
    | Count  // `[0-9]+`, stock quantity
    | Phone  // `\d{10}`, customer and supplier phone

  /** `[0-9]+` as a language. */
  predicate Digits(s: string)
  {
    |s| > 0 && AllDigits(s)
  }

  /** `[0-9]+(\.[0-9][0-9]?)?` as a language: an integer part, or an integer
      part, a point and one or two fraction digits. */
  ghost predicate PriceLanguage(s: string)
  {
    Digits(s) ||
    exists k :: 0 < k < |s| && Digits(s[..k]) && s[k] == '.' && Digits(s[k + 1..]) && |s| - (k + 1) <= 2
  }

  /** `\d{10}` as a language (`\d` is the ASCII digits). */
  predicate PhoneLanguage(s: string)
  {
    |s| == 10 && AllDigits(s)
  }

  /** A split of `s` at `k` with digits before it and a non-digit (or the end)
      at it is the longest digit run. */
  lemma DigitRunAt(s: string, k: nat)
    requires k <= |s| && AllDigits(s[..k])
    requires k < |s| ==> !IsDigit(s[k])
    ensures DigitRun(s) == k
  {
  }

  /** The price matcher: the longest digit run, then either the end or a point
      followed by one or two digits that reach the end. */
  predicate MatchesPrice(s: string)
  {
    var k := DigitRun(s);
    k > 0 && (k == |s| || (s[k] == '.' && 2 <= |s| - k <= 3 && AllDigits(s[k + 1..])))
  }

  /** The matcher accepts exactly the language of the price pattern. */
  lemma MatchesPriceIsLanguage(s: string)
    ensures MatchesPrice(s) <==> PriceLanguage(s)
  {
    var k := DigitRun(s);
    if MatchesPrice(s) {
      if k == |s| {
        assert s[..k] == s;
      } else {
        assert Digits(s[..k]) && Digits(s[k + 1..]);
      }
    }
    if PriceLanguage(s) {
      if Digits(s) {
        assert s[..|s|] == s;
        DigitRunAt(s, |s|);
      } else {
        var j :| 0 < j < |s| && Digits(s[..j]) && s[j] == '.' && Digits(s[j + 1..]) && |s| - (j + 1) <= 2;
        DigitRunAt(s, j);
      }
    }
  }

  /** Whether the pattern matches the entire value. */
  function Matches(p: Pattern, s: string): (b: bool)
    ensures p == Price ==> (b <==> PriceLanguage(s))
    ensures p == Count ==> (b <==> Digits(s))
    ensures p == Phone ==> (b <==> PhoneLanguage(s))
  {
    MatchesPriceIsLanguage(s);
    match p
    case Price => MatchesPrice(s)
    case Count => Digits(s)
    case Phone => PhoneLanguage(s)
  }

  /** The constraint a text control puts on its value: not missing when
      required, and matching its pattern unless empty. */
  predicate Satisfies(required: bool, pattern: Option<Pattern>, value: string)
  {
    !(required && value == "") && (value == "" || pattern.None? || Matches(pattern.value, value))
  }

  /** For every pattern here, a required control accepts exactly the values
      the pattern matches whole: none of them matches the empty value. */
  lemma RequiredPatternIsWholeMatch(p: Pattern, value: string)
    ensures Satisfies(true, Some(p), value) <==> Matches(p, value)
  {
    if value == "" {
      assert !Digits(value) && !PhoneLanguage(value);
      assert !MatchesPrice(value);
    }
  }

  /** The pattern is anchored at both ends: a matching price followed by any
      further character other than a digit is rejected, so "12.5x" or "3 "
      does not pass. */
  lemma {:induction false} PriceRejectsTrailingText(s: string, c: char)
    requires MatchesPrice(s)
    requires !IsDigit(c)
    ensures !MatchesPrice(s + [c])
  {
    var t := s + [c];
    var k := DigitRun(s);
    assert forall i :: 0 <= i < |s| ==> t[i] == s[i];
    assert t[..k] == s[..k];
    DigitRunAt(t, k);
    if k == |s| {
      assert t[k] == c && |t| - k == 1;
    } else {
      assert t[k + 1..][|t| - k - 2] == c;
    }
  }

  /** A price has at most two digits after its point. */
  lemma PriceFractionAtMostTwo(s: string, k: nat)
    requires MatchesPrice(s)
    requires k < |s| && s[k] == '.'
    ensures |s| - (k + 1) <= 2 && 1 <= |s| - (k + 1)
  {
  }
}
