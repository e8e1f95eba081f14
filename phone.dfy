/** The Brazilian phone mask of the client form: digits only, at most eleven,
    written as `(DD) DDDDD-DDDD` while they are typed. */
module Phone {
  import opened Text

  /** The field's `maxLength`. */
  const MaxLength: nat := 15

  /** The layout for a digit string of at most eleven digits, one branch per regex. */
  function Layout(d: string): (r: string)
    requires AllDigits(d) && |d| <= 11
  {
    if |d| > 10 then "(" + d[..2] + ") " + d[2..7] + "-" + d[7..11]
    else if |d| > 6 then "(" + d[..2] + ") " + d[2..7] + "-" + d[7..]
    else if |d| > 2 then "(" + d[..2] + ") " + d[2..]
    else if |d| > 0 then "(" + d
    else ""
  }

  /** The first eleven digits of the input. */
  function KeptDigits(input: string): (d: string)
    ensures AllDigits(d) && |d| <= 11
  {
    var d := OnlyDigits(input);
    if |d| > 11 then d[..11] else d
  }

  /** `handlePhoneChange`: the new value of the phone field. */
  function PhoneMask(input: string): (r: string)
  {
    Layout(KeptDigits(input))
  }

  lemma DigitsAfterParen(a: string)
    requires AllDigits(a)
    ensures OnlyDigits("(" + a) == a
  {
    OnlyDigitsAppend("(", a);
    assert NoDigits("(");
  }

  /** Digit groups separated by punctuation read back as the groups joined. */
  lemma DigitsBetween(a: string, p: string, b: string)
    requires AllDigits(a) && NoDigits(p) && AllDigits(b)
    ensures OnlyDigits("(" + a + p + b) == a + b
  {
    DigitsAfterParen(a);
    DigitsAfterPunctuation("(" + a, p, b);
  }

  lemma LayoutDigitsLong(d: string)
    requires AllDigits(d) && 6 < |d| <= 11
    ensures OnlyDigits("(" + d[..2] + ") " + d[2..7] + "-" + d[7..]) == d
  {
    var a, b, c := d[..2], d[2..7], d[7..];
    var front := "(" + a + ") " + b;
    DigitsBetween(a, ") ", b);
    DigitsAfterPunctuation(front, "-", c);
    assert d == a + b + c;
  }

  lemma LayoutDigitsShort(d: string)
    requires AllDigits(d) && 2 < |d|
    ensures OnlyDigits("(" + d[..2] + ") " + d[2..]) == d
  {
    DigitsBetween(d[..2], ") ", d[2..]);
    assert d == d[..2] + d[2..];
  }

  /** The punctuation the layout inserts holds no digit. */
  lemma {:induction false} LayoutDigits(d: string)
    requires AllDigits(d) && |d| <= 11
    ensures OnlyDigits(Layout(d)) == d
  {
    if |d| > 6 {
      assert |d| > 10 ==> d[7..11] == d[7..];
      LayoutDigitsLong(d);
    } else if |d| > 2 {
      LayoutDigitsShort(d);
    } else if |d| > 0 {
      DigitsAfterParen(d);
    }
  }

  /** The mask keeps exactly the first eleven digits of what was typed, in order. */
  lemma MaskKeepsDigits(input: string)
    ensures OnlyDigits(PhoneMask(input)) == KeptDigits(input)
    ensures var d := OnlyDigits(input);
            OnlyDigits(PhoneMask(input)) == if |d| > 11 then d[..11] else d
  {
    LayoutDigits(KeptDigits(input));
  }

  /** Masking a masked value changes nothing. */
  lemma MaskIdempotent(input: string)
    ensures PhoneMask(PhoneMask(input)) == PhoneMask(input)
  {
    LayoutDigits(KeptDigits(input));
  }

  /** Eleven digits give the full mobile layout, exactly as long as the field allows. */
  lemma MaskFull(input: string)
    requires |OnlyDigits(input)| >= 11
    ensures var d := OnlyDigits(input)[..11];
            PhoneMask(input) == "(" + d[..2] + ") " + d[2..7] + "-" + d[7..]
    ensures |PhoneMask(input)| == MaxLength
  {
    var d := OnlyDigits(input)[..11];
    assert KeptDigits(input) == d;
    assert d[7..11] == d[7..];
  }

  /** Seven to ten digits: the greedy middle group takes five digits, the last group
      the remaining zero to three. */
  lemma MaskPartial(input: string)
    requires 7 <= |OnlyDigits(input)| <= 10
    ensures var d := OnlyDigits(input);
            PhoneMask(input) == "(" + d[..2] + ") " + d[2..7] + "-" + d[7..]
            && |d[7..]| <= 3
  {
  }

  /** Three to six digits: area code, then the rest; one or two: an opening parenthesis;
      none: the empty string. */
  lemma MaskShort(input: string)
    requires |OnlyDigits(input)| <= 6
    ensures var d := OnlyDigits(input);
            PhoneMask(input) == if |d| > 2 then "(" + d[..2] + ") " + d[2..]
                                else if |d| > 0 then "(" + d
                                else ""
  {
  }

  /** Whatever is typed, the masked value fits the field. */
  lemma MaskFits(input: string)
    ensures |PhoneMask(input)| <= MaxLength
  {
  }
}
