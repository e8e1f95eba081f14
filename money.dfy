/** The pt-BR currency mask of the client and billing forms and the parse applied
    to its output on save. The mask works on integer cents; the parse returns the
    exact decimal value that `parseFloat` reads from the cleaned string. */
module Money {
  import opened Text
  import opened Wrappers

  /** Writes a digit string with a '.' between groups of three, counted from the right. */
  function GroupThousands(s: string): string
    requires AllDigits(s)
    decreases |s|
  {
    if |s| <= 3 then s
    else GroupThousands(s[..|s| - 3]) + "." + s[|s| - 3..]
  }

  /** `Intl.NumberFormat("pt-BR", {minimumFractionDigits: 2, maximumFractionDigits: 2})`
      applied to `cents / 100`: grouped integer part, a comma, two decimals. */
  function FormatCents(cents: nat): string
  {
    GroupThousands(NatToString(cents / 100)) + "," + TwoDigits(cents % 100)
  }

  /** `handleCurrencyChange`: the new value of the amount field for what was typed. */
  function CurrencyMask(input: string): string
  {
    var d := OnlyDigits(input);
    if d == "" then "" else FormatCents(ParseNat(d))
  }

  /** The value `openEditModal` puts in the field for a stored contract value:
      empty for zero (a falsy number), the pt-BR form otherwise. */
  function EditValue(cents: nat): string
  {
    if cents == 0 then "" else FormatCents(cents)
  }

  // ---- the parse on save ----

  /** `s.replace(/\./g, "")`. */
  function RemoveDots(s: string): (r: string)
    ensures forall i :: 0 <= i < |r| ==> r[i] != '.'
  {
    if s == [] then [] else (if s[0] == '.' then [] else [s[0]]) + RemoveDots(s[1..])
  }

  /** `s.replace(",", ".")`: only the first comma becomes a point. */
  function CommaToPoint(s: string): string
  {
    if s == [] then []
    else if s[0] == ',' then "." + s[1..]
    else [s[0]] + CommaToPoint(s[1..])
  }

  /** The longest prefix of `s` made of digits. */
  function DigitRun(s: string): (r: string)
    ensures AllDigits(r) && |r| <= |s| && r == s[..|r|]
    ensures |r| < |s| ==> !IsDigit(s[|r|])
  {
    if s != [] && IsDigit(s[0]) then [s[0]] + DigitRun(s[1..]) else []
  }

  /** `parseFloat` on a string that starts with digits, a point and digits (either run
      may be empty): `None` stands for `NaN`, when no digit is read at all. */
  function ParseDecimal(s: string): (v: Option<real>)
    ensures v.Some? ==> v.value >= 0.0
  {
    var a := DigitRun(s);
    var rest := s[|a|..];
    var b := if rest != [] && rest[0] == '.' then DigitRun(rest[1..]) else [];
    if a == [] && b == [] then None else Some(DecimalValue(a, b))
  }

  /** The value of the numeral `a.b`. */
  function DecimalValue(a: string, b: string): (v: real)
    requires AllDigits(a) && AllDigits(b)
    ensures v >= 0.0
  {
    ParseNat(a) as real + ParseNat(b) as real / Pow10(|b|) as real
  }

  /** `parseFloat(value.replace(/\./g, "").replace(",", ".")) || 0`. */
  function ParseAmount(s: string): (v: real)
    ensures v >= 0.0
  {
    match ParseDecimal(CommaToPoint(RemoveDots(s)))
    case None => 0.0
    case Some(x) => x
  }

  // ---- lemmas ----

  lemma {:induction false} RemoveDotsAppend(a: string, b: string)
    ensures RemoveDots(a + b) == RemoveDots(a) + RemoveDots(b)
  {
    if a == [] {
      assert a + b == b;
    } else {
      assert (a + b)[1..] == a[1..] + b;
      RemoveDotsAppend(a[1..], b);
    }
  }

  lemma {:induction false} RemoveDotsOfDigits(s: string)
    requires AllDigits(s)
    ensures RemoveDots(s) == s
  {
    if s != [] {
      RemoveDotsOfDigits(s[1..]);
    }
  }

  lemma RemoveDotsBetween(g: string, lo: string)
    requires AllDigits(lo)
    ensures RemoveDots(g + "." + lo) == RemoveDots(g) + lo
  {
    RemoveDotsAppend(g + ".", lo);
    RemoveDotsAppend(g, ".");
    assert RemoveDots(".") == [] by {
      assert "."[1..] == [];
    }
    RemoveDotsOfDigits(lo);
  }

  /** Taking the dots out of a grouped numeral gives back its digits. */
  lemma {:induction false} RemoveDotsGroup(s: string)
    requires AllDigits(s)
    ensures RemoveDots(GroupThousands(s)) == s
    decreases |s|
  {
    if |s| <= 3 {
      RemoveDotsOfDigits(s);
    } else {
      var hi, lo := s[..|s| - 3], s[|s| - 3..];
      RemoveDotsGroup(hi);
      RemoveDotsBetween(GroupThousands(hi), lo);
      assert s == hi + lo;
    }
  }

  lemma {:induction false} CommaToPointAfterDigits(a: string, b: string)
    requires AllDigits(a)
    ensures CommaToPoint(a + "," + b) == a + "." + b
  {
    if a == [] {
      assert a + "," + b == "," + b;
    } else {
      assert (a + "," + b)[1..] == a[1..] + "," + b;
      CommaToPointAfterDigits(a[1..], b);
    }
  }

  lemma {:induction false} DigitRunOfDigits(a: string, rest: string)
    requires AllDigits(a)
    requires rest == [] || !IsDigit(rest[0])
    ensures DigitRun(a + rest) == a
  {
    if a != [] {
      assert (a + rest)[1..] == a[1..] + rest;
      DigitRunOfDigits(a[1..], rest);
    } else {
      assert a + rest == rest;
    }
  }

  lemma {:induction false} OnlyDigitsGroup(s: string)
    requires AllDigits(s)
    ensures OnlyDigits(GroupThousands(s)) == s
    decreases |s|
  {
    if |s| > 3 {
      var hi, lo := s[..|s| - 3], s[|s| - 3..];
      OnlyDigitsGroup(hi);
      DigitsAfterPunctuation(GroupThousands(hi), ".", lo);
      assert s == hi + lo;
    }
  }

  /** Where the separators go: a '.' exactly at every fourth position from the right
      end, digits everywhere else, and the leading digit kept in front. */
  lemma {:induction false} GroupShape(s: string)
    requires AllDigits(s) && |s| >= 1
    ensures var r := GroupThousands(s);
      && |r| == |s| + (|s| - 1) / 3
      && r[0] == s[0]
      && (forall i :: 0 <= i < |r| ==> (r[i] == '.' <==> (|r| - i) % 4 == 0))
      && (forall i :: 0 <= i < |r| ==> r[i] == '.' || IsDigit(r[i]))
    decreases |s|
  {
    var r := GroupThousands(s);
    if |s| > 3 {
      var front, tail := s[..|s| - 3], s[|s| - 3..];
      GroupShape(front);
      var g := GroupThousands(front);
      assert r == g + "." + tail;
      forall i | 0 <= i < |r|
        ensures (r[i] == '.' <==> (|r| - i) % 4 == 0) && (r[i] == '.' || IsDigit(r[i]))
      {
        if i < |g| {
          assert r[i] == g[i];
          ShiftMod4(|g| - i);
        } else if i > |g| {
          assert r[i] == tail[i - |g| - 1];
        }
      }
    } else {
      forall i | 0 <= i < |r|
        ensures (r[i] == '.' <==> (|r| - i) % 4 == 0) && (r[i] == '.' || IsDigit(r[i]))
      {
        assert r[i] == s[i];
      }
    }
  }

  lemma ShiftMod4(n: nat)
    ensures (n + 4) % 4 == n % 4
  {
  }

  /** The digits of a formatted amount, read as an integer, are its cents. */
  lemma FormatCentsDigits(cents: nat)
    ensures OnlyDigits(FormatCents(cents)) == NatToString(cents / 100) + TwoDigits(cents % 100)
    ensures ParseNat(OnlyDigits(FormatCents(cents))) == cents
  {
    var whole, frac := NatToString(cents / 100), TwoDigits(cents % 100);
    OnlyDigitsGroup(whole);
    DigitsAfterPunctuation(GroupThousands(whole), ",", frac);
    ParseNatAppend(whole, frac);
    ParseNatToString(cents / 100);
  }

  /** The pt-BR shape: a comma followed by exactly two decimals at the end, digits
      and a '.' every fourth position (counted from the comma) before it, and no
      leading zero unless the integer part is zero itself. */
  lemma FormatCentsShape(cents: nat)
    ensures var r := FormatCents(cents);
      && |r| >= 4
      && r[|r| - 3] == ','
      && AllDigits(r[|r| - 2..]) && ParseNat(r[|r| - 2..]) == cents % 100
      && (forall i :: 0 <= i < |r| - 3 ==> (r[i] == '.' <==> (|r| - 3 - i) % 4 == 0))
      && (forall i :: 0 <= i < |r| - 3 ==> r[i] == '.' || IsDigit(r[i]))
      && (r[0] == '0' <==> cents < 100)
  {
    var whole, frac := NatToString(cents / 100), TwoDigits(cents % 100);
    GroupShape(whole);
    JoinShape(GroupThousands(whole), frac);
    if cents < 100 {
      assert whole == [DigitChar(0)];
    }
  }

  /** A grouped integer part, a comma and two decimals: where each character lands. */
  lemma JoinShape(g: string, frac: string)
    requires |g| >= 1 && |frac| == 2
    requires forall i :: 0 <= i < |g| ==> (g[i] == '.' <==> (|g| - i) % 4 == 0)
    requires forall i :: 0 <= i < |g| ==> g[i] == '.' || IsDigit(g[i])
    ensures var r := g + "," + frac;
      && |r| == |g| + 3 && r[|r| - 3] == ',' && r[|r| - 2..] == frac && r[0] == g[0]
      && (forall i :: 0 <= i < |r| - 3 ==> (r[i] == '.' <==> (|r| - 3 - i) % 4 == 0))
      && (forall i :: 0 <= i < |r| - 3 ==> r[i] == '.' || IsDigit(r[i]))
  {
    var r := g + "," + frac;
    forall i | 0 <= i < |r| - 3
      ensures (r[i] == '.' <==> (|r| - 3 - i) % 4 == 0) && (r[i] == '.' || IsDigit(r[i]))
    {
      assert r[i] == g[i];
    }
    assert r[|r| - 2..] == frac;
  }

  /** No digits typed: the field is cleared; otherwise something is shown. */
  lemma CurrencyMaskEmpty(input: string)
    ensures CurrencyMask(input) == "" <==> OnlyDigits(input) == ""
  {
  }

  /** The mask shows the typed digits as cents, and re-reading its output gives the same cents. */
  lemma CurrencyMaskCents(input: string)
    requires OnlyDigits(input) != ""
    ensures ParseNat(OnlyDigits(CurrencyMask(input))) == ParseNat(OnlyDigits(input))
  {
    FormatCentsDigits(ParseNat(OnlyDigits(input)));
  }

  /** Masking a masked value changes nothing. */
  lemma CurrencyMaskIdempotent(input: string)
    ensures CurrencyMask(CurrencyMask(input)) == CurrencyMask(input)
  {
    if OnlyDigits(input) != "" {
      var c := ParseNat(OnlyDigits(input));
      FormatCentsDigits(c);
    }
  }

  /** Cleaning a formatted amount leaves its digits with a point before the decimals. */
  lemma CleanFormatted(cents: nat)
    ensures CommaToPoint(RemoveDots(FormatCents(cents)))
         == NatToString(cents / 100) + "." + TwoDigits(cents % 100)
  {
    var whole, frac := NatToString(cents / 100), TwoDigits(cents % 100);
    var g := GroupThousands(whole);
    calc {
      RemoveDots(FormatCents(cents));
      { RemoveDotsAppend(g + ",", frac); }
      RemoveDots(g + ",") + RemoveDots(frac);
      { RemoveDotsAppend(g, ","); }
      RemoveDots(g) + RemoveDots(",") + RemoveDots(frac);
      { RemoveDotsGroup(whole); RemoveDotsOfDigits(frac); assert RemoveDots(",") == ","; }
      whole + "," + frac;
    }
    CommaToPointAfterDigits(whole, frac);
  }

  /** `parseFloat` of `digits.digits`. */
  lemma ParsePointed(a: string, b: string)
    requires AllDigits(a) && AllDigits(b) && |a| >= 1
    ensures ParseDecimal(a + "." + b) == Some(DecimalValue(a, b))
  {
    var s := a + "." + b;
    assert s == a + ("." + b);
    DigitRunOfDigits(a, "." + b);
    assert DigitRun(s) == a;
    var rest := s[|a|..];
    assert rest == "." + b;
    assert rest != [] && rest[0] == '.';
    assert rest[1..] == b;
    DigitRunOfDigits(b, []);
    assert b + [] == b;
    assert DigitRun(rest[1..]) == b;
  }

  /** Saving a formatted amount stores cents / 100 exactly. */
  lemma ParseFormatted(cents: nat)
    ensures ParseAmount(FormatCents(cents)) == cents as real / 100.0
  {
    var whole, frac := NatToString(cents / 100), TwoDigits(cents % 100);
    CleanFormatted(cents);
    ParsePointed(whole, frac);
    ParseNatToString(cents / 100);
    assert Pow10(|frac|) == 100;
    CentsAsReal(cents);
  }

  lemma CentsAsReal(cents: nat)
    ensures (cents / 100) as real + (cents % 100) as real / 100.0 == cents as real / 100.0
  {
    var q, r := cents / 100, cents % 100;
    assert cents == 100 * q + r;
  }

  /** An empty field saves as zero. */
  lemma ParseEmpty()
    ensures ParseAmount("") == 0.0
  {
  }

  /** What the edit dialog shows for a stored value saves back as that value. */
  lemma EditRoundTrip(cents: nat)
    ensures ParseAmount(EditValue(cents)) == cents as real / 100.0
  {
    if cents != 0 {
      ParseFormatted(cents);
    }
  }

  /** Saving what the mask shows stores the typed digits read as cents, divided by 100. */
  lemma SaveMasked(input: string)
    ensures ParseAmount(CurrencyMask(input))
         == if OnlyDigits(input) == "" then 0.0 else ParseNat(OnlyDigits(input)) as real / 100.0
  {
    if OnlyDigits(input) != "" {
      ParseFormatted(ParseNat(OnlyDigits(input)));
    }
  }
}
