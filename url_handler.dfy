/** Phone-number display formatting and the `tel:` link text
    (utdisa/Utilities/URLHandler.swift). */
module UrlHandler {
  import opened Text

  /** US display format for a number with exactly ten digits; any other input
      is returned as typed (not digit-stripped). */
  function FormatPhoneNumber(phone: string): (r: string)
    ensures |Digits(phone)| == 10 ==> |r| == 14
    ensures |Digits(phone)| != 10 ==> r == phone
  {
    var cleaned := Digits(phone);
    if |cleaned| == 10 then
      var area := cleaned[..3];
      var prefix := cleaned[3..][..3];
      var number := cleaned[6..];
      "(" + area + ") " + prefix + "-" + number
    else
      phone
  }

  /** The formatted ten-digit number reads "(AAA) PPP-NNNN": punctuation at
      positions 0, 4, 5 and 9, and the input's digits, in order, elsewhere. */
  lemma FormatPhoneNumberShape(phone: string)
    requires |Digits(phone)| == 10
    ensures var r, d := FormatPhoneNumber(phone), Digits(phone);
      && r[0] == '(' && r[4] == ')' && r[5] == ' ' && r[9] == '-'
      && r[1..4] == d[..3] && r[6..9] == d[3..6] && r[10..] == d[6..]
  {
    var d := Digits(phone);
    assert FormatPhoneNumber(phone) == "(" + d[..3] + ") " + d[3..6] + "-" + d[6..];
    Layout(d[..3], d[3..6], d[6..]);
  }

  /** Where the pieces of "(AAA) PPP-NNNN" sit. */
  lemma Layout(a: string, p: string, n: string)
    requires |a| == 3 && |p| == 3 && |n| == 4
    ensures var r := "(" + a + ") " + p + "-" + n;
      && r[0] == '(' && r[4] == ')' && r[5] == ' ' && r[9] == '-'
      && r[1..4] == a && r[6..9] == p && r[10..] == n
  {
    var r := "(" + a + ") " + p + "-" + n;
    assert r[1..4] == a;
    assert r[6..9] == p;
    assert r[10..] == n;
  }

  /** Formatting never adds, drops or reorders a digit. */
  lemma FormatPhoneNumberKeepsDigits(phone: string)
    ensures Digits(FormatPhoneNumber(phone)) == Digits(phone)
  {
    var d := Digits(phone);
    if |d| == 10 {
      var a, p, n := d[..3], d[3..6], d[6..];
      assert FormatPhoneNumber(phone) == "(" + a + ") " + p + "-" + n;
      assert AllDigits(a) && AllDigits(p) && AllDigits(n);
      assert Digits(a) == a && Digits(p) == p && Digits(n) == n;
      assert Digits("(") == [] && Digits(") ") == [] && Digits("-") == [];
      LayoutDigits("(", a, ") ", p, "-", n);
      assert a + p + n == d;
    }
  }

  /** Separators without digits contribute nothing to the digits of a
      text they are spliced into. */
  lemma LayoutDigits(s1: string, a: string, s2: string, p: string, s3: string, n: string)
    requires Digits(s1) == [] && Digits(s2) == [] && Digits(s3) == []
    requires Digits(a) == a && Digits(p) == p && Digits(n) == n
    ensures Digits(s1 + a + s2 + p + s3 + n) == a + p + n
  {
    assert Digits(s1 + a) == a by {
      DigitsAppend(s1, a);
    }
    assert Digits(s1 + a + s2) == a by {
      DigitsAppend(s1 + a, s2);
    }
    assert Digits(s1 + a + s2 + p) == a + p by {
      DigitsAppend(s1 + a + s2, p);
    }
    assert Digits(s1 + a + s2 + p + s3) == a + p by {
      DigitsAppend(s1 + a + s2 + p, s3);
    }
    DigitsAppend(s1 + a + s2 + p + s3, n);
  }

  /** Formatting an already formatted number changes nothing. */
  lemma FormatPhoneNumberIdempotent(phone: string)
    ensures FormatPhoneNumber(FormatPhoneNumber(phone)) == FormatPhoneNumber(phone)
  {
    FormatPhoneNumberKeepsDigits(phone);
  }

  /** The text `phoneURL(from:)` hands to `URL(string:)`: the scheme followed by
      only the digits of the input. */
  function PhoneUrl(phone: string): (r: string)
    ensures HasPrefix(r, "tel://")
    ensures r[6..] == Digits(phone) && AllDigits(r[6..])
  {
    var cleaned := Digits(phone);
    "tel://" + cleaned
  }
}
