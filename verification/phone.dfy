/** Phone-number normalisation, validation and display (lib/utils/phone.ts).
    Numbers are meant to approximate ITU-T Recommendation E.164: a "+", a
    country code and a subscriber number, at most fifteen digits in all, with
    India (+91) as the default country. */
module Phone {
  import opened Text

  /** "+" followed only by ASCII digits. */
  predicate PlusDigits(s: string) {
    1 <= |s| && s[0] == '+' && AllDigits(s[1..])
  }

  /** `formatPhoneE164`: strip every non-digit; a 12-digit "91…" number or a
      10-digit number becomes "+91…"; a longer number typed without "+" gets
      one; anything else is returned exactly as typed. */
  function FormatE164(phone: string): (r: string)
    ensures r == phone || PlusDigits(r)
    ensures r != phone ==> 12 <= |r| && (r[1..] == Digits(phone) || r[1..] == "91" + Digits(phone))
    ensures r != phone && r[1..] != Digits(phone) ==> |Digits(phone)| == 10 && r == "+91" + Digits(phone)
  {
    var digits := Digits(phone);
    if StartsWith(digits, "91") && |digits| == 12 then "+" + digits
    else if |digits| == 10 then "+91" + digits
    else if |digits| > 10 && !StartsWith(phone, "+") then "+" + digits
    else phone
  }

  /** Exactly ten digits, however punctuated, are read as an Indian number. */
  lemma FormatTenDigits(phone: string)
    requires |Digits(phone)| == 10
    ensures FormatE164(phone) == "+91" + Digits(phone)
  {
  }

  /** Twelve digits beginning "91" get a "+" whether or not one was typed. */
  lemma FormatIndianCountryCode(phone: string)
    requires |Digits(phone)| == 12 && StartsWith(Digits(phone), "91")
    ensures FormatE164(phone) == "+" + Digits(phone)
  {
  }

  /** Any other number of more than ten digits typed without "+" gets one. */
  lemma FormatOtherCountryCode(phone: string)
    requires |Digits(phone)| > 10 && !StartsWith(phone, "+")
    ensures FormatE164(phone) == "+" + Digits(phone)
  {
  }

  /** Everything else — fewer than ten digits, eleven or more digits typed
      after a "+" (other than the Indian case), or no digits at all — is
      returned verbatim, punctuation included. */
  lemma FormatVerbatim(phone: string)
    requires |Digits(phone)| != 10
    requires !(|Digits(phone)| == 12 && StartsWith(Digits(phone), "91"))
    requires |Digits(phone)| <= 10 || StartsWith(phone, "+")
    ensures FormatE164(phone) == phone
  {
  }

  lemma SpacedTailDigits()
    ensures Digits(" " + "43210") == "43210"
  {
    DigitsAppend(" ", "43210");
    DigitsOfNonDigits(" ");
    assert AllDigits("43210");
  }

  lemma SpacedDigits()
    ensures Digits("98765" + (" " + "43210")) == "9876543210"
  {
    DigitsAppend("98765", " " + "43210");
    SpacedTailDigits();
    assert AllDigits("98765");
  }

  /** A spaced ten-digit number gains the Indian country code. */
  lemma FormatSpacedExample(spaced: string)
    requires spaced == "98765 43210"
    ensures FormatE164(spaced) == "+919876543210"
  {
    assert spaced == "98765" + (" " + "43210");
    SpacedDigits();
    FormatTenDigits(spaced);
  }

  /** A number already in Indian international form is unchanged. */
  lemma FormatKeepsIndianE164(d: string)
    requires AllDigits(d) && |d| == 12 && StartsWith(d, "91")
    ensures FormatE164("+" + d) == "+" + d
  {
    DigitsAfterPlus(d);
  }

  lemma FormatInternationalExample(intl: string)
    requires intl == "+919876543210"
    ensures FormatE164(intl) == intl
  {
    var d := intl[1..];
    assert AllDigits(d) && |d| == 12 && d[..2] == "91";
    assert intl == "+" + d;
    FormatKeepsIndianE164(d);
  }

  /** Text without digits is returned as typed. */
  lemma FormatTextExample(text: string)
    requires text == "abc"
    ensures FormatE164(text) == text
  {
    DigitsOfNonDigits(text);
  }

  /** A leading "+" is stripped and the digits after it are kept. */
  lemma DigitsAfterPlus(d: string)
    requires AllDigits(d)
    ensures Digits("+" + d) == d
  {
    var s := "+" + d;
    assert s[0] == '+' && s[1..] == d;
  }

  /** Normalising a normalised number changes nothing. */
  lemma FormatIdempotent(phone: string)
    ensures FormatE164(FormatE164(phone)) == FormatE164(phone)
  {
    var digits := Digits(phone);
    var r := FormatE164(phone);
    if StartsWith(digits, "91") && |digits| == 12 {
      DigitsAfterPlus(digits);
    } else if |digits| == 10 {
      assert AllDigits("91" + digits);
      DigitsAfterPlus("91" + digits);
      assert "+91" + digits == "+" + ("91" + digits);
      assert ("91" + digits)[..2] == "91";
    } else if |digits| > 10 && !StartsWith(phone, "+") {
      DigitsAfterPlus(digits);
      assert StartsWith(r, "+");
    }
  }

  // ---------------------------------------------------------------------------
  // Validation: the regular expression /^\+[1-9][0-9]{7,15}$/
  // ---------------------------------------------------------------------------

  /** The states of a left-to-right matcher for the validation pattern; the
      trailing state counts the digits seen after the leading 1-9 digit. */
  datatype Scan = ExpectPlus | ExpectLeading | Trailing(count: nat) | Rejected

  function Step(st: Scan, c: char): Scan {
    match st
    case ExpectPlus => if c == '+' then ExpectLeading else Rejected
    case ExpectLeading => if '1' <= c <= '9' then Trailing(0) else Rejected
    case Trailing(n) => if IsDigit(c) && n < 15 then Trailing(n + 1) else Rejected
    case Rejected => Rejected
  }

  function Run(st: Scan, s: string): Scan
    decreases |s|
  {
    if |s| == 0 then st else Run(Step(st, s[0]), s[1..])
  }

  /** `validatePhoneE164`: the pattern anchored at both ends. */
  predicate ValidateE164(phone: string) {
    var end := Run(ExpectPlus, phone);
    end.Trailing? && 7 <= end.count
  }

  /** The language of the pattern, stated declaratively: "+", a digit 1-9,
      then 7 to 15 more digits, so 9 to 17 characters in all. */
  predicate E164Shape(s: string) {
    9 <= |s| <= 17 && s[0] == '+' && '1' <= s[1] <= '9' && AllDigits(s[2..])
  }

  lemma {:induction false} RunRejected(s: string)
    ensures Run(Rejected, s) == Rejected
    decreases |s|
  {
    if |s| > 0 {
      RunRejected(s[1..]);
    }
  }

  lemma {:induction false} RunTrailing(n: nat, s: string)
    requires n <= 15
    ensures Run(Trailing(n), s) == if AllDigits(s) && n + |s| <= 15 then Trailing(n + |s|) else Rejected
    decreases |s|
  {
    if |s| > 0 {
      if IsDigit(s[0]) && n < 15 {
        RunTrailing(n + 1, s[1..]);
      } else {
        RunRejected(s[1..]);
      }
    }
  }

  /** The matcher accepts exactly the strings of the declared shape. */
  lemma ValidateIff(s: string)
    ensures ValidateE164(s) <==> E164Shape(s)
  {
    if |s| >= 1 {
      if s[0] != '+' {
        RunRejected(s[1..]);
      } else if |s| >= 2 {
        var t := s[1..];
        assert t[0] == s[1];
        assert Run(ExpectPlus, s) == Run(ExpectLeading, t);
        if '1' <= s[1] <= '9' {
          assert Run(ExpectLeading, t) == Run(Trailing(0), t[1..]);
          assert t[1..] == s[2..];
          RunTrailing(0, s[2..]);
          assert Run(ExpectPlus, s) == Run(Trailing(0), s[2..]);
          assert ValidateE164(s) ==> E164Shape(s);
          assert E164Shape(s) ==> ValidateE164(s);
        } else {
          assert !E164Shape(s);
          assert Run(ExpectLeading, t) == Run(Rejected, t[1..]);
          RunRejected(t[1..]);
          assert Run(ExpectPlus, s) == Rejected;
        }
      }
    }
  }

  /** ITU-T E.164 allows at most fifteen digits, but the pattern admits one
      more: every "+" followed by sixteen digits with a non-zero lead
      validates. */
  lemma ValidateAdmitsSixteenDigits(s: string)
    requires |s| == 17 && s[0] == '+' && '1' <= s[1] <= '9' && AllDigits(s[2..])
    ensures ValidateE164(s)
  {
    ValidateIff(s);
  }

  /** What validation does guarantee: "+" and then 8 to 16 digits. */
  lemma ValidateDigitCount(s: string)
    requires ValidateE164(s)
    ensures PlusDigits(s) && 8 <= |s| - 1 <= 16
  {
    ValidateIff(s);
  }

  /** The two Indian-number branches of `FormatE164` always produce a valid
      number; the "other country code" branch need not (it keeps a leading
      zero or any number of digits). */
  lemma FormatIndianIsValid(phone: string)
    requires |Digits(phone)| == 10 || (|Digits(phone)| == 12 && StartsWith(Digits(phone), "91"))
    ensures ValidateE164(FormatE164(phone))
  {
    var r := FormatE164(phone);
    ValidateIff(r);
    if |Digits(phone)| == 10 {
      assert r == "+91" + Digits(phone);
      assert r[1] == '9';
      assert r[2..] == "1" + Digits(phone);
    } else {
      assert r == "+" + Digits(phone);
      assert r[1] == Digits(phone)[0] == '9';
      assert r[2..] == Digits(phone)[1..];
    }
  }

  /** The third branch can yield a number the validator refuses: a leading
      zero, or more than sixteen digits. */
  lemma FormatOtherBranchMayBeInvalid(phone: string)
    requires |Digits(phone)| > 10 && !StartsWith(phone, "+")
    requires Digits(phone)[0] == '0' || |Digits(phone)| > 16
    ensures !ValidateE164(FormatE164(phone))
  {
    var r := FormatE164(phone);
    ValidateIff(r);
    assert r == "+" + Digits(phone);
    assert r[1] == Digits(phone)[0];
  }

  // ---------------------------------------------------------------------------
  // Display
  // ---------------------------------------------------------------------------

  /** `formatPhoneDisplay`: an Indian number is split as "+91 XXXXX YYYYY"
      (`slice` clamps short numbers); any other text is shown unchanged. */
  function FormatDisplay(phone: string): (r: string)
    ensures !StartsWith(phone, "+91") ==> r == phone
    ensures StartsWith(phone, "+91") ==> |r| == |phone| + 2 && StartsWith(r, "+91 ")
  {
    if StartsWith(phone, "+91") then
      var number := phone[3..];
      var cut := if |number| < 5 then |number| else 5;
      "+91 " + number[..cut] + " " + number[cut..]
    else phone
  }

  /** Display inserts exactly two spaces — after "+91" and after the next
      five characters — and removing them gives back the number. */
  lemma DisplayOnlyInsertsSpaces(phone: string)
    requires StartsWith(phone, "+91")
    ensures var k := if |phone| - 3 < 5 then |phone| - 3 else 5;
      var r := FormatDisplay(phone);
      r[3] == ' ' && r[4 + k] == ' ' && r[..3] + r[4..4 + k] + r[5 + k..] == phone
  {
    var k := if |phone| - 3 < 5 then |phone| - 3 else 5;
    var number := phone[3..];
    var r := FormatDisplay(phone);
    assert r == "+91 " + number[..k] + " " + number[k..];
    assert r[..3] == phone[..3];
    assert r[4..4 + k] == number[..k];
    assert r[5 + k..] == number[k..];
    assert phone == phone[..3] + number[..k] + number[k..];
  }

  /** A normalised ten-digit Indian number displays as "+91 XXXXX YYYYY". */
  lemma DisplayOfIndianNumber(ten: string)
    requires |ten| == 10 && AllDigits(ten)
    ensures FormatDisplay("+91" + ten) == "+91 " + ten[..5] + " " + ten[5..]
  {
    assert ("+91" + ten)[..3] == "+91";
    assert ("+91" + ten)[3..] == ten;
  }
}
