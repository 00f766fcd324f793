/** E.164 normalisation, masking and log scrubbing (app/core/phone.py), over ASCII text. */
module Phone {
  import opened Basics

  datatype PhoneError = EmptyNumber | NoDigits | NotE164

  const DEFAULT_COUNTRY_PREFIX: string := "7"
  const NATIONAL_NUMBER_LENGTH: nat := 11

  /** ASCII white space as `str.strip` sees it. */
  predicate IsSpace(c: char) {
    c in {' ', '\t', '\n', '\r', '\U{000B}', '\U{000C}', '\U{001C}', '\U{001D}', '\U{001E}', '\U{001F}'}
  }

  function StripLeft(s: string): string {
    if s != "" && IsSpace(s[0]) then StripLeft(s[1..]) else s
  }

  function StripRight(s: string): string {
    if s != "" && IsSpace(s[|s| - 1]) then StripRight(s[..|s| - 1]) else s
  }

  function Strip(s: string): string {
    StripRight(StripLeft(s))
  }

  /** A plus, a non-zero digit, then six to fourteen further digits. */
  predicate IsE164(s: string) {
    8 <= |s| <= 16 && s[0] == '+' && AllDigits(s[1..]) && s[1] != '0'
  }

  /** National and international prefixes of a number written without a plus. */
  function Internationalise(digits: string): string
    requires digits != ""
  {
    if digits[0] == '8' && |digits| == NATIONAL_NUMBER_LENGTH then DEFAULT_COUNTRY_PREFIX + digits[1..]
    else if |digits| >= 2 && digits[..2] == "00" then digits[2..]
    else digits
  }

  function FromDigits(hasPlus: bool, digits: string): Result<string, PhoneError> {
    if digits == "" then Err(NoDigits)
    else
      var candidate := "+" + (if hasPlus then digits else Internationalise(digits));
      if IsE164(candidate) then Ok(candidate) else Err(NotE164)
  }

  function Normalize(value: string): Result<string, PhoneError> {
    var raw := Strip(value);
    if raw == "" then Err(EmptyNumber) else FromDigits(raw[0] == '+', DigitsOf(raw))
  }

  // ---- What normalisation depends on -------------------------------------

  /** First character that is not white space; a space when there is none. */
  function Lead(s: string): char {
    if s == "" then ' ' else if IsSpace(s[0]) then Lead(s[1..]) else s[0]
  }

  lemma {:induction false} StripLeftFacts(s: string)
    ensures StripLeft(s) == "" <==> IsSpace(Lead(s))
    ensures StripLeft(s) != "" ==> StripLeft(s)[0] == Lead(s)
    ensures DigitsOf(StripLeft(s)) == DigitsOf(s)
  {
    if s != "" && IsSpace(s[0]) {
      StripLeftFacts(s[1..]);
    }
  }

  lemma {:induction false} StripRightFacts(s: string)
    ensures s != "" && !IsSpace(s[0]) ==> StripRight(s) != "" && StripRight(s)[0] == s[0]
    ensures DigitsOf(StripRight(s)) == DigitsOf(s)
  {
    if s != "" && IsSpace(s[|s| - 1]) {
      var front := s[..|s| - 1];
      assert s == front + [s[|s| - 1]];
      DigitsOfConcat(front, [s[|s| - 1]]);
      StripRightFacts(front);
    }
  }

  lemma StripFacts(s: string)
    ensures Strip(s) == "" <==> IsSpace(Lead(s))
    ensures Strip(s) != "" ==> Strip(s)[0] == Lead(s)
    ensures DigitsOf(Strip(s)) == DigitsOf(s)
  {
    StripLeftFacts(s);
    StripRightFacts(StripLeft(s));
  }

  /** The result is a function of the leading character and the digits alone. */
  lemma NormalizeDependsOn(s: string)
    ensures Normalize(s) == if IsSpace(Lead(s)) then Err(EmptyNumber) else FromDigits(Lead(s) == '+', DigitsOf(s))
  {
    StripFacts(s);
  }

  /** Two texts with the same digits and the same first visible character normalise alike. */
  lemma SameReading(x: string, y: string)
    requires DigitsOf(x) == DigitsOf(y)
    requires Lead(x) == Lead(y) || (IsSpace(Lead(x)) && IsSpace(Lead(y)))
    ensures Normalize(x) == Normalize(y)
  {
    NormalizeDependsOn(x);
    NormalizeDependsOn(y);
  }

  lemma {:induction false} LeadOfConcat(s: string, t: string)
    ensures Lead(s + t) == if IsSpace(Lead(s)) then Lead(t) else Lead(s)
  {
    if s == "" {
      assert s + t == t;
    } else {
      assert (s + t)[1..] == s[1..] + t;
      LeadOfConcat(s[1..], t);
    }
  }

  lemma DigitsOfOther(c: char)
    requires !IsDigit(c)
    ensures DigitsOf([c]) == ""
  {
  }

  lemma DigitsSkip(before: string, c: char, after: string)
    requires !IsDigit(c)
    ensures DigitsOf(before + [c] + after) == DigitsOf(before + after)
  {
    DigitsOfConcat(before + [c], after);
    DigitsOfConcat(before, [c]);
    DigitsOfConcat(before, after);
    DigitsOfOther(c);
  }

  /** A non-digit inserted anywhere after the first visible character changes nothing. */
  lemma InteriorPunctuationIgnored(before: string, c: char, after: string)
    requires !IsSpace(Lead(before))
    requires !IsDigit(c)
    ensures Normalize(before + [c] + after) == Normalize(before + after)
  {
    DigitsSkip(before, c, after);
    LeadOfConcat(before, [c]);
    LeadOfConcat(before + [c], after);
    LeadOfConcat(before, after);
    SameReading(before + [c] + after, before + after);
  }

  /** Surrounding white space changes nothing, for every input. */
  lemma SurroundingSpaceIgnored(s: string, c: char)
    requires IsSpace(c)
    ensures Normalize([c] + s) == Normalize(s)
    ensures Normalize(s + [c]) == Normalize(s)
  {
    DigitsSkip("", c, s);
    DigitsSkip(s, c, "");
    assert "" + [c] + s == [c] + s && "" + s == s && s + [c] + "" == s + [c] && s + "" == s;
    LeadOfConcat([c], s);
    LeadOfConcat(s, [c]);
    SameReading([c] + s, s);
    SameReading(s + [c], s);
  }

  // ---- Canonical form ------------------------------------------------------

  lemma NormalizeFixesE164(e: string)
    requires IsE164(e)
    ensures Normalize(e) == Ok(e)
  {
    NormalizeDependsOn(e);
    assert e == "+" + e[1..];
    DigitsOfConcat("+", e[1..]);
    DigitsOfDigits(e[1..]);
    assert DigitsOf("+") == "";
  }

  /** Every successful result is strict E.164, so normalising it again changes nothing. */
  lemma NormalizeIdempotent(value: string)
    requires Normalize(value).Ok?
    ensures IsE164(Normalize(value).value)
    ensures Normalize(Normalize(value).value) == Normalize(value)
  {
    NormalizeFixesE164(Normalize(value).value);
  }

  /** `00` in front of digits means what `+` in front of them means. */
  lemma DoubleZeroIsPlus(digits: string)
    requires AllDigits(digits)
    ensures Normalize("00" + digits).Ok? <==> Normalize("+" + digits).Ok?
    ensures Normalize("00" + digits).Ok? ==> Normalize("00" + digits) == Normalize("+" + digits)
  {
    ReadPlus(digits);
    ReadZeros(digits);
  }

  lemma ReadPlus(digits: string)
    requires AllDigits(digits)
    ensures Normalize("+" + digits) == FromDigits(true, digits)
  {
    LeadOfConcat("+", digits);
    assert Lead("+") == '+';
    DigitsOfConcat("+", digits);
    DigitsOfDigits(digits);
    DigitsOfOther('+');
    NormalizeDependsOn("+" + digits);
  }

  lemma ReadZeros(digits: string)
    requires AllDigits(digits)
    ensures Normalize("00" + digits).Ok? <==> FromDigits(true, digits).Ok?
    ensures FromDigits(true, digits).Ok? ==> Normalize("00" + digits) == FromDigits(true, digits)
  {
    var zeros := "00" + digits;
    LeadOfConcat("0", "0" + digits);
    assert Lead("0") == '0' && "0" + ("0" + digits) == zeros;
    DigitsOfDigits(zeros);
    assert zeros[2..] == digits && zeros[..2] == "00";
    NormalizeDependsOn(zeros);
  }

  /** The three ways to write one national number of ten digits are one number. */
  lemma NotationsAgree(national: string)
    requires AllDigits(national) && |national| == 10
    ensures Normalize("8" + national) == Ok("+7" + national)
    ensures Normalize("007" + national) == Ok("+7" + national)
    ensures Normalize("+7" + national) == Ok("+7" + national)
  {
    var e := "+7" + national;
    assert e[1..] == "7" + national;
    NormalizeFixesE164(e);
    DoubleZeroIsPlus("7" + national);
    assert "00" + ("7" + national) == "007" + national && "+" + ("7" + national) == e;
    LeadOfConcat("8", national);
    assert Lead("8") == '8' && ("8" + national)[1..] == national;
    DigitsOfDigits("8" + national);
    NormalizeDependsOn("8" + national);
  }
}
