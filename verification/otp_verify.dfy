/** The OTP verification page: the input sanitiser (`replace(/\D/g, "").slice(0, 6)`),
    the rule that enables the submit button, and the request it sends. */
module OtpVerify {
  import opened Wrappers
  import opened Decimal

  const OtpLength := 6

  /** `replace(/\D/g, "")`: keeps the ASCII digits, in order. */
  function StripNonDigits(s: string): (r: string)
    ensures AllDigits(r) && |r| <= |s|
  {
    if s == [] then []
    else if IsDigit(s[0]) then [s[0]] + StripNonDigits(s[1..])
    else StripNonDigits(s[1..])
  }

  /** Stripping works piece by piece, so the digits keep their original order. */
  lemma {:induction false} StripNonDigitsAppend(a: string, b: string)
    ensures StripNonDigits(a + b) == StripNonDigits(a) + StripNonDigits(b)
  {
    if a != [] {
      assert (a + b)[0] == a[0] && (a + b)[1..] == a[1..] + b;
      StripNonDigitsAppend(a[1..], b);
    } else {
      assert a + b == b;
    }
  }

  /** Every digit of the input survives as often as it occurs, and nothing else does. */
  lemma {:induction false} StripNonDigitsCounts(s: string, c: char)
    ensures multiset(StripNonDigits(s))[c] == if IsDigit(c) then multiset(s)[c] else 0
  {
    if s != [] {
      assert s == [s[0]] + s[1..];
      StripNonDigitsCounts(s[1..], c);
    }
  }

  /** A string of digits passes through unchanged. */
  lemma {:induction false} StripDigitsOnly(s: string)
    requires AllDigits(s)
    ensures StripNonDigits(s) == s
  {
    if s != [] {
      StripDigitsOnly(s[1..]);
    }
  }

  /** `handleOtpChange`: the first six digits of what was typed. */
  function SanitizeOtp(s: string): (r: string)
    ensures AllDigits(r) && |r| <= OtpLength
    ensures |r| <= |StripNonDigits(s)| && r == StripNonDigits(s)[..|r|]
    ensures |StripNonDigits(s)| >= OtpLength ==> |r| == OtpLength
    ensures |StripNonDigits(s)| < OtpLength ==> r == StripNonDigits(s)
  {
    var digits := StripNonDigits(s);
    if |digits| <= OtpLength then digits else digits[..OtpLength]
  }

  /** A clean code of at most six digits is left as it is, so sanitising twice is
      sanitising once. */
  lemma SanitizeOtpIdempotent(s: string)
    ensures AllDigits(s) && |s| <= OtpLength ==> SanitizeOtp(s) == s
    ensures SanitizeOtp(SanitizeOtp(s)) == SanitizeOtp(s)
  {
    if AllDigits(s) && |s| <= OtpLength {
      StripDigitsOnly(s);
    }
    StripDigitsOnly(SanitizeOtp(s));
  }

  /** `disabled={verifyOTPMutation.isPending || otp.length !== 6}`, negated. */
  predicate SubmitEnabled(otp: string, pending: bool) {
    !(pending || |otp| != OtpLength)
  }

  /** Submission is possible exactly when no request is pending and a full code of
      six digits has been typed. */
  lemma SubmitRule(typed: string, pending: bool)
    ensures SubmitEnabled(SanitizeOtp(typed), pending) <==> !pending && |StripNonDigits(typed)| >= OtpLength
    ensures SubmitEnabled(SanitizeOtp(typed), pending) ==> AllDigits(SanitizeOtp(typed)) && |SanitizeOtp(typed)| == 6
  {
  }

  datatype VerifyOtpRequest = VerifyOtpRequest(phoneNumber: string, otpCode: string)

  /** `searchParams.get("phone") || ""` */
  function PhoneNumber(phoneParam: Option<string>): (p: string)
    ensures phoneParam.Some? ==> p == phoneParam.value
    ensures phoneParam.None? ==> p == ""
  {
    phoneParam.GetOr("")
  }

  /** `handleSubmit` */
  function SubmitRequest(phoneParam: Option<string>, otp: string): (r: VerifyOtpRequest)
    ensures r.otpCode == otp
    ensures r.phoneNumber == "" <==> phoneParam.None? || phoneParam.value == ""
    ensures r.phoneNumber != "" ==> phoneParam == Some(r.phoneNumber)
  {
    VerifyOtpRequest(PhoneNumber(phoneParam), otp)
  }
}
