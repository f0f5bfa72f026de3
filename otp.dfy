/** `validateOtp` (`ForgotPW2Activity.kt`): the five one-digit boxes of the
    password-reset code. The message is the toast the screen shows. */
module Otp {
  import opened Wrappers
  import opened Text

  const SetupMessage := "Please complete XML setup first"
  const IncompleteMessage := "Please enter complete OTP"
  const NotNumericMessage := "OTP should contain only numbers"

  /** The raw text of the five boxes. */
  datatype OtpFields = OtpFields(d1: string, d2: string, d3: string, d4: string, d5: string)

  /** The code: the five trimmed texts joined. */
  function OtpCode(f: OtpFields): string
  {
    Trim(f.d1) + Trim(f.d2) + Trim(f.d3) + Trim(f.d4) + Trim(f.d5)
  }

  /** `None` stands for boxes that were never bound to views, which makes
      the source's field access throw into its catch. */
  function ValidateOtp(fields: Option<OtpFields>): (r: Outcome<string>)
    ensures fields.None? <==> r == Fail(SetupMessage)
    ensures r.Fail? ==> r.error in {SetupMessage, IncompleteMessage, NotNumericMessage}
  {
    match fields
    case None => Fail(SetupMessage)
    case Some(f) =>
      if Trim(f.d1) == [] || Trim(f.d2) == [] || Trim(f.d3) == [] || Trim(f.d4) == [] || Trim(f.d5) == [] then
        Fail(IncompleteMessage)
      else if !AllDigits(OtpCode(f)) then
        Fail(NotNumericMessage)
      else
        Pass
  }

  lemma AllDigitsConcat(a: string, b: string)
    ensures AllDigits(a + b) <==> AllDigits(a) && AllDigits(b)
  {
    if AllDigits(a) && AllDigits(b) {
      forall i | 0 <= i < |a + b|
        ensures IsDigit((a + b)[i])
      {
        if i >= |a| {
          assert (a + b)[i] == b[i - |a|];
        }
      }
    }
    if AllDigits(a + b) {
      forall i | 0 <= i < |a|
        ensures IsDigit(a[i])
      {
        assert (a + b)[i] == a[i];
      }
      forall i | 0 <= i < |b|
        ensures IsDigit(b[i])
      {
        assert (a + b)[|a| + i] == b[i];
      }
    }
  }

  /** Five texts joined are all digits exactly when each text is. */
  lemma AllDigitsJoined(a: string, b: string, c: string, d: string, e: string)
    ensures AllDigits(a + b + c + d + e) <==>
              AllDigits(a) && AllDigits(b) && AllDigits(c) && AllDigits(d) && AllDigits(e)
  {
    AllDigitsConcat(a, b);
    AllDigitsConcat(a + b, c);
    AllDigitsConcat(a + b + c, d);
    AllDigitsConcat(a + b + c + d, e);
  }

  /** Accepted exactly when none of the five boxes is blank and every
      trimmed box is made of digits; a box may hold more than one digit. */
  lemma OtpAcceptedExactly(f: OtpFields)
    ensures ValidateOtp(Some(f)) == Pass <==>
              !IsBlank(f.d1) && !IsBlank(f.d2) && !IsBlank(f.d3) && !IsBlank(f.d4) && !IsBlank(f.d5) &&
              AllDigits(Trim(f.d1)) && AllDigits(Trim(f.d2)) && AllDigits(Trim(f.d3)) &&
              AllDigits(Trim(f.d4)) && AllDigits(Trim(f.d5))
  {
    AllDigitsJoined(Trim(f.d1), Trim(f.d2), Trim(f.d3), Trim(f.d4), Trim(f.d5));
  }

  /** A blank box is reported as incomplete whatever the other boxes hold;
      the numbers message needs every box filled and a non-digit in one of
      them. */
  lemma EmptyReportedFirst(f: OtpFields)
    ensures IsBlank(f.d1) || IsBlank(f.d2) || IsBlank(f.d3) || IsBlank(f.d4) || IsBlank(f.d5) ==>
              ValidateOtp(Some(f)) == Fail(IncompleteMessage)
    ensures ValidateOtp(Some(f)) == Fail(NotNumericMessage) <==>
              !IsBlank(f.d1) && !IsBlank(f.d2) && !IsBlank(f.d3) && !IsBlank(f.d4) && !IsBlank(f.d5) &&
              !(AllDigits(Trim(f.d1)) && AllDigits(Trim(f.d2)) && AllDigits(Trim(f.d3)) &&
                AllDigits(Trim(f.d4)) && AllDigits(Trim(f.d5)))
  {
    AllDigitsJoined(Trim(f.d1), Trim(f.d2), Trim(f.d3), Trim(f.d4), Trim(f.d5));
  }
}
