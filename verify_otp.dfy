/** The reset OTP page (src/pages/Auth/VerifyOtp.tsx): it verifies the code
    for an address and hands the address on to the reset page.

    As written, the page takes the address only from the navigation state,
    but the forgot-password page navigates here without one and keeps the
    address in storage instead; the request then names the empty address.
    `EmailAsWritten` is that reading and `ResetEmail` the evidently intended
    one, which also consults the remembered address. */
module VerifyOtp {
  import opened Wrappers
  import opened Api
  import opened Navigation
  import opened Session
  import ForgotPassword

  const Verified := "OTP verified successfully!"
  const InvalidOtp := "Invalid OTP."
  const ResetPasswordPath := "/reset-password"

  /** The address as the page reads it: from the navigation state alone. */
  function EmailAsWritten(state: NavState): (email: string)
    ensures state.EmailState? ==> email == state.email
    ensures !state.EmailState? ==> email == ""
  {
    StateEmail(state)
  }

  /** After a successful forgot-password step, the page as written verifies
      the code for the empty address, whatever address the code was sent to. */
  lemma AsWrittenLosesAddress(storage: map<string, string>, email: string, otp: string)
    requires email != ""
    ensures ForgotPassword.Remembered(storage, email)[ForgotPassword.ResetEmailKey] == email
    ensures Call.VerifyOtp(EmailAsWritten(Go(ForgotPassword.VerifyOtpPath).state), otp) == Call.VerifyOtp("", otp)
    ensures Call.VerifyOtp(EmailAsWritten(Go(ForgotPassword.VerifyOtpPath).state), otp) != Call.VerifyOtp(email, otp)
  {
  }

  /** The address the page should use: the one in the navigation state when
      there is one, otherwise the one remembered by the forgot-password page. */
  function ResetEmail(state: NavState, storage: map<string, string>): (email: string)
    ensures StateEmail(state) != "" ==> email == StateEmail(state)
    ensures StateEmail(state) == "" ==> email == FieldOrEmpty(storage, ForgotPassword.ResetEmailKey)
  {
    if StateEmail(state) != "" then StateEmail(state)
    else FieldOrEmpty(storage, ForgotPassword.ResetEmailKey)
  }

  /** With the corrected reading, the address remembered by the
      forgot-password page reaches the OTP request and the reset page. */
  lemma CorrectedKeepsAddress(storage: map<string, string>, email: string, otp: string)
    ensures ResetEmail(Go(ForgotPassword.VerifyOtpPath).state, ForgotPassword.Remembered(storage, email)) == email
    ensures StateEmail(EmailState(ResetEmail(Go(ForgotPassword.VerifyOtpPath).state, ForgotPassword.Remembered(storage, email)))) == email
  {
  }

  /** When the page is opened with an address in its state, the corrected
      reading agrees with the page as written. */
  lemma CorrectedAgreesWithState(state: NavState, storage: map<string, string>)
    requires EmailAsWritten(state) != ""
    ensures ResetEmail(state, storage) == EmailAsWritten(state)
  {
  }

  class VerifyOtpPage {
    const email: string
    var otp: string
    var error: string
    var message: string

    /** Opening the page with navigation `state`: the address is read from
        the state alone, as the page does. */
    constructor (state: NavState)
      ensures email == EmailAsWritten(state)
      ensures otp == "" && error == "" && message == ""
    {
      email := EmailAsWritten(state);
      otp, error, message := "", "", "";
    }

    /** Opening the page with the corrected reading, which falls back to the
        address the forgot-password page remembered in `storage`. */
    constructor Corrected(state: NavState, storage: map<string, string>)
      ensures email == ResetEmail(state, storage)
      ensures otp == "" && error == "" && message == ""
    {
      email := ResetEmail(state, storage);
      otp, error, message := "", "", "";
    }

    /** Typing the code; no format check is made. */
    method EnterOtp(typed: string)
      modifies this
      ensures otp == typed && error == old(error) && message == old(message)
    {
      otp := typed;
    }

    /** `handleSubmit` */
    method HandleSubmit(reply: Reply<()>) returns (call: Call, nav: Option<Nav>)
      modifies this
      ensures call == Call.VerifyOtp(email, otp) && otp == old(otp)
      ensures reply.Ok? ==>
        message == Verified && error == "" && nav == Some(Nav(ResetPasswordPath, EmailState(email)))
      ensures reply.Err? ==>
        message == "" && error == ErrorText(reply.error, InvalidOtp) && nav == None
    {
      error := "";
      message := "";
      call := Call.VerifyOtp(email, otp);
      if reply.Ok? {
        message := Verified;
        nav := Some(Nav(ResetPasswordPath, EmailState(email)));
      } else {
        error := ErrorText(reply.error, InvalidOtp);
        nav := None;
      }
    }
  }
}
