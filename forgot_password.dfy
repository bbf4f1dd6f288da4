/** The forgot-password page (src/pages/Auth/ForgotPassword.tsx): it asks
    for a reset OTP, remembers the address under "resetPasswordEmail" and
    moves on to the OTP page. */
module ForgotPassword {
  import opened Wrappers
  import opened Storage
  import opened Api
  import opened Navigation

  const ResetEmailKey := "resetPasswordEmail"
  const VerifyOtpPath := "/verify-otp"
  const OtpSent := "OTP sent to your email!"
  const SomethingWrong := "Something went wrong."

  /** The storage once the address has been remembered. */
  function Remembered(storage: map<string, string>, email: string): (s: map<string, string>)
    ensures ResetEmailKey in s && s[ResetEmailKey] == email
    ensures forall k :: k in storage && k != ResetEmailKey ==> k in s && s[k] == storage[k]
  {
    storage[ResetEmailKey := email]
  }

  class ForgotPasswordPage {
    var email: string
    var message: string
    var error: string
    var loading: bool
    const browser: Browser

    constructor (browser: Browser)
      ensures this.browser == browser && email == "" && message == "" && error == "" && !loading
    {
      this.browser := browser;
      email, message, error := "", "", "";
      loading := false;
    }

    /** `handleSubmit`. The delayed navigation is returned as the target it
        eventually reaches; it carries no state. */
    method HandleSubmit(reply: Reply<()>) returns (call: Call, nav: Option<Nav>, loadingDuringCall: bool)
      modifies this, browser
      ensures call == SendOtp(email) && loadingDuringCall && !loading
      ensures email == old(email) && browser.href == old(browser.href)
      ensures reply.Ok? ==>
        message == OtpSent && error == "" && nav == Some(Go(VerifyOtpPath))
        && browser.storage == Remembered(old(browser.storage), email)
      ensures reply.Err? ==>
        message == "" && error == ErrorText(reply.error, SomethingWrong) && nav == None
        && browser.storage == old(browser.storage)
    {
      message := "";
      error := "";
      loading := true;
      loadingDuringCall := loading;
      call := SendOtp(email);
      nav := None;
      if reply.Ok? {
        message := OtpSent;
        browser.SetItem(ResetEmailKey, email);
        nav := Some(Go(VerifyOtpPath));
      } else {
        error := ErrorText(reply.error, SomethingWrong);
      }
      loading := false;
    }
  }
}
