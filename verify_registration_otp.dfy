/** The registration OTP page (src/pages/Auth/VerifyRegistrationOtp.tsx):
    it reads the form parked under "pendingRegistration", checks a six-digit
    code, verifies it, completes the registration and sends the visitor to
    the sign-in page. */
module VerifyRegistrationOtp {
  import opened Wrappers
  import opened Text
  import opened Storage
  import opened Api
  import opened Navigation
  import opened Session
  import Register

  const MissingData := "Registration data missing. Please register again."
  const InvalidOtp := "Please enter a valid 6-digit OTP."
  const Completed := "Registration completed successfully! Redirecting to login..."
  const VerifyFailed := "Failed to verify OTP. Please try again."

  /** What `JSON.parse` makes of the parked text: each member may be absent
      (`undefined`). */
  datatype PendingForm = PendingForm(name: Option<string>, email: Option<string>, password: Option<string>)

  /** The first `n` characters of `s` (the input's `maxLength`). */
  function Take(s: string, n: nat): (r: string)
    ensures |r| == if |s| < n then |s| else n
    ensures r == s[..|r|]
  {
    if |s| <= n then s else s[..n]
  }

  /** The code field: at most six typed characters, of which only the digits
      are kept. */
  function SanitizeOtp(typed: string): (otp: string)
    ensures |otp| <= 6 && AllDigits(otp)
    ensures AllDigits(typed) && |typed| <= 6 ==> otp == typed
  {
    KeepDigits(Take(typed, 6))
  }

  /** `!otp || otp.length !== 6`, negated. */
  predicate OtpAcceptable(otp: string) {
    otp != "" && |otp| == 6
  }

  /** The digit filter keeps the whole text only when the text is all digits. */
  lemma {:induction false} KeepDigitsKeepsAllOnlyForDigits(s: string)
    requires |KeepDigits(s)| == |s|
    ensures AllDigits(s)
  {
    if s != [] {
      if !IsDigit(s[0]) {
        // the filter would have dropped s[0], so it kept fewer than |s| characters
        assert false;
      }
      KeepDigitsKeepsAllOnlyForDigits(s[1..]);
      forall i | 0 <= i < |s| ensures IsDigit(s[i]) {
        if i > 0 {
          assert s[i] == s[1..][i - 1];
        }
      }
    }
  }

  /** A typed code passes the length check exactly when its first six
      characters are there and are all digits. */
  lemma SanitizedOtpAcceptableIff(typed: string)
    ensures OtpAcceptable(SanitizeOtp(typed)) <==> |typed| >= 6 && AllDigits(typed[..6])
  {
    var t := Take(typed, 6);
    if OtpAcceptable(SanitizeOtp(typed)) {
      KeepDigitsKeepsAllOnlyForDigits(t);
    }
  }

  class VerifyRegistrationPage {
    var email: Option<string>
    var otp: string
    var message: string
    var error: string
    var loading: bool
    const browser: Browser

    constructor (browser: Browser)
      ensures this.browser == browser
      ensures email == Some("") && otp == "" && message == "" && error == "" && !loading
    {
      this.browser := browser;
      email := Some("");
      otp := "";
      message, error := "", "";
      loading := false;
    }

    /** The load effect. `parsed` is what `JSON.parse` makes of the parked
        text; a text it cannot parse makes the effect throw, which is not
        modelled, so `parsed` is then `None` and nothing changes. */
    method Load(parsed: Option<PendingForm>)
      modifies this
      ensures otp == old(otp) && message == old(message) && loading == old(loading)
      ensures !Truthy(browser.GetItem(Register.PendingKey)) ==> error == MissingData && email == old(email)
      ensures Truthy(browser.GetItem(Register.PendingKey)) && parsed.Some? ==>
        email == parsed.value.email && error == old(error)
      ensures Truthy(browser.GetItem(Register.PendingKey)) && parsed.None? ==>
        email == old(email) && error == old(error)
    {
      var stored := browser.GetItem(Register.PendingKey);
      if Truthy(stored) {
        if parsed.Some? {
          email := parsed.value.email;
        }
      } else {
        error := MissingData;
      }
    }

    /** Typing into the code field. */
    method EnterOtp(typed: string)
      modifies this
      ensures otp == SanitizeOtp(typed)
      ensures email == old(email) && message == old(message) && error == old(error) && loading == old(loading)
    {
      otp := SanitizeOtp(typed);
    }

    /** `handleVerify`. `parsed` is what `JSON.parse` makes of the parked text
        (of "{}" when none is parked), `None` when it throws. The session is
        not signed in: only the parked form is removed. */
    method HandleVerify(verifyReply: Reply<()>, parsed: Option<PendingForm>, completeReply: Reply<()>)
      returns (calls: seq<Call>, nav: Option<Nav>, loadingDuringCall: bool)
      modifies this, browser
      ensures email == old(email) && otp == old(otp) && browser.href == old(browser.href)
      ensures !OtpAcceptable(otp) ==>
        calls == [] && nav == None && error == InvalidOtp && message == ""
        && loading == old(loading) && browser.storage == old(browser.storage)
      ensures OtpAcceptable(otp) ==>
        |calls| >= 1 && calls[0] == VerifyRegistrationOtp(email, otp) && loadingDuringCall && !loading
      ensures OtpAcceptable(otp) && verifyReply.Err? ==>
        calls == [VerifyRegistrationOtp(email, otp)] && nav == None && message == ""
        && error == ErrorText(verifyReply.error, VerifyFailed) && browser.storage == old(browser.storage)
      ensures OtpAcceptable(otp) && verifyReply.Ok? && parsed.None? ==>
        calls == [VerifyRegistrationOtp(email, otp)] && nav == None && message == ""
        && error == VerifyFailed && browser.storage == old(browser.storage)
      ensures OtpAcceptable(otp) && verifyReply.Ok? && parsed.Some? ==>
        calls == [VerifyRegistrationOtp(email, otp),
                  Call.CompleteRegistration(parsed.value.name, email, parsed.value.password)]
      ensures OtpAcceptable(otp) && verifyReply.Ok? && parsed.Some? && completeReply.Ok? ==>
        nav == Some(Go("/login")) && message == Completed && error == ""
        && browser.storage == old(browser.storage) - {Register.PendingKey}
      ensures OtpAcceptable(otp) && verifyReply.Ok? && parsed.Some? && completeReply.Err? ==>
        nav == None && message == "" && error == ErrorText(completeReply.error, VerifyFailed)
        && browser.storage == old(browser.storage)
    {
      error := "";
      message := "";
      calls, nav, loadingDuringCall := [], None, loading;
      if !OtpAcceptable(otp) {
        error := InvalidOtp;
      } else {
        loading := true;
        loadingDuringCall := loading;
        calls := [VerifyRegistrationOtp(email, otp)];
        if verifyReply.Err? {
          error := ErrorText(verifyReply.error, VerifyFailed);
        } else if parsed.None? {
          error := ErrorText(LocalError, VerifyFailed);
        } else {
          calls := calls + [Call.CompleteRegistration(parsed.value.name, email, parsed.value.password)];
          if completeReply.Err? {
            error := ErrorText(completeReply.error, VerifyFailed);
          } else {
            browser.RemoveItem(Register.PendingKey);
            message := Completed;
            nav := Some(Go("/login"));
          }
        }
        loading := false;
      }
    }

    /** `handleGoBack`: drops the parked form and returns to sign-up. */
    method HandleGoBack() returns (nav: Nav)
      modifies browser
      ensures nav == Go("/register")
      ensures browser.storage == old(browser.storage) - {Register.PendingKey}
      ensures browser.href == old(browser.href)
    {
      browser.RemoveItem(Register.PendingKey);
      nav := Go("/register");
    }
  }
}
