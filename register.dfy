/** The sign-up page (src/pages/Auth/Register.tsx): it requires the terms
    box, asks for a registration OTP and parks the form under
    "pendingRegistration" for the verification page. */
module Register {
  import opened Wrappers
  import opened Types
  import opened Json
  import opened Storage
  import opened Api
  import opened Navigation
  import opened Session

  const PendingKey := "pendingRegistration"
  const TermsError := "You must agree to the Terms & Conditions and Privacy Policy."
  const OtpSent := "OTP sent to your email. Please verify to complete registration."
  const SendFailed := "Failed to send OTP. Please try again."

  /** The storage after the form has been parked for verification. */
  function ParkForm(storage: map<string, string>, name: string, email: string, password: string): map<string, string> {
    storage[PendingKey := RegistrationJson(name, email, password)]
  }

  /** Either toggle shows the password. */
  predicate PasswordVisible(byEye: bool, byCheckbox: bool) {
    byEye || byCheckbox
  }

  /** The submit button's `disabled`. */
  predicate SubmitDisabled(loading: bool, agreed: bool) {
    loading || !agreed
  }

  /** The redirect effect: a signed-in user with no registration in progress
      is sent to /admin or /. */
  function Redirect(user: Option<User>, storage: map<string, string>): (nav: Option<Nav>)
    ensures nav.Some? <==> user.Some? && !Truthy(Lookup(storage, PendingKey))
    ensures nav.Some? ==> nav.value == Go(if user.value.role == Admin then "/admin" else "/")
  {
    if user.Some? && !Truthy(Lookup(storage, PendingKey)) then
      Some(Go(if user.value.role == Admin then "/admin" else "/"))
    else None
  }

  /** Once a form is parked the redirect no longer fires, whoever is signed
      in. */
  lemma ParkedFormSuppressesRedirect(user: Option<User>, storage: map<string, string>, name: string, email: string, password: string)
    ensures Redirect(user, ParkForm(storage, name, email, password)) == None
  {
    StoredTextsAreObjects(User(0, "", "", Customer, None, None, None, None, None, None, None, None), name, email, password);
  }

  class RegisterPage {
    var name: string
    var email: string
    var password: string
    var agreed: bool
    var error: string
    var message: string
    var loading: bool
    const browser: Browser

    constructor (browser: Browser)
      ensures this.browser == browser
      ensures name == "" && email == "" && password == "" && !agreed
      ensures error == "" && message == "" && !loading
    {
      this.browser := browser;
      name, email, password := "", "", "";
      agreed := false;
      error, message := "", "";
      loading := false;
    }

    /** Editing the form. */
    method Fill(name: string, email: string, password: string, agreed: bool)
      modifies this
      ensures this.name == name && this.email == email && this.password == password && this.agreed == agreed
      ensures error == old(error) && message == old(message) && loading == old(loading)
    {
      this.name, this.email, this.password, this.agreed := name, email, password, agreed;
    }

    /** `handleSubmit` */
    method HandleSubmit(reply: Reply<()>) returns (call: Option<Call>, nav: Option<Nav>, loadingDuringCall: bool)
      modifies this, browser
      ensures name == old(name) && email == old(email) && password == old(password) && agreed == old(agreed)
      ensures browser.href == old(browser.href)
      ensures !agreed ==>
        call == None && nav == None && error == TermsError && message == ""
        && loading == old(loading) && browser.storage == old(browser.storage)
      ensures agreed ==> call == Some(InitiateRegistrationOtp(email)) && loadingDuringCall && !loading
      ensures agreed && reply.Ok? ==>
        message == OtpSent && error == "" && nav == Some(Go("/VerifyRegistrationOtp"))
        && browser.storage == ParkForm(old(browser.storage), name, email, password)
      ensures agreed && reply.Err? ==>
        error == ErrorText(reply.error, SendFailed) && message == "" && nav == None
        && browser.storage == old(browser.storage)
    {
      error := "";
      message := "";
      call, nav, loadingDuringCall := None, None, loading;
      if !agreed {
        error := TermsError;
      } else {
        loading := true;
        loadingDuringCall := loading;
        call := Some(InitiateRegistrationOtp(email));
        if reply.Ok? {
          message := OtpSent;
          browser.SetItem(PendingKey, RegistrationJson(name, email, password));
          nav := Some(Go("/VerifyRegistrationOtp"));
        } else {
          error := ErrorText(reply.error, SendFailed);
        }
        loading := false;
      }
    }
  }
}
