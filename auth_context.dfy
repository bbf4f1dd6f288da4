/** The session store (src/context/AuthContext.tsx): the signed-in user and
    token, mirrored in localStorage under "token" and "user", plus the
    context's own two-step registration, which parks the form in three
    temporary keys between its steps. */
module Session {
  import opened Wrappers
  import opened Types
  import opened Json
  import opened Storage
  import opened Api

  const RegistrationNameKey := "registrationName"
  const RegistrationEmailKey := "registrationEmail"
  const RegistrationPasswordKey := "registrationPassword"

  const LoginFailed := "Unable to sign in. Please try again."
  const RegisterFailed := "Unable to create account. Please try again."
  const CompleteFailed := "Unable to complete registration. Please try again."

  /** The `{ token, user }` body of a successful sign-in or registration. */
  datatype Credentials = Credentials(token: string, user: User)

  function Lookup(storage: map<string, string>, key: string): Option<string> {
    if key in storage then Some(storage[key]) else None
  }

  /** The startup test: a non-empty token and a non-empty user text are
      stored, and the user text is not the literal "undefined". */
  predicate RestoreCondition(storage: map<string, string>) {
    Truthy(Lookup(storage, TokenKey)) && Truthy(Lookup(storage, UserKey))
    && storage[UserKey] != "undefined"
  }

  /** The storage a successful sign-in leaves behind. */
  function SignedIn(storage: map<string, string>, c: Credentials): map<string, string> {
    storage[TokenKey := c.token][UserKey := UserJson(c.user)]
  }

  /** The storage a logout leaves behind. */
  function LoggedOut(storage: map<string, string>): map<string, string> {
    storage - {TokenKey, UserKey}
  }

  /** The storage after `register` has parked a form. */
  function Parked(storage: map<string, string>, name: string, email: string, password: string): map<string, string> {
    storage[RegistrationNameKey := name][RegistrationEmailKey := email][RegistrationPasswordKey := password]
  }

  /** The storage after a completed registration: signed in, nothing parked. */
  function Registered(storage: map<string, string>, c: Credentials): map<string, string> {
    SignedIn(storage, c) - {RegistrationNameKey} - {RegistrationEmailKey} - {RegistrationPasswordKey}
  }

  /** `localStorage.getItem(key) || ''` */
  function FieldOrEmpty(storage: map<string, string>, key: string): (v: string)
    ensures key in storage ==> v == storage[key]
    ensures key !in storage ==> v == ""
  {
    Lookup(storage, key).GetOr("")
  }

  /** All three parked registration fields are present and non-empty. */
  predicate HasRegistration(storage: map<string, string>) {
    FieldOrEmpty(storage, RegistrationNameKey) != ""
    && FieldOrEmpty(storage, RegistrationEmailKey) != ""
    && FieldOrEmpty(storage, RegistrationPasswordKey) != ""
  }

  /** The completion call made from the parked fields. */
  function RegistrationCall(storage: map<string, string>): Call {
    Call.CompleteRegistration(
      Some(FieldOrEmpty(storage, RegistrationNameKey)),
      Some(FieldOrEmpty(storage, RegistrationEmailKey)),
      Some(FieldOrEmpty(storage, RegistrationPasswordKey)))
  }

  /** A sign-in with a non-empty token survives a reload: the startup test
      accepts what it stored, and later requests carry the token. */
  lemma SignInSurvivesReload(storage: map<string, string>, c: Credentials, headers: map<string, string>)
    requires c.token != ""
    ensures RestoreCondition(SignedIn(storage, c))
    ensures WithBearer(headers, SignedIn(storage, c))[AuthorizationHeader] == "Bearer " + c.token
  {
    var s := SignedIn(storage, c);
    assert Lookup(s, TokenKey) == Some(c.token);
    assert Lookup(s, UserKey) == Some(UserJson(c.user));
    StoredTextsAreObjects(c.user, "", "", "");
  }

  /** After a logout nothing is restored on reload, no request carries a
      token, and logging out again changes nothing. */
  lemma LogoutIsFinal(storage: map<string, string>, headers: map<string, string>)
    ensures !RestoreCondition(LoggedOut(storage))
    ensures WithBearer(headers, LoggedOut(storage)) == headers
    ensures LoggedOut(LoggedOut(storage)) == LoggedOut(storage)
  {
    assert Lookup(LoggedOut(storage), TokenKey) == None;
  }

  class AuthStore {
    var user: Option<User>
    var token: Option<string>
    var loading: bool
    const browser: Browser

    constructor (browser: Browser)
      ensures this.browser == browser
      ensures user == None && token == None && loading
    {
      this.browser := browser;
      user := None;
      token := None;
      loading := true;
    }

    /** The startup effect. `parsed` is what `JSON.parse` makes of the stored
        user text, `None` when it throws. The token is taken before the
        parse, so a corrupt user text still leaves the token set; only the
        "user" key is then removed. */
    method Restore(parsed: Option<User>)
      modifies this, browser
      ensures !loading && browser.href == old(browser.href)
      ensures !RestoreCondition(old(browser.storage)) ==>
        user == old(user) && token == old(token) && browser.storage == old(browser.storage)
      ensures RestoreCondition(old(browser.storage)) ==>
        token == Some(old(browser.storage)[TokenKey])
      ensures RestoreCondition(old(browser.storage)) && parsed.Some? ==>
        user == parsed && browser.storage == old(browser.storage)
      ensures RestoreCondition(old(browser.storage)) && parsed.None? ==>
        user == old(user) && browser.storage == old(browser.storage) - {UserKey}
    {
      var savedToken := browser.GetItem(TokenKey);
      var savedUser := browser.GetItem(UserKey);
      assert savedToken == Lookup(browser.storage, TokenKey);
      assert savedUser == Lookup(browser.storage, UserKey);
      if Truthy(savedToken) && Truthy(savedUser) && savedUser.value != "undefined" {
        token := savedToken;
        if parsed.Some? {
          user := parsed;
        } else {
          browser.RemoveItem(UserKey);
        }
      }
      loading := false;
    }

    /** `login(email, password)` */
    method Login(email: string, password: string, reply: Reply<Credentials>) returns (call: Call, result: Outcome<string>)
      modifies this, browser
      ensures call == Call.Login(email, password)
      ensures result == Rethrow(reply, LoginFailed)
      ensures reply.Ok? ==>
        token == Some(reply.value.token) && user == Some(reply.value.user)
        && browser.storage == SignedIn(old(browser.storage), reply.value)
      ensures reply.Err? ==>
        token == old(token) && user == old(user) && browser.storage == old(browser.storage)
      ensures loading == old(loading) && browser.href == old(browser.href)
    {
      call := Call.Login(email, password);
      if reply.Ok? {
        var c := reply.value;
        browser.SetItem(TokenKey, c.token);
        browser.SetItem(UserKey, UserJson(c.user));
        token := Some(c.token);
        user := Some(c.user);
        result := Pass;
      } else {
        result := Fail(ErrorText(reply.error, LoginFailed));
      }
    }

    /** `register(name, email, password)`: asks for a registration OTP and
        only after that succeeds parks the form in the three keys. */
    method Register(name: string, email: string, password: string, reply: Reply<()>) returns (call: Call, result: Outcome<string>)
      modifies browser
      ensures call == InitiateRegistrationOtp(email)
      ensures result == Rethrow(reply, RegisterFailed)
      ensures reply.Ok? ==>
        browser.storage == Parked(old(browser.storage), name, email, password)
      ensures reply.Err? ==> browser.storage == old(browser.storage)
      ensures browser.href == old(browser.href)
    {
      call := InitiateRegistrationOtp(email);
      match reply
      case Ok(_) =>
        browser.SetItem(RegistrationNameKey, name);
        browser.SetItem(RegistrationEmailKey, email);
        browser.SetItem(RegistrationPasswordKey, password);
        result := Pass;
      case Err(e) =>
        result := Fail(ErrorText(e, RegisterFailed));
    }

    /** `completeRegistration()`. With a registration key missing or empty it
        throws before any call; the catch rewraps that error, which has no
        response, so the caller sees the generic fallback. On success it
        stores the session and removes the three registration keys. */
    method CompleteRegistration(reply: Reply<Credentials>) returns (call: Option<Call>, result: Outcome<string>)
      modifies this, browser
      ensures !HasRegistration(old(browser.storage)) ==>
        call == None && result == Fail(CompleteFailed)
        && user == old(user) && token == old(token) && browser.storage == old(browser.storage)
      ensures HasRegistration(old(browser.storage)) ==>
        call == Some(RegistrationCall(old(browser.storage))) && result == Rethrow(reply, CompleteFailed)
      ensures HasRegistration(old(browser.storage)) && reply.Ok? ==>
        token == Some(reply.value.token) && user == Some(reply.value.user)
        && browser.storage == Registered(old(browser.storage), reply.value)
      ensures HasRegistration(old(browser.storage)) && reply.Err? ==>
        user == old(user) && token == old(token) && browser.storage == old(browser.storage)
      ensures loading == old(loading) && browser.href == old(browser.href)
    {
      ghost var s := browser.storage;
      var name := browser.GetItem(RegistrationNameKey).GetOr("");
      var email := browser.GetItem(RegistrationEmailKey).GetOr("");
      var password := browser.GetItem(RegistrationPasswordKey).GetOr("");
      assert name == FieldOrEmpty(s, RegistrationNameKey);
      assert email == FieldOrEmpty(s, RegistrationEmailKey);
      assert password == FieldOrEmpty(s, RegistrationPasswordKey);
      if name == "" || email == "" || password == "" {
        call := None;
        result := Fail(ErrorText(LocalError, CompleteFailed));
      } else {
        call := Some(Call.CompleteRegistration(Some(name), Some(email), Some(password)));
        if reply.Ok? {
          var c := reply.value;
          browser.SetItem(TokenKey, c.token);
          browser.SetItem(UserKey, UserJson(c.user));
          assert browser.storage == SignedIn(s, c);
          token := Some(c.token);
          user := Some(c.user);
          browser.RemoveItem(RegistrationNameKey);
          browser.RemoveItem(RegistrationEmailKey);
          browser.RemoveItem(RegistrationPasswordKey);
          assert browser.storage == Registered(s, c);
          result := Pass;
        } else {
          result := Fail(ErrorText(reply.error, CompleteFailed));
        }
      }
    }

    /** `logout()`: local only. */
    method Logout()
      modifies this, browser
      ensures user == None && token == None
      ensures browser.storage == LoggedOut(old(browser.storage))
      ensures loading == old(loading) && browser.href == old(browser.href)
    {
      browser.RemoveItem(TokenKey);
      browser.RemoveItem(UserKey);
      token := None;
      user := None;
    }
  }
}
