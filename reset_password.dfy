/** The reset page (src/pages/Auth/ResetPassword.tsx): two matching
    passwords reset the password of the address in the navigation state. */
module ResetPassword {
  import opened Wrappers
  import opened Api
  import opened Navigation

  const Mismatch := "Passwords do not match."
  const ResetDone := "Password reset successful!"
  const SomethingWrong := "Something went wrong."

  class ResetPasswordPage {
    const email: string
    var password: string
    var confirmPassword: string
    var error: string
    var message: string

    constructor (state: NavState)
      ensures email == StateEmail(state)
      ensures password == "" && confirmPassword == "" && error == "" && message == ""
    {
      email := StateEmail(state);
      password, confirmPassword, error, message := "", "", "", "";
    }

    method Fill(password: string, confirmPassword: string)
      modifies this
      ensures this.password == password && this.confirmPassword == confirmPassword
      ensures error == old(error) && message == old(message)
    {
      this.password, this.confirmPassword := password, confirmPassword;
    }

    /** `handleSubmit`: a request is made exactly when the two entries agree. */
    method HandleSubmit(reply: Reply<()>) returns (call: Option<Call>, nav: Option<Nav>)
      modifies this
      ensures password == old(password) && confirmPassword == old(confirmPassword)
      ensures call.Some? <==> password == confirmPassword
      ensures password != confirmPassword ==> nav == None && error == Mismatch && message == ""
      ensures password == confirmPassword ==> call == Some(Call.ResetPassword(email, password))
      ensures password == confirmPassword && reply.Ok? ==>
        nav == Some(Go("/login")) && message == ResetDone && error == ""
      ensures password == confirmPassword && reply.Err? ==>
        nav == None && message == "" && error == ErrorText(reply.error, SomethingWrong)
    {
      error := "";
      message := "";
      call, nav := None, None;
      if password != confirmPassword {
        error := Mismatch;
      } else {
        call := Some(Call.ResetPassword(email, password));
        if reply.Ok? {
          message := ResetDone;
          nav := Some(Go("/login"));
        } else {
          error := ErrorText(reply.error, SomethingWrong);
        }
      }
    }
  }
}
