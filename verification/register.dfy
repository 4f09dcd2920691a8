/**
 * The registration page (app/register/page.tsx): the form's rules, the
 * normalised sign-up call, and the move to the login page on success.
 */
module Register {
  import opened Wrappers
  import opened Remote
  import opened Forms
  import opened Credentials

  datatype RegisterForm = RegisterForm(name: string, email: string, password: string)

  function NameError(name: string): Option<string> {
    Required(name, "Nama wajib diisi")
  }

  function EmailFieldError(email: string): Option<string> {
    EmailError(email, "Email wajib diisi", "Format email tidak valid")
  }

  /** `required`, then `minLength: 6`. */
  function PasswordError(password: string): (e: Option<string>)
    ensures e.None? <==> |password| >= 6
    ensures password == "" ==> e == Some("Password wajib diisi")
    ensures password != "" && |password| < 6 ==> e == Some("Minimal 6 karakter")
  {
    if password == "" then Some("Password wajib diisi")
    else if |password| < 6 then Some("Minimal 6 karakter")
    else None
  }

  /** No field reports an error, so `handleSubmit` calls `onSubmit`. */
  predicate Valid(f: RegisterForm) {
    NameError(f.name).None? && EmailFieldError(f.email).None? && PasswordError(f.password).None?
  }

  /** The form is accepted exactly when a name is given, the email passes
      the pattern and the password has at least six characters. */
  lemma ValidIff(f: RegisterForm)
    ensures Valid(f) <==> f.name != "" && EmailPattern(f.email) && |f.password| >= 6
  {
  }

  /** The arguments of `registerWithEmailPassword(name, email, password)`. */
  datatype SignUpCall = SignUpCall(name: string, email: string, password: string)

  class RegisterPage {
    var form: RegisterForm
    var serverError: string
    /** The last destination pushed to the router. */
    var route: Option<string>

    constructor ()
      ensures form == RegisterForm("", "", "") && serverError == "" && route == None
    {
      form := RegisterForm("", "", "");
      serverError := "";
      route := None;
    }

    /** Typing into the form. */
    method Fill(f: RegisterForm)
      modifies this`form
      ensures form == f
    {
      form := f;
    }

    /** `handleSubmit(onSubmit)`. An invalid form makes no call. Otherwise
        the banner is cleared and the name, the normalised email and the
        password are sent; an error is shown and the page stays, success
        goes to the login page. */
    method Submit(result: Outcome) returns (sent: Option<SignUpCall>)
      modifies this`serverError, this`route
      ensures !Valid(form) ==> sent == None && serverError == old(serverError) && route == old(route)
      ensures Valid(form) ==> sent == Some(SignUpCall(form.name, Normalise(form.email), form.password))
      ensures Valid(form) && result.Failed? ==> serverError == result.message && route == old(route)
      ensures Valid(form) && result.Ok? ==> serverError == "" && route == Some("/login")
    {
      if !Valid(form) {
        return None;
      }
      serverError := "";
      var email := Normalise(form.email);
      sent := Some(SignUpCall(form.name, email, form.password));
      match result
      case Failed(m) =>
        serverError := m;
        return;
      case Ok =>
        route := Some("/login");
    }
  }
}
