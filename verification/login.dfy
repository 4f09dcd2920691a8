/**
 * The login page (app/login/page.tsx): the form's rules, the normalised
 * sign-in call, and the landing route chosen by the signed-in user's role.
 */
module Login {
  import opened Wrappers
  import opened Forms
  import opened Credentials
  import Text

  datatype LoginForm = LoginForm(email: string, password: string)

  function EmailFieldError(email: string): Option<string> {
    EmailError(email, "Email is required", "Invalid email")
  }

  function PasswordError(password: string): Option<string> {
    Required(password, "Password is required")
  }

  /** No field reports an error, so `handleSubmit` calls `onSubmit`. */
  predicate Valid(f: LoginForm) {
    EmailFieldError(f.email).None? && PasswordError(f.password).None?
  }

  /** The form is accepted exactly when the email passes the pattern and a
      password is given. */
  lemma ValidIff(f: LoginForm)
    ensures Valid(f) <==> EmailPattern(f.email) && f.password != ""
  {
  }

  /** The arguments of `loginWithRole(email, password)`. */
  datatype SignInCall = SignInCall(email: string, password: string)

  /** What `loginWithRole` gives back: an error, or the role read from the
      user's row (missing when there is no row or no role). */
  datatype SignIn = SignInFailed(message: string) | SignedIn(role: Option<string>)

  const RoleMissingMessage := "Role tidak ditemukan, hubungi admin."

  /** Where a signed-in user is sent, if anywhere. */
  function LandingFor(role: Option<string>): (path: Option<string>)
    ensures path == Some("/admin/dashboard") <==> role == Some("admin")
    ensures path == Some("/tickets") <==> role == Some("user")
    ensures path.None? <==> role != Some("admin") && role != Some("user")
  {
    if role == Some("admin") then Some("/admin/dashboard")
    else if role == Some("user") then Some("/tickets")
    else None
  }

  class LoginPage {
    var form: LoginForm
    var serverError: string
    /** The last destination pushed to the router. */
    var route: Option<string>

    constructor ()
      ensures form == LoginForm("", "") && serverError == "" && route == None
    {
      form := LoginForm("", "");
      serverError := "";
      route := None;
    }

    /** Typing into the form. */
    method Fill(f: LoginForm)
      modifies this`form
      ensures form == f
    {
      form := f;
    }

    /** `handleSubmit(onSubmit)`. An invalid form makes no call. Otherwise
        the banner is cleared and the normalised email is sent with the
        password as typed; an error is shown without navigating; an admin
        goes to the dashboard, a user to the tickets, and any other role is
        reported without navigating. */
    method Submit(result: SignIn) returns (sent: Option<SignInCall>)
      modifies this`serverError, this`route
      ensures !Valid(form) ==> sent == None && serverError == old(serverError) && route == old(route)
      ensures Valid(form) ==> sent == Some(SignInCall(Normalise(form.email), form.password))
      ensures Valid(form) && result.SignInFailed? ==>
                serverError == result.message && route == old(route)
      ensures Valid(form) && result.SignedIn? && LandingFor(result.role).Some? ==>
                serverError == "" && route == LandingFor(result.role)
      ensures Valid(form) && result.SignedIn? && LandingFor(result.role).None? ==>
                serverError == RoleMissingMessage && route == old(route)
    {
      if !Valid(form) {
        return None;
      }
      serverError := "";
      var email := Normalise(form.email);
      sent := Some(SignInCall(email, form.password));
      match result
      case SignInFailed(m) =>
        serverError := m;
        return;
      case SignedIn(role) =>
        var landing := LandingFor(role);
        if landing.Some? {
          route := landing;
        } else {
          serverError := RoleMissingMessage;
        }
    }
  }

  /** The email that is sent is the typed one lower-cased, and it passes
      the form's rule again. */
  lemma SentEmail(f: LoginForm)
    requires Valid(f)
    ensures Normalise(f.email) == Text.ToLower(f.email)
    ensures EmailFieldError(Normalise(f.email)).None?
  {
    AcceptedEmailIsSentLowerCased(f.email);
  }
}
