/** The sign-in / sign-up page: one form in two modes, checked before it is handed to the
    auth store, with the store's failure shown in an error box. */
module LoginSignup {
  import opened Wrappers
  import opened AuthStore

  datatype Mode = SignInMode | SignUpMode

  /** The link under the form switches to the other mode. */
  function Toggled(m: Mode): (t: Mode)
    ensures t != m
  {
    if m == SignInMode then SignUpMode else SignInMode
  }

  /** Switching twice comes back to the mode one started in. */
  lemma ToggleTwice(m: Mode)
    ensures Toggled(Toggled(m)) == m
  {
  }

  /** `form`. */
  datatype LoginForm = LoginForm(email: string, password: string, name: string)

  const EmptyForm := LoginForm("", "", "")

  datatype FormKey = EmailKey | PasswordKey | NameKey

  /** `{ ...s, [name]: value }`. */
  function SetField(f: LoginForm, k: FormKey, value: string): (g: LoginForm)
    ensures g.email == (if k == EmailKey then value else f.email)
    ensures g.password == (if k == PasswordKey then value else f.password)
    ensures g.name == (if k == NameKey then value else f.name)
  {
    match k
    case EmailKey => f.(email := value)
    case PasswordKey => f.(password := value)
    case NameKey => f.(name := value)
  }

  /** The error `handleSubmit` throws before calling the store, or `None` when the form may
      be sent: signing in needs an email and a password, signing up a name as well. */
  function Problem(mode: Mode, f: LoginForm): (p: Option<string>)
    ensures mode == SignInMode ==> (p.None? <==> f.email != "" && f.password != "")
    ensures mode == SignUpMode ==> (p.None? <==> f.email != "" && f.password != "" && f.name != "")
    ensures p.Some? && mode == SignInMode ==> p.value == "Email and password are required"
    ensures p.Some? && mode == SignUpMode ==> p.value == "Email, password and name are required"
  {
    if mode == SignInMode then
      if f.email == "" || f.password == "" then Some("Email and password are required") else None
    else
      if f.email == "" || f.password == "" || f.name == "" then Some("Email, password and name are required") else None
  }

  /** A form fit to sign up with is fit to sign in with, and the name matters only when
      signing up. */
  lemma SignUpStricter(f: LoginForm, name: string)
    ensures Problem(SignUpMode, f).None? ==> Problem(SignInMode, f).None?
    ensures Problem(SignInMode, f) == Problem(SignInMode, f.(name := name))
  {
  }

  /** `err.message || "Authentication failed"`. */
  function Shown(message: string): (s: string)
    ensures s != ""
    ensures message != "" ==> s == message
  {
    if message != "" then message else "Authentication failed"
  }

  class LoginPage {
    const auth: Auth
    var mode: Mode
    var form: LoginForm
    /** The error box; "" hides it. */
    var error: string
    var loading: bool
    var navigatedTo: Option<string>

    constructor (auth: Auth)
      ensures this.auth == auth && mode == SignInMode && form == EmptyForm && error == "" && !loading
      ensures navigatedTo.None?
    {
      this.auth := auth;
      mode := SignInMode;
      form := EmptyForm;
      error := "";
      loading := false;
      navigatedTo := None;
    }

    /** `handleChange`: the input takes the value and the error box is cleared. */
    method Change(k: FormKey, value: string)
      modifies this
      ensures form == SetField(old(form), k, value) && error == ""
      ensures mode == old(mode) && loading == old(loading) && navigatedTo == old(navigatedTo)
    {
      form := SetField(form, k, value);
      error := "";
    }

    /** The mode link: the other mode, with an empty form and no error. */
    method Toggle()
      modifies this
      ensures mode == Toggled(old(mode)) && form == EmptyForm && error == ""
      ensures loading == old(loading) && navigatedTo == old(navigatedTo)
    {
      mode := Toggled(mode);
      error := "";
      form := EmptyForm;
    }

    /** `handleSubmit` with the store's reply: an incomplete form shows its problem and reaches
        no store; otherwise the store signs in or up, success navigates to the account page
        and failure shows the store's message. `loading` is false afterwards either way. */
    method Submit(reply: AuthReply)
      requires auth.Valid()
      modifies this, auth
      ensures auth.Valid() && !loading && form == old(form) && mode == old(mode)
      ensures Problem(old(mode), old(form)).Some? ==>
        error == Problem(old(mode), old(form)).value && navigatedTo == old(navigatedTo) &&
        auth.requests == old(auth.requests) && auth.token == old(auth.token) && auth.user == old(auth.user)
      ensures Problem(old(mode), old(form)).None? && mode == SignInMode ==>
        auth.requests == old(auth.requests) + [SignIn(form.email, form.password)]
      ensures Problem(old(mode), old(form)).None? && mode == SignUpMode ==>
        auth.requests == old(auth.requests) + [SignUp(form.email, form.password, form.name)]
      ensures Problem(old(mode), old(form)).None? && reply.Accepted? ==>
        navigatedTo == Some("/myaccount") && error == "" && auth.token == reply.token && auth.user == Some(reply.user)
      ensures Problem(old(mode), old(form)).None? && !reply.Accepted? ==>
        navigatedTo == old(navigatedTo) && auth.token == old(auth.token) && auth.user == old(auth.user) &&
        error == Shown(Outcome(reply, if mode == SignInMode then SigninFallback else SignupFallback).message)
    {
      loading := true;
      error := "";
      var problem := Problem(mode, form);
      if problem.Some? {
        error := problem.value;
        loading := false;
        return;
      }
      var r;
      if mode == SignInMode {
        r := auth.Signin(form.email, form.password, reply);
      } else {
        r := auth.Signup(form.email, form.password, form.name, reply);
      }
      if r.SignedIn? {
        navigatedTo := Some("/myaccount");
      } else {
        error := Shown(r.message);
      }
      loading := false;
    }
  }
}
