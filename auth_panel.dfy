/** The sign-in panel: login/register mode, the ordered form checks, and the
    register-then-login sequence that sets the session. */
module AuthPanel {
  import opened Wrappers
  import opened Builtins
  import opened BookingFlow
  import BookingContext

  datatype Mode = Login | Register

  /** The mode toggle. */
  function Toggled(m: Mode): (r: Mode)
    ensures r != m
  {
    if m == Login then Register else Login
  }

  /** Toggling twice returns to the original mode. */
  lemma ToggleTwice(m: Mode)
    ensures Toggled(Toggled(m)) == m
  {
  }

  datatype Form = Form(name: string, email: string, password: string)

  const CredentialsRequired: string := "Email and password are required."
  const InvalidEmail: string := "Please enter a valid email."
  const NameRequired: string := "Name is required for registration."
  const AuthorizingLabel: string := "Authorizing..."
  const RegisteredMessage: string := "Registered and signed in."
  const SignedInMessage: string := "Signed in."

  /** The checks of `handleSubmit`, in order: both credentials present, an
      email with "@", and a name only in register mode. */
  function AuthCheck(mode: Mode, f: Form): (r: Option<string>)
    ensures r == Some(CredentialsRequired) <==> f.email == "" || f.password == ""
    ensures r == Some(InvalidEmail) <==> f.email != "" && f.password != "" && !Includes(f.email, '@')
    ensures r == Some(NameRequired) <==>
              f.email != "" && f.password != "" && Includes(f.email, '@') && mode == Register && f.name == ""
    ensures r.None? <==>
              f.email != "" && f.password != "" && Includes(f.email, '@') && (mode == Register ==> f.name != "")
  {
    if f.email == "" || f.password == "" then Some(CredentialsRequired)
    else if !Includes(f.email, '@') then Some(InvalidEmail)
    else if mode == Register && f.name == "" then Some(NameRequired)
    else None
  }

  /** In login mode the name field plays no part. */
  lemma NameOnlyForRegister(f: Form, name: string)
    ensures AuthCheck(Login, f) == AuthCheck(Login, f.(name := name))
  {
  }

  /** The calls the panel makes. */
  datatype AuthCall = RegisterCall(name: string, email: string, password: string)
                    | LoginCall(email: string, password: string)

  /** The outcome of the attempt: in register mode a failed registration
      stops before login; otherwise the login's outcome. */
  function Attempt(mode: Mode, register: Result<()>, login: Result<Session>): (r: Result<Session>)
    ensures r.Ok? <==> login.Ok? && (mode == Register ==> register.Ok?)
    ensures r.Ok? ==> r.value == login.value
  {
    if mode == Register && register.Err? then Err(register.message) else login
  }

  /** The calls of an attempt: register then login in register mode, login
      alone otherwise, and no login after a failed registration. */
  function AttemptCalls(mode: Mode, f: Form, register: Result<()>): (cs: seq<AuthCall>)
    ensures mode == Login ==> cs == [LoginCall(f.email, f.password)]
    ensures mode == Register ==> |cs| >= 1 && cs[0] == RegisterCall(f.name, f.email, f.password)
    ensures mode == Register ==> (LoginCall(f.email, f.password) in cs <==> register.Ok?)
  {
    (if mode == Register then [RegisterCall(f.name, f.email, f.password)] else [])
    + (if mode == Login || register.Ok? then [LoginCall(f.email, f.password)] else [])
  }

  class Panel {
    const ctx: BookingContext.Provider
    var mode: Mode
    var form: Form
    var error: Option<string>
    var message: Option<string>
    var busy: bool
    var calls: seq<AuthCall>

    constructor (ctx: BookingContext.Provider)
      ensures this.ctx == ctx && mode == Login && form == Form("", "", "")
      ensures error == None && message == None && !busy && calls == []
    {
      this.ctx := ctx;
      mode := Login;
      form := Form("", "", "");
      error := None;
      message := None;
      busy := false;
      calls := [];
    }

    /** The "Need an account?" / "Have an account?" button. */
    method ToggleMode()
      modifies this
      ensures mode == Toggled(old(mode))
      ensures form == old(form) && error == old(error) && message == old(message)
      ensures busy == old(busy) && calls == old(calls)
    {
      mode := Toggled(mode);
    }

    /** `handleSubmit`: check the form, then register (in register mode)
        and log in; only a successful login sets the session. */
    method HandleSubmit(register: Result<()>, login: Result<Session>)
      requires ctx.Valid()
      modifies this, ctx
      ensures ctx.Valid() && mode == old(mode) && form == old(form)
      ensures var check := AuthCheck(old(mode), old(form));
              check.Some? ==> error == check && message == None && busy == old(busy) && calls == old(calls)
                              && ctx.state == old(ctx.state) && ctx.auth == old(ctx.auth)
                              && ctx.storage == old(ctx.storage)
      ensures AuthCheck(old(mode), old(form)).None? ==>
                var r := Attempt(old(mode), register, login);
                !busy && ctx.state == old(ctx.state).(loadingLabel := None)
                && calls == old(calls) + AttemptCalls(old(mode), old(form), register)
                && (r.Ok? ==> ctx.auth == r.value && ctx.storage == Persist(old(ctx.storage), r.value, ctx.stringify)
                              && error == None
                              && message == Some(if old(mode) == Register then RegisteredMessage else SignedInMessage))
                && (r.Err? ==> ctx.auth == old(ctx.auth) && ctx.storage == old(ctx.storage)
                               && error == Some(r.message) && message == None)
    {
      error := None;
      message := None;
      var check := AuthCheck(mode, form);
      if check.Some? {
        error := check;
        return;
      }
      busy := true;
      ctx.SetLoadingLabel(Some(AuthorizingLabel));
      var failed: Option<string> := None;
      if mode == Register {
        calls := calls + [RegisterCall(form.name, form.email, form.password)];
        if register.Err? {
          failed := Some(register.message);
        }
      }
      if failed.None? {
        calls := calls + [LoginCall(form.email, form.password)];
        match login {
          case Ok(session) =>
            ctx.SetAuth(session);
            message := Some(if mode == Register then RegisteredMessage else SignedInMessage);
          case Err(m) =>
            failed := Some(m);
        }
      }
      if failed.Some? {
        error := failed;
      }
      busy := false;
      ctx.SetLoadingLabel(None);
    }
  }
}
