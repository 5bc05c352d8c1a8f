/** The login/register modal of src/Components/LoginPopup.tsx: a mode flag,
    one form per mode with its declared rules, and the submit handlers that
    call the API store and the session. */
module Login {
  import opened Common
  import Auth
  import Api

  /** The values of the login form; an untouched or reset field is "". */
  datatype LoginFields = LoginFields(email: string, password: string)

  /** The values of the register form; an untouched or reset field is "". */
  datatype RegisterFields = RegisterFields(name: string, email: string, password: string)

  const EmptyLogin := LoginFields("", "")
  const EmptyRegister := RegisterFields("", "", "")

  datatype Field = NameField | EmailField | PasswordField

  /** A rule that failed: the field and the message shown under it. */
  datatype FieldError = FieldError(field: Field, message: string)

  const NameRequired := "Please input your full name!"
  const EmailRequired := "Please input your email!"
  const PasswordRequired := "Please input your password!"
  const PasswordTooShort := "Password must be at least 6 characters!"
  const MinPasswordLength := 6

  /** A `required` rule: it fails on an empty value. */
  function Required(field: Field, value: string, message: string): seq<FieldError>
  {
    if value == "" then [FieldError(field, message)] else []
  }

  /** A `min` rule on a string: it fails on a value shorter than `min`, but
      an empty value is left to the `required` rule. */
  function MinLength(field: Field, value: string, min: nat, message: string): seq<FieldError>
  {
    if value != "" && |value| < min then [FieldError(field, message)] else []
  }

  /** The rules of the login form, field by field. */
  function LoginErrors(f: LoginFields): (r: seq<FieldError>)
    ensures r == [] <==> f.email != "" && f.password != ""
    ensures FieldError(EmailField, EmailRequired) in r <==> f.email == ""
    ensures FieldError(PasswordField, PasswordRequired) in r <==> f.password == ""
    ensures forall e :: e in r ==> e.field != NameField
  {
    Required(EmailField, f.email, EmailRequired)
    + Required(PasswordField, f.password, PasswordRequired)
  }

  /** The rules of the register form, field by field. */
  function RegisterErrors(f: RegisterFields): (r: seq<FieldError>)
    ensures r == [] <==> f.name != "" && f.email != "" && |f.password| >= MinPasswordLength
    ensures FieldError(NameField, NameRequired) in r <==> f.name == ""
    ensures FieldError(EmailField, EmailRequired) in r <==> f.email == ""
    ensures FieldError(PasswordField, PasswordRequired) in r <==> f.password == ""
    ensures FieldError(PasswordField, PasswordTooShort) in r <==> 0 < |f.password| < MinPasswordLength
    ensures |r| <= 3
  {
    Required(NameField, f.name, NameRequired)
    + Required(EmailField, f.email, EmailRequired)
    + Required(PasswordField, f.password, PasswordRequired)
    + MinLength(PasswordField, f.password, MinPasswordLength, PasswordTooShort)
  }

  /** The modal's state as a value. */
  datatype ModalState = ModalState(isLogin: bool, login: LoginFields, register: RegisterFields)

  /** `switchMode`: flip the mode and reset the form of the mode being left,
      chosen by the mode before the flip. */
  function Switched(m: ModalState): ModalState
  {
    if m.isLogin then ModalState(false, EmptyLogin, m.register)
    else ModalState(true, m.login, EmptyRegister)
  }

  /** Switching flips the mode, empties the form that was on display and
      keeps the form that comes into view. */
  lemma SwitchedFlipsMode(m: ModalState)
    ensures Switched(m).isLogin == !m.isLogin
    ensures m.isLogin ==> Switched(m).login == EmptyLogin && Switched(m).register == m.register
    ensures !m.isLogin ==> Switched(m).register == EmptyRegister && Switched(m).login == m.login
  {
  }

  /** Two switches restore the mode, with both forms reset. */
  lemma SwitchTwice(m: ModalState)
    ensures Switched(Switched(m)) == ModalState(m.isLogin, EmptyLogin, EmptyRegister)
  {
  }

  const LoginSucceeded := "Login successful!"
  const RegisterSucceeded := "Registration successful!"

  class LoginModal {
    var isLogin: bool
    var loginFields: LoginFields
    var registerFields: RegisterFields

    /** The stores the component takes from its providers. */
    const api: Api.ApiStore
    const session: Auth.Session

    function State(): ModalState
      reads this
    {
      ModalState(isLogin, loginFields, registerFields)
    }

    /** A fresh modal is in login mode with both forms empty. */
    constructor (api: Api.ApiStore, session: Auth.Session)
      ensures State() == ModalState(true, EmptyLogin, EmptyRegister)
      ensures this.api == api && this.session == session
    {
      isLogin := true;
      loginFields := EmptyLogin;
      registerFields := EmptyRegister;
      this.api := api;
      this.session := session;
    }

    /** The user types into the login form. */
    method EditLogin(f: LoginFields)
      modifies this
      ensures State() == ModalState(old(isLogin), f, old(registerFields))
    {
      loginFields := f;
    }

    /** The user types into the register form. */
    method EditRegister(f: RegisterFields)
      modifies this
      ensures State() == ModalState(old(isLogin), old(loginFields), f)
    {
      registerFields := f;
    }

    /** `handleLogin`, given how the login request ends. On success the
        session is authenticated, the login form reset and the modal closed;
        on failure only the store's error changes. */
    method HandleLogin<T>(outcome: Api.HttpOutcome<T>) returns (out: Effects)
      modifies this, api, session
      ensures api.Valid() && !api.loading
      ensures isLogin == old(isLogin) && registerFields == old(registerFields)
      ensures outcome.Response? ==>
        && session.isLoggedIn
        && loginFields == EmptyLogin
        && api.error == None
        && out == Effects(None, true, Some(Notice(SuccessToast, LoginSucceeded)))
      ensures outcome.Rejected? ==>
        && session.isLoggedIn == old(session.isLoggedIn)
        && loginFields == old(loginFields)
        && api.error == Some(Api.FailureMessage(Api.LoginOp, outcome.err))
        && out == NoEffects
    {
      var res := api.Login(outcome);
      if res.Success? {
        session.Login();
        loginFields := EmptyLogin;
        out := Effects(None, true, Some(Notice(SuccessToast, LoginSucceeded)));
      } else {
        out := NoEffects;
      }
    }

    /** `handleRegister`, given how the register request ends. On success
        the register form is reset and the modal turns to login mode; it
        neither authenticates nor closes. On failure only the store's error
        changes. */
    method HandleRegister<T>(outcome: Api.HttpOutcome<T>) returns (out: Effects)
      modifies this, api
      ensures api.Valid() && !api.loading
      ensures loginFields == old(loginFields)
      ensures outcome.Response? ==>
        && isLogin
        && registerFields == EmptyRegister
        && api.error == None
        && out == Effects(None, false, Some(Notice(SuccessToast, RegisterSucceeded)))
      ensures outcome.Rejected? ==>
        && isLogin == old(isLogin)
        && registerFields == old(registerFields)
        && api.error == Some(Api.FailureMessage(Api.RegisterOp, outcome.err))
        && out == NoEffects
    {
      var res := api.Register(outcome);
      if res.Success? {
        registerFields := EmptyRegister;
        isLogin := true;
        out := Effects(None, false, Some(Notice(SuccessToast, RegisterSucceeded)));
      } else {
        out := NoEffects;
      }
    }

    /** `switchMode`. */
    method SwitchMode()
      modifies this
      ensures State() == Switched(old(State()))
    {
      var wasLogin := isLogin;
      isLogin := !isLogin;
      if wasLogin {
        loginFields := EmptyLogin;
      } else {
        registerFields := EmptyRegister;
      }
    }

    /** Submitting the login form, which is on display only in login mode:
        its rules are checked first, and only a form that passes them reaches
        `handleLogin`. */
    method SubmitLogin<T>(outcome: Api.HttpOutcome<T>) returns (errors: seq<FieldError>, out: Effects)
      requires isLogin
      modifies this, api, session
      ensures errors == LoginErrors(old(loginFields))
      ensures errors != [] ==> out == NoEffects && unchanged(this, api, session)
      ensures errors == [] ==> api.Valid() && !api.loading
      ensures errors == [] && outcome.Response? ==>
        && session.isLoggedIn
        && loginFields == EmptyLogin
        && api.error == None
        && out == Effects(None, true, Some(Notice(SuccessToast, LoginSucceeded)))
      ensures errors == [] && outcome.Rejected? ==>
        && session.isLoggedIn == old(session.isLoggedIn)
        && loginFields == old(loginFields)
        && api.error == Some(Api.FailureMessage(Api.LoginOp, outcome.err))
        && out == NoEffects
      ensures isLogin && registerFields == old(registerFields)
    {
      errors := LoginErrors(loginFields);
      if errors != [] {
        out := NoEffects;
        return;
      }
      out := HandleLogin(outcome);
    }

    /** Submitting the register form, which is on display only in register
        mode: its rules are checked first, and only a form that passes them
        reaches `handleRegister`. */
    method SubmitRegister<T>(outcome: Api.HttpOutcome<T>) returns (errors: seq<FieldError>, out: Effects)
      requires !isLogin
      modifies this, api
      ensures errors == RegisterErrors(old(registerFields))
      ensures errors != [] ==> out == NoEffects && unchanged(this, api)
      ensures errors == [] ==> api.Valid() && !api.loading
      ensures errors == [] && outcome.Response? ==>
        && isLogin
        && registerFields == EmptyRegister
        && api.error == None
        && out == Effects(None, false, Some(Notice(SuccessToast, RegisterSucceeded)))
      ensures errors == [] && outcome.Rejected? ==>
        && !isLogin
        && registerFields == old(registerFields)
        && api.error == Some(Api.FailureMessage(Api.RegisterOp, outcome.err))
        && out == NoEffects
      ensures loginFields == old(loginFields)
    {
      errors := RegisterErrors(registerFields);
      if errors != [] {
        out := NoEffects;
        return;
      }
      out := HandleRegister(outcome);
    }
  }
}
