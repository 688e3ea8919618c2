/** The sign-in screens (utdisa/Views/AuthFlowView.swift): which of login,
    registration and password reset is shown, the checks login and
    registration make before contacting the backend, and the registration
    handler with its "an error mentioning 404 is a success" rule. */
module AuthFlow {
  import opened Base
  import opened Text
  import opened Backend
  import opened Auth

  const UTD_DOMAIN := "@utdallas.edu"
  const USE_UTD_EMAIL := "Please use your @utdallas.edu email."
  const FIRST_NAME_REQUIRED := "First name is required."
  const LAST_NAME_REQUIRED := "Last name is required."
  const PHONE_REQUIRED := "Phone number is required."
  const PASSWORDS_DIFFER := "Passwords do not match."
  const DEMO_EMAIL := "demo@utdisa.com"
  const DEMO_PASSWORD := "demopassword"

  /** The address, lowercased, ends with the university's domain. */
  predicate IsUtdEmail(email: string) {
    HasSuffix(Lower(email), UTD_DOMAIN)
  }

  /** The demo account would not pass the domain check that `DemoLogin` skips. */
  lemma DemoEmailIsNotUtd()
    ensures !IsUtdEmail(DEMO_EMAIL)
  {
    var l := Lower(DEMO_EMAIL);
    assert |l| == 15;
    assert l[2] == LowerChar('m') == 'm';
    assert l[2..] != UTD_DOMAIN by {
      assert l[2..][0] == 'm' != UTD_DOMAIN[0];
    }
  }

  /** The registration checks in `register()`, in order; `None` when every one passes. */
  function RegistrationError(
    firstName: string, lastName: string, phoneNumber: string,
    email: string, password: string, confirmPassword: string): (r: Option<string>)
    ensures r == None <==>
      && !IsBlank(firstName) && !IsBlank(lastName) && !IsBlank(phoneNumber)
      && IsUtdEmail(email) && password == confirmPassword
    ensures IsBlank(firstName) ==> r == Some(FIRST_NAME_REQUIRED)
    ensures !IsBlank(firstName) && IsBlank(lastName) ==> r == Some(LAST_NAME_REQUIRED)
    ensures !IsBlank(firstName) && !IsBlank(lastName) && IsBlank(phoneNumber) ==> r == Some(PHONE_REQUIRED)
    ensures !IsBlank(firstName) && !IsBlank(lastName) && !IsBlank(phoneNumber) && !IsUtdEmail(email)
      ==> r == Some(USE_UTD_EMAIL)
    ensures (!IsBlank(firstName) && !IsBlank(lastName) && !IsBlank(phoneNumber) && IsUtdEmail(email)
      && password != confirmPassword) ==> r == Some(PASSWORDS_DIFFER)
  {
    TrimEmptyIffBlank(firstName);
    TrimEmptyIffBlank(lastName);
    TrimEmptyIffBlank(phoneNumber);
    if Trim(firstName) == [] then Some(FIRST_NAME_REQUIRED)
    else if Trim(lastName) == [] then Some(LAST_NAME_REQUIRED)
    else if Trim(phoneNumber) == [] then Some(PHONE_REQUIRED)
    else if !IsUtdEmail(email) then Some(USE_UTD_EMAIL)
    else if password != confirmPassword then Some(PASSWORDS_DIFFER)
    else None
  }

  /** The five registration messages are distinct, so the message names the failed check. */
  lemma RegistrationMessagesDistinct()
    ensures |{FIRST_NAME_REQUIRED, LAST_NAME_REQUIRED, PHONE_REQUIRED, USE_UTD_EMAIL, PASSWORDS_DIFFER}| == 5
  {
    assert FIRST_NAME_REQUIRED[0] == 'F' && LAST_NAME_REQUIRED[0] == 'L' && PHONE_REQUIRED[0] == 'P';
    assert USE_UTD_EMAIL[1] == 'l' && PASSWORDS_DIFFER[1] == 'a' && PHONE_REQUIRED[1] == 'h';
  }

  /** Only the trimmed name and phone fields matter: inputs that trim to the
      same text, whatever whitespace surrounds them, pass or fail the checks
      alike. */
  lemma RegistrationIgnoresPadding(
    firstName: string, lastName: string, phoneNumber: string,
    firstName': string, lastName': string, phoneNumber': string,
    email: string, password: string, confirmPassword: string)
    requires Trim(firstName') == Trim(firstName) && Trim(lastName') == Trim(lastName)
    requires Trim(phoneNumber') == Trim(phoneNumber)
    ensures RegistrationError(firstName', lastName', phoneNumber', email, password, confirmPassword)
         == RegistrationError(firstName, lastName, phoneNumber, email, password, confirmPassword)
  {
  }

  /** The failure the outer `catch` of `register()` sees: the sign-up error,
      or a profile-insert error that does not mention 404. */
  function RegistrationFailure(signUp: AuthResult, insert: Outcome): (r: Option<string>)
    ensures signUp.AuthFailed? ==> r == Some(signUp.description)
    ensures signUp.Authenticated? ==>
      (r.Some? <==> insert.Failed? && !Contains(insert.description, "404"))
    ensures r.Some? && signUp.Authenticated? ==> r == Some(insert.description)
  {
    match signUp
    case AuthFailed(d) => Some(d)
    case Authenticated(_) =>
      match insert
      case Done => None
      case Failed(d) => if Contains(d, "404") then None else Some(d)
  }

  /** What the registration view ends up showing: `None` is the success
      alert, `Some(m)` the error text `m`; a failure mentioning 404 shows success. */
  function RegistrationShown(signUp: AuthResult, insert: Outcome): (r: Option<string>)
    ensures r.Some? ==> RegistrationFailure(signUp, insert) == r && !Contains(r.value, "404")
    ensures r.None? <==>
      RegistrationFailure(signUp, insert).None? || Contains(RegistrationFailure(signUp, insert).value, "404")
  {
    var f := RegistrationFailure(signUp, insert);
    if f.Some? && !Contains(f.value, "404") then f else None
  }

  /** An error message that mentions 404 never reaches the screen, and a
      successful sign-up whose profile insert fails with 404 counts as success. */
  lemma NotFoundIsSuccess(signUp: AuthResult, d: string)
    requires Contains(d, "404")
    ensures RegistrationShown(AuthFailed(d), Done) == None
    ensures signUp.Authenticated? ==> RegistrationShown(signUp, Failed(d)) == None
  {
  }

  /** Which screen the flow shows. */
  datatype Screen = LoginScreen | RegistrationScreen | PasswordResetScreen | NoScreen

  /** The body of `AuthFlowView`: login before registration before password reset. */
  function Shown(showLogin: bool, showRegister: bool, showPasswordReset: bool): (r: Screen)
    ensures r == LoginScreen <==> showLogin
    ensures r == RegistrationScreen <==> !showLogin && showRegister
    ensures r == PasswordResetScreen <==> !showLogin && !showRegister && showPasswordReset
    ensures r == NoScreen <==> !showLogin && !showRegister && !showPasswordReset
  {
    if showLogin then LoginScreen
    else if showRegister then RegistrationScreen
    else if showPasswordReset then PasswordResetScreen
    else NoScreen
  }

  /** The three screen flags (`AuthFlowView`'s state) and the parent's
      `showAuthFlow` binding. */
  class AuthFlowView {
    var showLogin: bool
    var showRegister: bool
    var showPasswordReset: bool
    var showAuthFlow: bool

    function Screen(): Screen
      reads this
    {
      Shown(showLogin, showRegister, showPasswordReset)
    }

    constructor (showAuthFlow: bool)
      ensures showLogin && !showRegister && !showPasswordReset && this.showAuthFlow == showAuthFlow
      ensures Screen() == LoginScreen
    {
      showLogin := true;
      showRegister := false;
      showPasswordReset := false;
      this.showAuthFlow := showAuthFlow;
    }
  }

  class LoginView {
    const authManager: AuthManager
    const flow: AuthFlowView
    var email: string
    var password: string
    var errorMessage: Option<string>
    var isLoading: bool
    var showSuccess: bool

    constructor (authManager: AuthManager, flow: AuthFlowView)
      ensures this.authManager == authManager && this.flow == flow
      ensures email == "" && password == "" && errorMessage == None && !isLoading && !showSuccess
    {
      this.authManager := authManager;
      this.flow := flow;
      email := "";
      password := "";
      errorMessage := None;
      isLoading := false;
      showSuccess := false;
    }

    /** "Forgot Password?" */
    method ForgotPassword()
      modifies flow
      ensures !flow.showLogin && !flow.showRegister && flow.showPasswordReset
      ensures flow.showAuthFlow == old(flow.showAuthFlow)
      ensures flow.Screen() == PasswordResetScreen
    {
      flow.showPasswordReset := true;
      flow.showRegister := false;
      flow.showLogin := false;
    }

    /** "Register" */
    method ShowRegistration()
      modifies flow
      ensures !flow.showLogin && flow.showRegister
      ensures flow.showPasswordReset == old(flow.showPasswordReset) && flow.showAuthFlow == old(flow.showAuthFlow)
      ensures flow.Screen() == RegistrationScreen
    {
      flow.showRegister := true;
      flow.showLogin := false;
    }

    /** The completion `login()` and `demoLogin()` hand to the auth manager;
        the one-second delay before the flow closes is not modelled. */
    method LoginCompleted(error: Option<string>)
      modifies this, flow
      ensures !isLoading && email == old(email) && password == old(password)
      ensures error.Some? ==>
        errorMessage == error && showSuccess == old(showSuccess) && flow.showAuthFlow == old(flow.showAuthFlow)
      ensures error.None? ==> errorMessage == old(errorMessage) && showSuccess && !flow.showAuthFlow
      ensures flow.showLogin == old(flow.showLogin) && flow.showRegister == old(flow.showRegister)
      ensures flow.showPasswordReset == old(flow.showPasswordReset)
    {
      isLoading := false;
      if error.Some? {
        errorMessage := error;
      } else {
        showSuccess := true;
        flow.showAuthFlow := false;
      }
    }

    /** "Login": only a university address reaches the auth manager. */
    method Login(signIn: AuthResult, signInProfile: Option<Profile>, session: SessionFetch, profile: Option<Profile>)
      modifies this, flow, authManager, authManager.client
      ensures email == old(email) && password == old(password)
      ensures !IsUtdEmail(email) ==>
        && isLoading == old(isLoading) && errorMessage == Some(USE_UTD_EMAIL) && !showSuccess
        && authManager.client.sent == old(authManager.client.sent)
        && authManager.State() == old(authManager.State())
        && flow.showAuthFlow == old(flow.showAuthFlow)
      ensures IsUtdEmail(email) ==>
        && !isLoading
        && authManager.client.sent == old(authManager.client.sent) + [SignIn(email, password)]
        && authManager.State() == Step(old(authManager.State()), LoggedIn(signIn, signInProfile, session, profile))
        && (signIn.AuthFailed? ==>
              errorMessage == Some(signIn.description) && !showSuccess && flow.showAuthFlow == old(flow.showAuthFlow))
        && (signIn.Authenticated? ==> errorMessage == None && showSuccess && !flow.showAuthFlow)
      ensures flow.showLogin == old(flow.showLogin) && flow.showRegister == old(flow.showRegister)
      ensures flow.showPasswordReset == old(flow.showPasswordReset)
    {
      errorMessage := None;
      showSuccess := false;
      if !IsUtdEmail(email) {
        errorMessage := Some(USE_UTD_EMAIL);
        return;
      }
      isLoading := true;
      var error := authManager.Login(email, password, signIn, signInProfile, session, profile);
      LoginCompleted(error);
    }

    /** "Demo Login": no domain check, fixed credentials, fields left as typed. */
    method DemoLogin(signIn: AuthResult, signInProfile: Option<Profile>, session: SessionFetch, profile: Option<Profile>)
      modifies this, flow, authManager, authManager.client
      ensures !IsUtdEmail(DEMO_EMAIL)
      ensures email == old(email) && password == old(password) && !isLoading
      ensures authManager.client.sent == old(authManager.client.sent) + [SignIn(DEMO_EMAIL, DEMO_PASSWORD)]
      ensures authManager.State() == Step(old(authManager.State()), LoggedIn(signIn, signInProfile, session, profile))
      ensures signIn.AuthFailed? ==>
        errorMessage == Some(signIn.description) && !showSuccess && flow.showAuthFlow == old(flow.showAuthFlow)
      ensures signIn.Authenticated? ==> errorMessage == None && showSuccess && !flow.showAuthFlow
      ensures flow.showLogin == old(flow.showLogin) && flow.showRegister == old(flow.showRegister)
      ensures flow.showPasswordReset == old(flow.showPasswordReset)
    {
      DemoEmailIsNotUtd();
      errorMessage := None;
      showSuccess := false;
      isLoading := true;
      var error := authManager.Login(DEMO_EMAIL, DEMO_PASSWORD, signIn, signInProfile, session, profile);
      LoginCompleted(error);
    }
  }

  class RegistrationView {
    const authManager: AuthManager
    const flow: AuthFlowView
    var email: string
    var password: string
    var confirmPassword: string
    var firstName: string
    var lastName: string
    var phoneNumber: string
    var errorMessage: Option<string>
    var showSuccess: bool
    var isLoading: bool

    constructor (authManager: AuthManager, flow: AuthFlowView)
      ensures this.authManager == authManager && this.flow == flow
      ensures email == "" && password == "" && confirmPassword == ""
      ensures firstName == "" && lastName == "" && phoneNumber == ""
      ensures errorMessage == None && !showSuccess && !isLoading
    {
      this.authManager := authManager;
      this.flow := flow;
      email := "";
      password := "";
      confirmPassword := "";
      firstName := "";
      lastName := "";
      phoneNumber := "";
      errorMessage := None;
      showSuccess := false;
      isLoading := false;
    }

    /** "Already have an account? Login" */
    method AlreadyHaveAccount()
      modifies flow
      ensures flow.showLogin && !flow.showRegister
      ensures flow.showPasswordReset == old(flow.showPasswordReset) && flow.showAuthFlow == old(flow.showAuthFlow)
      ensures flow.Screen() == LoginScreen
    {
      flow.showLogin := true;
      flow.showRegister := false;
    }

    /** "Register": the checks, then sign-up, the profile insert and a
        session refresh; `signUp` and `insert` are what the backend answered. */
    method Register(signUp: AuthResult, insert: Outcome, session: SessionFetch, profile: Option<Profile>)
      modifies this, authManager, authManager.client
      ensures email == old(email) && password == old(password) && confirmPassword == old(confirmPassword)
      ensures firstName == old(firstName) && lastName == old(lastName) && phoneNumber == old(phoneNumber)
      ensures
        var check := RegistrationError(firstName, lastName, phoneNumber, email, password, confirmPassword);
        && (check.Some? ==>
              && errorMessage == check && showSuccess == old(showSuccess) && isLoading == old(isLoading)
              && authManager.client.sent == old(authManager.client.sent)
              && authManager.State() == old(authManager.State()))
        && (check.None? ==>
              && !isLoading
              && authManager.client.sent == old(authManager.client.sent) + [SignUp(email, password)] +
                   (if signUp.Authenticated?
                    then [InsertProfile(ProfileRow(signUp.user.id, firstName + " " + lastName, phoneNumber))]
                    else [])
              && (RegistrationFailure(signUp, insert).None? ==>
                    authManager.State() == AfterRefresh(session, profile))
              && (RegistrationFailure(signUp, insert).Some? ==>
                    authManager.State() == old(authManager.State()))
              && (RegistrationShown(signUp, insert).None? ==> showSuccess && errorMessage == None)
              && (RegistrationShown(signUp, insert).Some? ==>
                    errorMessage == RegistrationShown(signUp, insert) && showSuccess == old(showSuccess)))
    {
      errorMessage := None;
      var check := RegistrationError(firstName, lastName, phoneNumber, email, password, confirmPassword);
      if check.Some? {
        errorMessage := check;
        return;
      }
      isLoading := true;
      var client := authManager.client;
      client.Send(SignUp(email, password));
      var failure: Option<string> := None;
      match signUp {
        case AuthFailed(d) =>
          failure := Some(d);
        case Authenticated(user) =>
          var fullName := firstName + " " + lastName;
          client.Send(InsertProfile(ProfileRow(user.id, fullName, phoneNumber)));
          if insert.Failed? && !Contains(insert.description, "404") {
            failure := Some(insert.description);
          }
      }
      isLoading := false;
      if failure.None? {
        authManager.RefreshSession(session, profile);
        showSuccess := true;
      } else if Contains(failure.value, "404") {
        showSuccess := true;
      } else {
        errorMessage := failure;
      }
    }
  }

  class PasswordResetView {
    const flow: AuthFlowView

    constructor (flow: AuthFlowView)
      ensures this.flow == flow
    {
      this.flow := flow;
    }

    /** "Back to Login": sets only `showLogin`, which wins by precedence. */
    method BackToLogin()
      modifies flow
      ensures flow.showLogin
      ensures flow.showRegister == old(flow.showRegister) && flow.showPasswordReset == old(flow.showPasswordReset)
      ensures flow.showAuthFlow == old(flow.showAuthFlow)
      ensures flow.Screen() == LoginScreen
    {
      flow.showLogin := true;
    }
  }
}
