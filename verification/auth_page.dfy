/**
 * The volunteer sign-in and sign-up page: where a signed-in user is sent,
 * and the ordered checks a submission passes before the auth service is
 * called.
 */
module AuthPage {
  import opened Wrappers
  import opened Schema
  import opened Text
  import opened Backend
  import AuthContext
  import VolunteerDashboard
  import Onboarding

  datatype Mode = Login | SignUp

  /** `searchParams.get("mode") === "signup" ? "signup" : "login"`. */
  function InitialMode(modeParam: Option<string>): (m: Mode)
    ensures m == SignUp <==> modeParam == Some("signup")
  {
    if modeParam == Some("signup") then SignUp else Login
  }

  datatype Route = AdminRoute | DashboardRoute | OnboardingRoute

  /**
   * The redirect effect: only once authentication has settled and both a
   * user and a role are known. Administrators go to the administration
   * page, volunteers with a complete profile to the dashboard, volunteers
   * with an incomplete profile to onboarding; without a profile the page
   * stays.
   */
  function Redirect(authLoading: bool, user: Option<AuthContext.User>, role: Option<AppRole>, profile: Option<Profile>): (r: Option<Route>)
    ensures r == Some(AdminRoute) <==> !authLoading && user.Some? && role == Some(Admin)
    ensures r == Some(DashboardRoute) <==>
      !authLoading && user.Some? && role == Some(Volunteer) && VolunteerDashboard.IsProfileComplete(profile)
    ensures r == Some(OnboardingRoute) <==>
      !authLoading && user.Some? && role == Some(Volunteer) && profile.Some? && !VolunteerDashboard.IsProfileComplete(profile)
  {
    if authLoading || user.None? || role.None? then None
    else match role.value
      case Admin => Some(AdminRoute)
      case Volunteer =>
        if profile.Some? && VolunteerDashboard.IsProfileComplete(profile) then Some(DashboardRoute)
        else if profile.Some? then Some(OnboardingRoute)
        else None
  }

  /**
   * The three pages agree on completeness, so a volunteer is never sent
   * back and forth: one sent to the dashboard is not sent on to
   * onboarding, and one sent to onboarding is not sent on to the
   * dashboard.
   */
  lemma RedirectsAgree(user: AuthContext.User, profile: Option<Profile>)
    ensures Redirect(false, Some(user), Some(Volunteer), profile) == Some(DashboardRoute) ==>
      VolunteerDashboard.DashboardRedirect(false, Some(user.id), profile).None?
    ensures Redirect(false, Some(user), Some(Volunteer), profile) == Some(OnboardingRoute) ==>
      && Onboarding.OnboardingRedirect(false, Some(user.id), Some(Volunteer), profile).None?
      && VolunteerDashboard.DashboardRedirect(false, Some(user.id), profile) == Some(VolunteerDashboard.OnboardingRoute)
  {
  }

  datatype Credentials = Credentials(email: string, password: string, fullName: string, confirmPassword: string)

  datatype Rejection = MissingFields | MissingName | PasswordMismatch | PasswordTooShort

  /** JavaScript's minimum password length check, in UTF-16 code units. */
  const MinPasswordLength := 6

  /**
   * The checks of `handleSubmit`, in order; the first that fails is the
   * rejection. Sign-in only needs an e-mail and a password.
   */
  function Validate(mode: Mode, c: Credentials): (r: Option<Rejection>)
    ensures r.None? <==>
      && c.email != "" && c.password != ""
      && (mode == SignUp ==> c.fullName != "" && c.password == c.confirmPassword && Utf16Length(c.password) >= MinPasswordLength)
    ensures r == Some(MissingFields) <==> c.email == "" || c.password == ""
    ensures r == Some(MissingName) ==> mode == SignUp && c.fullName == ""
    ensures r == Some(PasswordMismatch) ==> mode == SignUp && c.fullName != "" && c.password != c.confirmPassword
    ensures r == Some(PasswordTooShort) ==>
      mode == SignUp && c.fullName != "" && c.password == c.confirmPassword && Utf16Length(c.password) < MinPasswordLength
  {
    if c.email == "" || c.password == "" then Some(MissingFields)
    else match mode
      case Login => None
      case SignUp =>
        if c.fullName == "" then Some(MissingName)
        else if c.password != c.confirmPassword then Some(PasswordMismatch)
        else if Utf16Length(c.password) < MinPasswordLength then Some(PasswordTooShort)
        else None
  }

  /** A sign-in is never refused for the name, the confirmation or the length. */
  lemma LoginChecksOnlyPresence(c: Credentials)
    ensures Validate(Login, c).None? <==> c.email != "" && c.password != ""
    ensures Validate(Login, c).Some? ==> Validate(Login, c) == Validate(SignUp, c)
  {
  }

  datatype Outcome = Rejected(reason: Rejection) | AuthFailed(message: string) | Welcomed

  class AuthPageState {
    const auth: AuthContext.AuthState
    var mode: Mode
    var isLoading: bool

    constructor (auth: AuthContext.AuthState, modeParam: Option<string>)
      ensures this.auth == auth && mode == InitialMode(modeParam) && !isLoading
    {
      this.auth := auth;
      mode := InitialMode(modeParam);
      isLoading := false;
    }

    /**
     * `handleSubmit`: a rejected form makes no call; otherwise exactly one
     * call to the auth service, a sign-up with the e-mail, the password and
     * the full name, or a sign-in. Loading is over when it returns.
     */
    method HandleSubmit(c: Credentials, ok: bool, message: string) returns (outcome: Outcome)
      modifies this, auth.store
      ensures mode == old(mode) && !isLoading
      ensures auth.store.db == old(auth.store.db)
      ensures Validate(mode, c).Some? ==>
        outcome == Rejected(Validate(mode, c).value) && auth.store.calls == old(auth.store.calls)
      ensures Validate(mode, c).None? && mode == SignUp ==>
        auth.store.calls == old(auth.store.calls)
          + [Call.AuthSignUp(c.email, c.password, AuthContext.SignUpMetadata(c.fullName), "/", ok)]
      ensures Validate(mode, c).None? && mode == Login ==>
        auth.store.calls == old(auth.store.calls) + [Call.AuthSignIn(c.email, c.password, ok)]
      ensures Validate(mode, c).None? ==> outcome == (if ok then Welcomed else AuthFailed(message))
    {
      isLoading := true;
      var rejection := Validate(mode, c);
      if rejection.Some? {
        isLoading := false;
        return Rejected(rejection.value);
      }
      var error;
      if mode == SignUp {
        error := auth.SignUp(c.email, c.password, c.fullName, ok, message);
      } else {
        error := auth.SignIn(c.email, c.password, ok, message);
      }
      if error.Some? {
        isLoading := false;
        return AuthFailed(error.value);
      }
      outcome := Welcomed;
      isLoading := false;
    }
  }
}
