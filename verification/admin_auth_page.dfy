/**
 * The administrator sign-in and sign-up page. Sign-up is guarded by a
 * fixed registration code, asks the auth service for the `admin` role in
 * the user metadata, and then marks the new profile `approved`.
 */
module AdminAuthPage {
  import opened Wrappers
  import opened Schema
  import opened Text
  import opened Backend
  import AuthContext
  import AuthPage

  /** The administrator registration code, fixed in the page. */
  const AdminCode := "afif"

  /** The status an administrator's own profile is given, which is not the `active` of an approved volunteer. */
  const AdminStatus := "approved"

  /** Already signed in as an administrator: go to the administration page, but only once authentication has settled. */
  function RedirectsToAdmin(authLoading: bool, user: Option<AuthContext.User>, role: Option<AppRole>): (r: bool)
    ensures r ==> !authLoading && user.Some? && role == Some(Admin)
    ensures !authLoading && user.Some? && role == Some(Admin) ==> r
  {
    !authLoading && user.Some? && role == Some(Admin)
  }

  /**
   * The administrator page and the volunteer page send an administrator to
   * the same place under the same conditions, whatever the profile.
   */
  lemma AdminRedirectsAgree(authLoading: bool, user: Option<AuthContext.User>, role: Option<AppRole>, profile: Option<Profile>)
    ensures RedirectsToAdmin(authLoading, user, role) <==> AuthPage.Redirect(authLoading, user, role, profile) == Some(AuthPage.AdminRoute)
    ensures !RedirectsToAdmin(authLoading, user, role) && role == Some(Admin) ==> AuthPage.Redirect(authLoading, user, role, profile).None?
  {
  }

  datatype Credentials = Credentials(
    email: string, password: string, fullName: string, phone: string, confirmPassword: string, adminCode: string)

  datatype Rejection = MissingFields | MissingNameOrPhone | WrongCode | PasswordMismatch | PasswordTooShort

  /**
   * The checks of `handleSubmit`, in order; the first that fails is the
   * rejection. Each rejection holds exactly when its check fails and every
   * check before it passed.
   */
  function Validate(mode: AuthPage.Mode, c: Credentials): (r: Option<Rejection>)
    ensures r.None? <==>
      && c.email != "" && c.password != ""
      && (mode == AuthPage.SignUp ==>
            && c.fullName != "" && c.phone != "" && c.adminCode == AdminCode
            && c.password == c.confirmPassword && Utf16Length(c.password) >= AuthPage.MinPasswordLength)
    ensures r == Some(MissingFields) <==> c.email == "" || c.password == ""
    ensures r == Some(MissingNameOrPhone) <==>
      mode == AuthPage.SignUp && c.email != "" && c.password != "" && (c.fullName == "" || c.phone == "")
    ensures r == Some(WrongCode) <==>
      && mode == AuthPage.SignUp && c.email != "" && c.password != "" && c.fullName != "" && c.phone != ""
      && c.adminCode != AdminCode
    ensures r == Some(PasswordMismatch) <==>
      && mode == AuthPage.SignUp && c.email != "" && c.password != "" && c.fullName != "" && c.phone != ""
      && c.adminCode == AdminCode && c.password != c.confirmPassword
    ensures r == Some(PasswordTooShort) <==>
      && mode == AuthPage.SignUp && c.email != "" && c.password != "" && c.fullName != "" && c.phone != ""
      && c.adminCode == AdminCode && c.password == c.confirmPassword && Utf16Length(c.password) < AuthPage.MinPasswordLength
  {
    if c.email == "" || c.password == "" then Some(MissingFields)
    else match mode
      case Login => None
      case SignUp =>
        if c.fullName == "" || c.phone == "" then Some(MissingNameOrPhone)
        else if c.adminCode != AdminCode then Some(WrongCode)
        else if c.password != c.confirmPassword then Some(PasswordMismatch)
        else if Utf16Length(c.password) < AuthPage.MinPasswordLength then Some(PasswordTooShort)
        else None
  }

  /** Without the registration code no sign-up gets through, whatever else is filled in. */
  lemma CodeGuardsSignUp(c: Credentials)
    requires c.adminCode != AdminCode
    ensures Validate(AuthPage.SignUp, c).Some?
  {
  }

  /** The metadata of an administrator sign-up: name, phone, and the `admin` role. */
  function AdminMetadata(fullName: string, phone: string): (m: seq<(string, string)>)
    ensures ("role", "admin") in m && ("full_name", fullName) in m && ("phone", phone) in m
  {
    [("full_name", fullName), ("phone", phone), ("role", "admin")]
  }

  /** The two sign-up paths differ in the role they ask for. */
  lemma OnlyAdminSignUpAsksForRole(fullName: string, phone: string)
    ensures exists kv :: kv in AdminMetadata(fullName, phone) && kv.0 == "role"
    ensures !exists kv :: kv in AuthContext.SignUpMetadata(fullName) && kv.0 == "role"
  {
    assert ("role", "admin") in AdminMetadata(fullName, phone);
  }

  /** The calls a valid sign-up makes, given which of them succeed and which user the service created. */
  function SignUpCalls(c: Credentials, signUpOk: bool, created: Option<Id>, profileOk: bool): (r: seq<Call>)
    ensures |r| == (if signUpOk && created.Some? then 2 else 1)
    ensures r[0].AuthSignUp? && r[0].redirectPath == "/admin" && r[0].ok == signUpOk
  {
    var signUp := Call.AuthSignUp(c.email, c.password, AdminMetadata(c.fullName, c.phone), "/admin", signUpOk);
    if signUpOk && created.Some? then
      [signUp, Call.UpdateProfiles(ByUserId(created.value), SetPhoneAndStatus(c.phone, AdminStatus), profileOk)]
    else [signUp]
  }

  /**
   * A failed sign-up writes no profile; a successful one with a created
   * user writes exactly that user's phone and the `approved` status.
   */
  lemma SignUpWritesAfterAccount(c: Credentials, signUpOk: bool, created: Option<Id>, profileOk: bool)
    ensures var cs := SignUpCalls(c, signUpOk, created, profileOk);
      && cs[0].AuthSignUp? && ("role", "admin") in cs[0].metadata
      && (!signUpOk ==> |cs| == 1)
      && (forall k :: 1 <= k < |cs| ==>
            signUpOk && cs[k] == Call.UpdateProfiles(ByUserId(created.value), SetPhoneAndStatus(c.phone, "approved"), profileOk))
  {
  }

  datatype Outcome = Rejected(reason: Rejection) | AuthFailed(message: string) | Welcomed | AdminCreated

  class AdminAuthPageState {
    const auth: AuthContext.AuthState
    var mode: AuthPage.Mode
    var isLoading: bool

    constructor (auth: AuthContext.AuthState)
      ensures this.auth == auth && mode == AuthPage.Login && !isLoading
    {
      this.auth := auth;
      mode := AuthPage.Login;
      isLoading := false;
    }

    /**
     * `handleSubmit`. A rejected form makes no call. A sign-in goes through
     * the context. A sign-up calls the auth service directly and, when it
     * succeeded and returned a user, updates that user's profile; a failed
     * profile update is only logged.
     */
    method HandleSubmit(c: Credentials, ok: bool, message: string, created: Option<Id>, profileOk: bool)
      returns (outcome: Outcome)
      modifies this, auth.store
      ensures mode == old(mode) && !isLoading
      ensures Validate(mode, c).Some? ==>
        && outcome == Rejected(Validate(mode, c).value)
        && auth.store.calls == old(auth.store.calls) && auth.store.db == old(auth.store.db)
      ensures Validate(mode, c).None? && mode == AuthPage.Login ==>
        && auth.store.calls == old(auth.store.calls) + [Call.AuthSignIn(c.email, c.password, ok)]
        && auth.store.db == old(auth.store.db)
        && outcome == (if ok then Welcomed else AuthFailed(message))
      ensures Validate(mode, c).None? && mode == AuthPage.SignUp ==>
        && auth.store.calls == old(auth.store.calls) + SignUpCalls(c, ok, created, profileOk)
        && outcome == (if ok then AdminCreated else AuthFailed(message))
        && auth.store.db ==
             (if ok && created.Some? && profileOk
              then old(auth.store.db).(profiles := PatchProfiles(old(auth.store.db.profiles), ByUserId(created.value), SetPhoneAndStatus(c.phone, AdminStatus)))
              else old(auth.store.db))
    {
      isLoading := true;
      var rejection := Validate(mode, c);
      if rejection.Some? {
        isLoading := false;
        return Rejected(rejection.value);
      }
      if mode == AuthPage.SignUp {
        auth.store.AuthSignUp(c.email, c.password, AdminMetadata(c.fullName, c.phone), "/admin", ok);
        if !ok {
          isLoading := false;
          return AuthFailed(message);
        }
        if created.Some? {
          auth.store.UpdateProfiles(ByUserId(created.value), SetPhoneAndStatus(c.phone, AdminStatus), profileOk);
        }
        outcome := AdminCreated;
      } else {
        var error := auth.SignIn(c.email, c.password, ok, message);
        if error.Some? {
          isLoading := false;
          return AuthFailed(error.value);
        }
        outcome := Welcomed;
      }
      isLoading := false;
    }
  }
}
