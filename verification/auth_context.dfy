/**
 * The authentication context: the signed-in user, the session, the user's
 * role and profile, and whether they are still loading. The session comes
 * from the auth service; the role and the profile are read from the store.
 */
module AuthContext {
  import opened Wrappers
  import opened Schema
  import opened Backend

  datatype User = User(id: Id, email: Option<string>)

  datatype Session = Session(accessToken: string, user: User)

  /** `session?.user ?? null`. */
  function UserOf(session: Option<Session>): (u: Option<User>)
    ensures u.Some? <==> session.Some?
    ensures u.Some? ==> u.value == session.value.user
  {
    if session.Some? then Some(session.value.user) else None
  }

  /** `if (data) set(data)`: a row that was found replaces the value, a missing one keeps it. */
  function KeepUnlessFound<T>(current: Option<T>, found: Option<T>): (r: Option<T>)
    ensures found.Some? ==> r == found
    ensures found.None? ==> r == current
  {
    if found.Some? then found else current
  }

  /** The role row of a user, as `maybeSingle` returns it: nothing on a failed query. */
  function RoleRead(db: Db, userId: Id, queryOk: bool): (r: Option<AppRole>)
    ensures r.Some? ==> queryOk && exists k :: 0 <= k < |db.userRoles| && db.userRoles[k].userId == userId && db.userRoles[k].role == r.value
  {
    if queryOk then UniqueRoleOf(db.userRoles, userId) else None
  }

  /** The profile row of a user, as `maybeSingle` returns it: nothing on a failed query. */
  function ProfileRead(db: Db, userId: Id, queryOk: bool): (r: Option<Profile>)
    ensures r.Some? ==> queryOk && r.value in db.profiles && r.value.userId == userId
  {
    if queryOk then UniqueProfileOf(db.profiles, userId) else None
  }

  /** The only user metadata `signUp` sends: the full name, never a role. */
  function SignUpMetadata(fullName: string): (m: seq<(string, string)>)
    ensures ("full_name", fullName) in m
    ensures forall kv :: kv in m ==> kv.0 != "role"
  {
    [("full_name", fullName)]
  }

  /** `{ error: error ? new Error(error.message) : null }`. */
  function ErrorOf(ok: bool, message: string): (r: Option<string>)
    ensures r.None? <==> ok
    ensures r.Some? ==> r.value == message
  {
    if ok then None else Some(message)
  }

  class AuthState {
    const store: Store
    var user: Option<User>
    var session: Option<Session>
    var userRole: Option<AppRole>
    var profile: Option<Profile>
    var isLoading: bool

    /** The user is always the session's user. */
    ghost predicate Valid()
      reads this
    {
      user == UserOf(session)
    }

    constructor (store: Store)
      ensures Valid()
      ensures this.store == store && user.None? && session.None? && userRole.None? && profile.None? && isLoading
    {
      this.store := store;
      user := None;
      session := None;
      userRole := None;
      profile := None;
      isLoading := true;
    }

    /**
     * The auth listener. A session is recorded with its user, and the role
     * and profile fetch is deferred: its user id is returned and
     * `FetchUserData` runs later. Without a session the role and profile are
     * cleared and loading ends.
     */
    method OnAuthStateChange(newSession: Option<Session>) returns (deferredFetch: Option<Id>)
      modifies this
      ensures Valid()
      ensures session == newSession
      ensures newSession.None? ==> deferredFetch.None? && userRole.None? && profile.None? && !isLoading
      ensures newSession.Some? ==>
        && deferredFetch == Some(newSession.value.user.id)
        && userRole == old(userRole) && profile == old(profile) && isLoading == old(isLoading)
    {
      session := newSession;
      user := UserOf(newSession);
      if newSession.Some? {
        deferredFetch := Some(newSession.value.user.id);
      } else {
        deferredFetch := None;
        userRole := None;
        profile := None;
        isLoading := false;
      }
    }

    /**
     * The first `getSession` answer. A session is recorded with its user and
     * the fetch of its role and profile is started; without one only the
     * loading ends, and the role and profile are left as they were.
     */
    method RestoreSession(existing: Option<Session>) returns (fetch: Option<Id>)
      modifies this
      ensures Valid()
      ensures session == existing && userRole == old(userRole) && profile == old(profile)
      ensures fetch == (if existing.Some? then Some(existing.value.user.id) else None)
      ensures existing.None? ==> !isLoading
      ensures existing.Some? ==> isLoading == old(isLoading)
    {
      session := existing;
      user := UserOf(existing);
      if existing.Some? {
        fetch := Some(existing.value.user.id);
      } else {
        fetch := None;
        isLoading := false;
      }
    }

    /**
     * `fetchUserData`: reads the role and the profile of `userId`. Each
     * replaces the current value only when a single row was found; loading
     * ends either way.
     */
    method FetchUserData(userId: Id, roleQueryOk: bool, profileQueryOk: bool)
      modifies this
      requires Valid()
      ensures Valid()
      ensures user == old(user) && session == old(session) && !isLoading
      ensures userRole == KeepUnlessFound(old(userRole), RoleRead(store.db, userId, roleQueryOk))
      ensures profile == KeepUnlessFound(old(profile), ProfileRead(store.db, userId, profileQueryOk))
      ensures old(userRole).Some? ==> userRole.Some?
      ensures old(profile).Some? ==> profile.Some?
    {
      var roleData := RoleRead(store.db, userId, roleQueryOk);
      if roleData.Some? {
        userRole := roleData;
      }
      var profileData := ProfileRead(store.db, userId, profileQueryOk);
      if profileData.Some? {
        profile := profileData;
      }
      isLoading := false;
    }

    /** `refreshUserData`: a fetch for the current user, and nothing at all without one. */
    method RefreshUserData(roleQueryOk: bool, profileQueryOk: bool)
      modifies this
      requires Valid()
      ensures Valid()
      ensures user.None? ==>
        && userRole == old(userRole) && profile == old(profile) && isLoading == old(isLoading)
      ensures user.Some? ==>
        && !isLoading
        && userRole == KeepUnlessFound(old(userRole), RoleRead(store.db, user.value.id, roleQueryOk))
        && profile == KeepUnlessFound(old(profile), ProfileRead(store.db, user.value.id, profileQueryOk))
      ensures user == old(user) && session == old(session)
    {
      if user.None? {
        return;
      }
      FetchUserData(user.value.id, roleQueryOk, profileQueryOk);
    }

    /**
     * `signUp`: one call to the auth service with the full name as the only
     * metadata and the site root as the confirmation target.
     */
    method SignUp(email: string, password: string, fullName: string, ok: bool, message: string) returns (error: Option<string>)
      modifies store
      ensures store.calls == old(store.calls) + [Call.AuthSignUp(email, password, SignUpMetadata(fullName), "/", ok)]
      ensures store.db == old(store.db)
      ensures error == ErrorOf(ok, message)
    {
      store.AuthSignUp(email, password, SignUpMetadata(fullName), "/", ok);
      error := ErrorOf(ok, message);
    }

    /** `signIn`: one password sign-in; the session itself arrives through the listener. */
    method SignIn(email: string, password: string, ok: bool, message: string) returns (error: Option<string>)
      modifies store
      ensures store.calls == old(store.calls) + [Call.AuthSignIn(email, password, ok)]
      ensures store.db == old(store.db)
      ensures error == ErrorOf(ok, message)
    {
      store.AuthSignIn(email, password, ok);
      error := ErrorOf(ok, message);
    }

    /** `signOut`: signs out, then clears the user, the session, the role and the profile. */
    method SignOut()
      modifies this, store
      ensures Valid()
      ensures user.None? && session.None? && userRole.None? && profile.None?
      ensures isLoading == old(isLoading)
      ensures store.calls == old(store.calls) + [Call.AuthSignOut] && store.db == old(store.db)
    {
      store.AuthSignOut();
      user := None;
      session := None;
      userRole := None;
      profile := None;
    }
  }
}
