/**
 * The onboarding page: it maps the submitted form onto the caller's
 * profile row (status `pending`), tells the administrators, replaces the
 * spoken languages, and pre-fills the form from the existing name.
 */
module Onboarding {
  import opened Wrappers
  import opened Schema
  import opened Text
  import Seqs
  import opened Backend
  import opened RegistrationForm
  import VolunteerDashboard

  /** `toNullIfEmpty`: null for blank text, the original untrimmed text otherwise. */
  function ToNullIfEmpty(v: string): (r: Option<string>)
    ensures r.None? <==> IsBlank(v)
    ensures r.Some? ==> r.value == v && v != []
  {
    if IsBlank(v) then None else Some(v)
  }

  /** The blank test is JavaScript's `value.trim() === ""`. */
  lemma ToNullIfEmptyTrims(v: string)
    ensures ToNullIfEmpty(v).None? <==> Trim(v) == []
  {
  }

  /** Trims every piece and keeps the non-empty results, in order. */
  function TrimmedNonEmpty(pieces: seq<string>): seq<string> {
    if pieces == [] then []
    else
      var t := Trim(pieces[0]);
      (if t != [] then [t] else []) + TrimmedNonEmpty(pieces[1..])
  }

  /** `s.split(",").map(x => x.trim()).filter(Boolean)`. */
  function SplitTrimmed(s: string): seq<string> {
    TrimmedNonEmpty(Split(s, ','))
  }

  /** Every kept piece is the trimmed form of a non-blank piece. */
  lemma {:induction false} TrimmedNonEmptySound(pieces: seq<string>, x: string)
    requires x in TrimmedNonEmpty(pieces)
    ensures exists k :: 0 <= k < |pieces| && !IsBlank(pieces[k]) && x == Trim(pieces[k])
  {
    var t := Trim(pieces[0]);
    var rest := TrimmedNonEmpty(pieces[1..]);
    assert TrimmedNonEmpty(pieces) == (if t != [] then [t] else []) + rest;
    if t != [] && x == t {
      assert !IsBlank(pieces[0]);
    } else {
      assert x in rest;
      TrimmedNonEmptySound(pieces[1..], x);
      var k :| 0 <= k < |pieces[1..]| && !IsBlank(pieces[1..][k]) && x == Trim(pieces[1..][k]);
      assert pieces[k + 1] == pieces[1..][k];
    }
  }

  /** Every non-blank piece is kept, trimmed. */
  lemma {:induction false} TrimmedNonEmptyComplete(pieces: seq<string>, k: nat)
    requires k < |pieces| && !IsBlank(pieces[k])
    ensures Trim(pieces[k]) in TrimmedNonEmpty(pieces)
  {
    var t := Trim(pieces[0]);
    var rest := TrimmedNonEmpty(pieces[1..]);
    assert TrimmedNonEmpty(pieces) == (if t != [] then [t] else []) + rest;
    if k > 0 {
      assert pieces[1..][k - 1] == pieces[k];
      TrimmedNonEmptyComplete(pieces[1..], k - 1);
    }
  }

  /**
   * The pieces are exactly the non-blank comma-separated parts of the
   * text, trimmed: each is non-empty, has no comma, and has no whitespace
   * at either end.
   */
  lemma SplitTrimmedPieces(s: string)
    ensures forall x :: x in SplitTrimmed(s) <==> exists k :: 0 <= k < |Split(s, ',')| && !IsBlank(Split(s, ',')[k]) && x == Trim(Split(s, ',')[k])
    ensures forall x :: x in SplitTrimmed(s) ==> x != [] && ',' !in x && Trim(x) == x
  {
    var parts := Split(s, ',');
    forall k | 0 <= k < |parts| && !IsBlank(parts[k])
      ensures Trim(parts[k]) in SplitTrimmed(s)
    {
      TrimmedNonEmptyComplete(parts, k);
    }
    forall x | x in SplitTrimmed(s)
      ensures x != [] && ',' !in x && Trim(x) == x
      ensures exists k :: 0 <= k < |parts| && !IsBlank(parts[k]) && x == Trim(parts[k])
    {
      TrimmedNonEmptySound(parts, x);
      var k :| 0 <= k < |parts| && !IsBlank(parts[k]) && x == Trim(parts[k]);
      TrimIdempotent(parts[k]);
      TrimIsInfix(parts[k]);
    }
  }

  /** `Trim` keeps a contiguous part of its input, so it adds no character. */
  lemma TrimIsInfix(s: string)
    ensures forall c :: c in Trim(s) ==> c in s
  {
    var t := TrimStart(s);
    assert forall c :: c in t ==> c in s by {
      forall c | c in t ensures c in s {
        var i :| 0 <= i < |t| && t[i] == c;
        assert s[|s| - |t| + i] == c;
      }
    }
    var r := TrimEnd(t);
    forall c | c in r ensures c in t {
      var i :| 0 <= i < |r| && r[i] == c;
      assert t[i] == c;
    }
  }

  /** `list.length > 0 ? list.join(",") : null`. */
  function JoinOrNull(list: seq<string>): (r: Option<string>)
    ensures r.None? <==> list == []
  {
    if |list| > 0 then Some(Join(list, ',')) else None
  }

  /** Splitting a joined choice list on commas gives the choices back, when none contains a comma. */
  lemma JoinOrNullRoundTrip(list: seq<string>)
    requires list != [] && forall k :: 0 <= k < |list| ==> ',' !in list[k]
    ensures JoinOrNull(list).Some? && Split(JoinOrNull(list).value, ',') == list
  {
    SplitJoin(list, ',');
  }

  /** `list.length > 0 ? list : null`. */
  function ListOrNull(list: seq<string>): (r: Option<seq<string>>)
    ensures r.None? <==> list == []
    ensures r.Some? ==> r.value == list
  {
    if |list| > 0 then Some(list) else None
  }

  /** `${firstName} ${lastName}`.trim(). */
  function SubmittedName(form: FormData): string {
    Trim(form.firstName + " " + form.lastName)
  }

  /** The profile columns written from the form. The selected skills and interests are never read. */
  function DetailsFrom(form: FormData): (d: ProfileDetails)
    ensures d.skills == Some(SplitTrimmed(form.skills)) && d.interests == Some(SplitTrimmed(form.interests))
    ensures d.phone == ToNullIfEmpty(form.phoneMain) && d.gender == ToNullIfEmpty(form.gender)
    ensures d.dateOfBirth == ToNullIfEmpty(form.dateOfBirth) && d.governorate == ToNullIfEmpty(form.governorate)
    ensures d.city == ToNullIfEmpty(form.city)
    ensures d.preferredContact == JoinOrNull(form.preferredContact) && d.availabilityHours == JoinOrNull(form.availabilityHours)
    ensures d.availabilityDays == ListOrNull(form.availabilityDays)
  {
    ProfileDetails(
      ToNullIfEmpty(form.gender),
      ToNullIfEmpty(form.dateOfBirth),
      Some(form.isStudent),
      ToNullIfEmpty(form.educationLevel),
      ToNullIfEmpty(form.organization),
      ToNullIfEmpty(form.position),
      ToNullIfEmpty(form.profession),
      Some(form.isAffiliated),
      ToNullIfEmpty(form.affiliationDetails),
      ToNullIfEmpty(form.governorate),
      ToNullIfEmpty(form.city),
      ToNullIfEmpty(form.addressLine1),
      ToNullIfEmpty(form.addressLine2),
      ToNullIfEmpty(form.postalCode),
      ToNullIfEmpty(form.phoneMain),
      ToNullIfEmpty(form.phoneSecondary),
      JoinOrNull(form.preferredContact),
      Some(SplitTrimmed(form.skills)),
      ToNullIfEmpty(form.otherSkills),
      Some(SplitTrimmed(form.interests)),
      ListOrNull(form.availabilityDays),
      JoinOrNull(form.availabilityHours),
      Some(form.iwatchExperience),
      ToNullIfEmpty(form.iwatchEvents),
      ToNullIfEmpty(form.iwatchYears),
      ToNullIfEmpty(form.iwatchRole),
      Some(form.otherVolunteering),
      ToNullIfEmpty(form.otherOrgDetails),
      Some(form.isCommunityMember),
      ToNullIfEmpty(form.referralSource),
      ToNullIfEmpty(form.onboardingQuestions))
  }

  /** The single profile write of a submission: name, every form column, and `status = 'pending'`. */
  function OnboardingPatch(form: FormData): ProfilePatch {
    SetOnboarding(SubmittedName(form), DetailsFrom(form), "pending")
  }

  /** The five gate fields of the form. */
  predicate GateFieldsFilled(form: FormData) {
    !IsBlank(form.gender) && !IsBlank(form.dateOfBirth) && !IsBlank(form.governorate)
    && !IsBlank(form.city) && !IsBlank(form.phoneMain)
  }

  /**
   * After the onboarding write the profile is complete exactly when the
   * five gate fields of the form were not blank; whatever the form holds,
   * the status is `pending`.
   */
  lemma OnboardingCompleteness(p: Profile, form: FormData)
    ensures var q := ApplyPatch(p, OnboardingPatch(form));
      q.status == Some("pending")
      && (VolunteerDashboard.IsProfileComplete(Some(q)) <==> GateFieldsFilled(form))
  {
    var d := DetailsFrom(form);
    assert ApplyPatch(p, OnboardingPatch(form)).details == d;
    FilledIffNotBlank(form.gender);
    FilledIffNotBlank(form.dateOfBirth);
    FilledIffNotBlank(form.governorate);
    FilledIffNotBlank(form.city);
    FilledIffNotBlank(form.phoneMain);
  }

  lemma FilledIffNotBlank(v: string)
    ensures VolunteerDashboard.Filled(ToNullIfEmpty(v)) <==> !IsBlank(v)
  {
  }

  /**
   * A complete submission sends the volunteer to the dashboard, which
   * neither redirects nor shows the dashboard itself: it shows the waiting
   * screen until an administrator approves.
   */
  lemma SubmissionLeadsToWaiting(p: Profile, form: FormData, user: Id)
    requires GateFieldsFilled(form)
    ensures var q := Some(ApplyPatch(p, OnboardingPatch(form)));
      VolunteerDashboard.DashboardRedirect(false, Some(user), q).None?
      && VolunteerDashboard.DashboardView(false, false, q) == VolunteerDashboard.WaitingScreen
  {
    OnboardingCompleteness(p, form);
  }

  /** `languages.filter(l => l.level).map(…)`: only languages with a level, keyed by the profile id. */
  function LanguageRows(languages: seq<Language>, profileId: Id): (r: seq<LanguageInsert>)
    ensures |r| <= |languages|
    ensures forall x :: x in r <==> x.volunteerId == profileId && x.level != "" && Language(x.language, x.level) in languages
  {
    if languages == [] then []
    else
      var l := languages[0];
      var rest := LanguageRows(languages[1..], profileId);
      assert forall y :: y in languages <==> y == l || y in languages[1..];
      (if l.level != "" then [LanguageInsert(profileId, l.language, l.level)] else []) + rest
  }

  // ----- prefill -------------------------------------------------------------

  /**
   * The initial data handed to the form: the stored name split on single
   * spaces into the first token and the rest joined again, and the profile
   * e-mail, else the account e-mail, else empty.
   */
  function Prefill(profile: Option<Profile>, userEmail: Option<string>): (r: InitialData)
    ensures r.firstName.Some? && r.lastName.Some? && r.email.Some?
    ensures r.languages.None? && r.consentTerms.None? && r.consentDataUsage.None?
    ensures profile.Some? && profile.value.email != "" ==> r.email.value == profile.value.email
    ensures (profile.None? || profile.value.email == "") ==> r.email.value == (if userEmail.Some? then userEmail.value else "")
  {
    var parts := if profile.Some? then Split(profile.value.fullName, ' ') else [];
    var first := if |parts| > 0 then parts[0] else "";
    var last := Join(if |parts| > 1 then parts[1..] else [], ' ');
    var email :=
      if profile.Some? && profile.value.email != "" then profile.value.email
      else if userEmail.Some? then userEmail.value
      else "";
    InitialData(Some(first), Some(last), Some(email), None, None, None)
  }

  /**
   * Submitting the pre-filled name unchanged writes back the stored name
   * trimmed: runs of spaces inside the name are kept as they were.
   */
  lemma PrefillRoundTrip(profile: Profile, userEmail: Option<string>)
    ensures SubmittedName(InitialForm(Prefill(Some(profile), userEmail))) == Trim(profile.fullName)
  {
    var name := profile.fullName;
    var parts := Split(name, ' ');
    var form := InitialForm(Prefill(Some(profile), userEmail));
    JoinSplit(name, ' ');
    if |parts| == 1 {
      assert form.firstName == name && form.lastName == "";
      assert form.firstName + " " + form.lastName == name + [' '];
      TrimDropsTrailing(name, ' ');
    } else {
      assert form.firstName + " " + form.lastName == Join(parts, ' ');
    }
  }

  // ----- the page ------------------------------------------------------------

  datatype Route = AuthRoute | AdminRoute | DashboardRoute

  /** The redirect effect of the onboarding page once authentication has settled. */
  function OnboardingRedirect(authLoading: bool, user: Option<Id>, role: Option<AppRole>, profile: Option<Profile>): (r: Option<Route>)
    ensures r == Some(DashboardRoute) ==> VolunteerDashboard.IsProfileComplete(profile)
    ensures !authLoading && user.Some? && role != Some(Admin) && !VolunteerDashboard.IsProfileComplete(profile) ==> r.None?
  {
    if authLoading then None
    else if user.None? then Some(AuthRoute)
    else if role == Some(Admin) then Some(AdminRoute)
    else if profile.Some? && VolunteerDashboard.IsProfileComplete(profile) then Some(DashboardRoute)
    else None
  }

  /** The onboarding and dashboard redirects never send a volunteer back and forth. */
  lemma NoRedirectLoop(user: Id, profile: Option<Profile>)
    ensures !(OnboardingRedirect(false, Some(user), Some(Volunteer), profile) == Some(DashboardRoute)
              && VolunteerDashboard.DashboardRedirect(false, Some(user), profile) == Some(VolunteerDashboard.OnboardingRoute))
  {
  }

  datatype SubmitOutcome = Ignored | Submitted | Failed

  /** The notice sent to the administrators: the submitted name, the form e-mail, the main phone unless empty. */
  function Notice(form: FormData): Payload {
    NewVolunteerNotice(SubmittedName(form), form.email, if form.phoneMain != "" then Some(form.phoneMain) else None)
  }

  /**
   * The backend calls of one submission for profile `pid`, in order: the
   * profile write `patch`, the notice to the administrators, and the
   * language rows `rows`, given which of the calls succeed.
   */
  function SubmitCalls(pid: Id, patch: ProfilePatch, notice: Payload, rows: seq<LanguageInsert>,
                       profileOk: bool, notifyOk: bool, deleteOk: bool, insertOk: bool): (r: seq<Call>)
    ensures 1 <= |r| <= 4 && r[0] == Call.UpdateProfiles(ById(pid), patch, profileOk)
    ensures |r| > 1 <==> profileOk
  {
    var update := Call.UpdateProfiles(ById(pid), patch, profileOk);
    var notify := Call.Invoke(NotifyAdminNewVolunteerFn, notice, notifyOk);
    if !profileOk then [update]
    else if rows == [] then [update, notify]
    else [update, notify, Call.DeleteLanguages(pid, deleteOk), Call.InsertLanguages(rows, insertOk)]
  }

  /** The outcome the page reports: a failed profile write or a failed language insert fails the submission. */
  function SubmitResult(rows: seq<LanguageInsert>, profileOk: bool, insertOk: bool): (r: SubmitOutcome)
    ensures r != Ignored
    ensures r == Submitted ==> profileOk
    ensures profileOk && insertOk ==> r == Submitted
  {
    if !profileOk then Failed
    else if rows != [] && !insertOk then Failed
    else Submitted
  }

  /**
   * The profile write comes first and is the only one; the administrators
   * are told, and the languages rewritten, only after it succeeded; the
   * submission succeeds whatever happens to the notice or the delete.
   */
  lemma SubmitOrdering(pid: Id, patch: ProfilePatch, notice: Payload, rows: seq<LanguageInsert>,
                       profileOk: bool, notifyOk: bool, deleteOk: bool, insertOk: bool)
    ensures var cs := SubmitCalls(pid, patch, notice, rows, profileOk, notifyOk, deleteOk, insertOk);
      && cs[0] == Call.UpdateProfiles(ById(pid), patch, profileOk)
      && (forall k :: 1 <= k < |cs| ==> !cs[k].UpdateProfiles? && profileOk)
      && (exists k :: 0 <= k < |cs| && cs[k].Invoke?) == profileOk
      && (exists k :: 0 <= k < |cs| && cs[k].InsertLanguages?) == (profileOk && rows != [])
      && (SubmitResult(rows, profileOk, insertOk) == Submitted
          <==> forall k :: 0 <= k < |cs| && (cs[k].UpdateProfiles? || cs[k].InsertLanguages?) ==> cs[k].ok)
  {
    var cs := SubmitCalls(pid, patch, notice, rows, profileOk, notifyOk, deleteOk, insertOk);
    if profileOk {
      assert cs[1].Invoke?;
      if rows != [] {
        assert cs[3].InsertLanguages?;
      }
    }
  }

  /**
   * The `volunteer_languages` table after a submission: untouched when the
   * profile write failed or no language has a level; otherwise the profile's
   * old rows are gone if the delete succeeded, and the new rows follow the
   * kept ones if the insert succeeded.
   */
  predicate LanguagesAfter(before: seq<LanguageRow>, after: seq<LanguageRow>, pid: Id, rows: seq<LanguageInsert>,
                           profileOk: bool, deleteOk: bool, insertOk: bool) {
    if !profileOk || rows == [] then after == before
    else
      var kept := if deleteOk then Seqs.Filter(before, (l: LanguageRow) => l.volunteerId != pid) else before;
      if insertOk then Appended(kept, after, rows) else after == kept
  }

  /**
   * A submission whose writes all succeed replaces the profile's languages:
   * afterwards its rows are exactly the inserted ones, in order, and every
   * other volunteer's rows are as they were.
   */
  lemma LanguagesReplaced(before: seq<LanguageRow>, after: seq<LanguageRow>, languages: seq<Language>, pid: Id)
    requires LanguageRows(languages, pid) != []
    requires LanguagesAfter(before, after, pid, LanguageRows(languages, pid), true, true, true)
    ensures var rows := LanguageRows(languages, pid);
      var mine := Seqs.Filter(after, (l: LanguageRow) => l.volunteerId == pid);
      && |mine| == |rows|
      && forall k :: 0 <= k < |rows| ==> mine[k].language == rows[k].language && mine[k].level == rows[k].level
    ensures Seqs.Filter(after, (l: LanguageRow) => l.volunteerId != pid) == Seqs.Filter(before, (l: LanguageRow) => l.volunteerId != pid)
  {
    var rows := LanguageRows(languages, pid);
    assert forall r :: r in rows ==> r.volunteerId == pid;
    RowsReplaced(before, after, rows, pid);
  }

  lemma {:induction false} RowsReplaced(before: seq<LanguageRow>, after: seq<LanguageRow>, rows: seq<LanguageInsert>, pid: Id)
    requires forall r :: r in rows ==> r.volunteerId == pid
    requires Appended(Seqs.Filter(before, (l: LanguageRow) => l.volunteerId != pid), after, rows)
    ensures Seqs.Filter(after, (l: LanguageRow) => l.volunteerId == pid) == after[|after| - |rows|..]
    ensures Seqs.Filter(after, (l: LanguageRow) => l.volunteerId != pid) == Seqs.Filter(before, (l: LanguageRow) => l.volunteerId != pid)
  {
    var isMine := (l: LanguageRow) => l.volunteerId == pid;
    var isOther := (l: LanguageRow) => l.volunteerId != pid;
    var kept := Seqs.Filter(before, isOther);
    var added := after[|kept|..];
    assert after == kept + added;
    forall l | l in added ensures l.volunteerId == pid {
      var k :| 0 <= k < |added| && added[k] == l;
      assert l == after[|kept| + k];
      assert rows[k] in rows;
    }
    Seqs.FilterAppend(kept, added, isMine);
    Seqs.FilterNone(kept, isMine);
    Seqs.FilterAll(added, isMine);
    Seqs.FilterAppend(kept, added, isOther);
    Seqs.FilterAll(kept, isOther);
    Seqs.FilterNone(added, isOther);
  }

  class OnboardingPage {
    const store: Store
    var userId: Option<Id>
    var profile: Option<Profile>
    var isSubmitting: bool

    constructor (store: Store, userId: Option<Id>, profile: Option<Profile>)
      ensures this.store == store && this.userId == userId && this.profile == profile && !isSubmitting
    {
      this.store := store;
      this.userId := userId;
      this.profile := profile;
      isSubmitting := false;
    }

    /**
     * `handleSubmit`: builds the profile write, the notice and the language
     * rows from the form, then runs `Submit` for the signed-in profile. On
     * success the page refreshes the session and goes to the dashboard.
     */
    method HandleSubmit(form: FormData, languages: seq<Language>, profileOk: bool, notifyOk: bool, deleteOk: bool, insertOk: bool)
      returns (outcome: SubmitOutcome)
      modifies this, store
      ensures userId == old(userId) && profile == old(profile)
      ensures userId.None? || profile.None? ==>
        outcome == Ignored && store.calls == old(store.calls) && store.db == old(store.db) && isSubmitting == old(isSubmitting)
      ensures userId.Some? && profile.Some? ==>
        var pid := profile.value.id;
        var patch := OnboardingPatch(form);
        var rows := LanguageRows(languages, pid);
        && !isSubmitting
        && store.calls == old(store.calls) + SubmitCalls(pid, patch, Notice(form), rows, profileOk, notifyOk, deleteOk, insertOk)
        && outcome == SubmitResult(rows, profileOk, insertOk)
        && store.db == old(store.db).(profiles := store.db.profiles, languages := store.db.languages)
        && store.db.profiles == (if profileOk then PatchProfiles(old(store.db.profiles), ById(pid), patch) else old(store.db.profiles))
        && LanguagesAfter(old(store.db.languages), store.db.languages, pid, rows, profileOk, deleteOk, insertOk)
    {
      if userId.None? || profile.None? {
        return Ignored;
      }
      isSubmitting := true;
      var pid := profile.value.id;
      outcome := Submit(pid, OnboardingPatch(form), Notice(form), LanguageRows(languages, pid), profileOk, notifyOk, deleteOk, insertOk);
      isSubmitting := false;
    }

    /**
     * The body of `handleSubmit`'s `try`: the profile update; then the
     * administrators' notification, whose failure is swallowed; then, only
     * when some language has a level, a delete of the old rows, whose result
     * is ignored, and an insert of the new ones. A failed update stops
     * before anything else; a failed insert fails the submission after the
     * profile was written.
     */
    method Submit(pid: Id, patch: ProfilePatch, notice: Payload, rows: seq<LanguageInsert>,
                  profileOk: bool, notifyOk: bool, deleteOk: bool, insertOk: bool)
      returns (outcome: SubmitOutcome)
      modifies store
      ensures store.calls == old(store.calls) + SubmitCalls(pid, patch, notice, rows, profileOk, notifyOk, deleteOk, insertOk)
      ensures outcome == SubmitResult(rows, profileOk, insertOk)
      ensures store.db == old(store.db).(profiles := store.db.profiles, languages := store.db.languages)
      ensures store.db.profiles == (if profileOk then PatchProfiles(old(store.db.profiles), ById(pid), patch) else old(store.db.profiles))
      ensures LanguagesAfter(old(store.db.languages), store.db.languages, pid, rows, profileOk, deleteOk, insertOk)
    {
      store.UpdateProfiles(ById(pid), patch, profileOk);
      if !profileOk {
        return Failed;
      }
      store.Invoke(NotifyAdminNewVolunteerFn, notice, notifyOk);
      outcome := Submitted;
      if |rows| > 0 {
        store.DeleteLanguages(pid, deleteOk);
        store.InsertLanguages(rows, insertOk);
        if !insertOk {
          outcome := Failed;
        }
      }
    }
  }
}
