/**
 * The volunteer's dashboard: the completeness gate shared by every page,
 * the derived views (registered events, stats, completion rate, the
 * location filter) and the registration actions over the backend.
 */
module VolunteerDashboard {
  import opened Wrappers
  import opened Schema
  import opened Text
  import Seqs
  import opened Backend

  /** JavaScript truthiness of a nullable text column: present and not the empty string. */
  predicate Filled(o: Option<string>) {
    o.Some? && o.value != ""
  }

  /** The five columns the completeness gate looks at. */
  function GateFields(d: ProfileDetails): seq<Option<string>> {
    [d.gender, d.dateOfBirth, d.governorate, d.city, d.phone]
  }

  /** The five fields the onboarding form must have filled in: a profile is complete when none of them is null or empty. */
  predicate IsProfileComplete(p: Option<Profile>)
    ensures IsProfileComplete(p) <==> p.Some? && forall f :: f in GateFields(p.value.details) ==> Filled(f)
  {
    && p.Some?
    && Filled(p.value.details.gender)
    && Filled(p.value.details.dateOfBirth)
    && Filled(p.value.details.governorate)
    && Filled(p.value.details.city)
    && Filled(p.value.details.phone)
  }

  datatype Route = AuthRoute | OnboardingRoute | DashboardRoute | AdminRoute

  /** The redirect effect of the dashboard, once authentication has settled. */
  function DashboardRedirect(authLoading: bool, user: Option<Id>, profile: Option<Profile>): (r: Option<Route>)
    ensures r.Some? ==> !authLoading
    ensures r == Some(AuthRoute) <==> !authLoading && user.None?
    ensures r == Some(OnboardingRoute) <==> !authLoading && user.Some? && profile.Some? && !IsProfileComplete(profile)
    ensures r.Some? ==> r == Some(AuthRoute) || r == Some(OnboardingRoute)
  {
    if authLoading then None
    else if user.None? then Some(AuthRoute)
    else if profile.Some? && !IsProfileComplete(profile) then Some(OnboardingRoute)
    else None
  }

  /** The data effect: the dashboard loads its data only for a signed-in user with a complete profile. */
  predicate LoadsData(user: Option<Id>, profile: Option<Profile>) {
    user.Some? && profile.Some? && IsProfileComplete(profile)
  }

  datatype View = Spinner | WaitingScreen | Dashboard

  function DashboardView(authLoading: bool, isLoading: bool, profile: Option<Profile>): (v: View)
    ensures v == Spinner <==> authLoading || isLoading
    ensures v == WaitingScreen <==> !authLoading && !isLoading && profile.Some? && profile.value.status == Some("pending")
  {
    if authLoading || isLoading then Spinner
    else if profile.Some? && profile.value.status == Some("pending") then WaitingScreen
    else Dashboard
  }

  /**
   * The two effects agree: a user whose data is loaded is never redirected,
   * and a user who is redirected away never has data loaded. A pending
   * volunteer with a complete profile stays and, once loaded, sees the
   * waiting screen instead of the dashboard.
   */
  lemma GateConsistency(user: Option<Id>, profile: Option<Profile>)
    ensures LoadsData(user, profile) ==> DashboardRedirect(false, user, profile).None?
    ensures DashboardRedirect(false, user, profile).Some? ==> !LoadsData(user, profile)
    ensures LoadsData(user, profile) && profile.value.status == Some("pending") ==>
      DashboardView(false, false, profile) == WaitingScreen
  {
  }

  // ----- location filter -------------------------------------------------

  datatype LocationFilter = AllLocations | LocalOnly

  /** `profile.city?.toLowerCase() || ""`: a missing city and an empty city both become "". */
  function CityKey(p: Profile): string {
    if p.details.city.Some? then ToLower(p.details.city.value) else ""
  }

  /**
   * The location filter: everything for "all locations"; otherwise an event
   * is dropped only when the profile has a governorate, the event has a
   * location, and that location is neither "En ligne" nor mentions the
   * governorate or the city.
   */
  predicate KeepEvent(filter: LocationFilter, profile: Option<Profile>, event: Task)
    ensures filter == AllLocations || profile.None? ==> KeepEvent(filter, profile, event)
    ensures !Filled(event.location) || event.location == Some("En ligne") ==> KeepEvent(filter, profile, event)
  {
    if filter == AllLocations then true
    else if profile.None? || !Filled(profile.value.details.governorate) then true
    else if !Filled(event.location) then true
    else
      var loc := ToLower(event.location.value);
      Contains(loc, ToLower(profile.value.details.governorate.value))
      || Contains(loc, CityKey(profile.value))
      || event.location.value == "En ligne"
  }

  function FilteredEvents(filter: LocationFilter, profile: Option<Profile>, events: seq<Task>): (r: seq<Task>)
    ensures |r| <= |events|
    ensures forall e :: e in r <==> e in events && KeepEvent(filter, profile, e)
  {
    Seqs.Filter(events, (e: Task) => KeepEvent(filter, profile, e))
  }

  /**
   * The local filter keeps an event exactly when the profile has no
   * governorate, the event has no location, the location is "En ligne", or
   * the lower-cased governorate or city occurs somewhere in the lower-cased
   * location.
   */
  lemma {:induction false} LocalFilterKeeps(profile: Profile, event: Task)
    ensures KeepEvent(LocalOnly, Some(profile), event) <==>
      || !Filled(profile.details.governorate)
      || !Filled(event.location)
      || event.location.value == "En ligne"
      || (exists i :: OccursAt(ToLower(event.location.value), ToLower(profile.details.governorate.value), i))
      || (exists i :: OccursAt(ToLower(event.location.value), CityKey(profile), i))
  {
    if Filled(profile.details.governorate) && Filled(event.location) {
      var loc := ToLower(event.location.value);
      ContainsAt(loc, ToLower(profile.details.governorate.value));
      ContainsAt(loc, CityKey(profile));
    }
  }

  /** The empty string occurs in every text. */
  lemma {:induction false} ContainsEmpty(hay: string)
    ensures Contains(hay, "")
  {
    assert OccursAt(hay, "", 0);
    ContainsAt(hay, "");
  }

  /** With no city, or an empty one, the city test matches every location: the local filter shows everything. */
  lemma NoCityShowsEverything(profile: Profile, events: seq<Task>)
    requires profile.details.city.None? || profile.details.city == Some("")
    ensures FilteredEvents(LocalOnly, Some(profile), events) == events
  {
    assert CityKey(profile) == "";
    forall e | e in events
      ensures KeepEvent(LocalOnly, Some(profile), e)
    {
      if Filled(profile.details.governorate) && Filled(e.location) {
        ContainsEmpty(ToLower(e.location.value));
      }
    }
    Seqs.FilterAll(events, (e: Task) => KeepEvent(LocalOnly, Some(profile), e));
  }

  // ----- registered events ---------------------------------------------

  /** The first task with the given id, as the `tasks (…)` join returns it. */
  function TaskById(tasks: seq<Task>, id: Id): (r: Option<Task>)
    ensures r.Some? ==> r.value in tasks && r.value.id == id
    ensures r.None? <==> forall t :: t in tasks ==> t.id != id
  {
    if tasks == [] then None
    else if tasks[0].id == id then Some(tasks[0])
    else TaskById(tasks[1..], id)
  }

  /** A `task_assignments` row as the dashboard reads it, with its task joined in (null when not visible). */
  datatype AssignmentView = AssignmentView(id: Id, status: TaskStatus, hoursLogged: Option<int>, task: Option<Task>)

  function ViewOf(tasks: seq<Task>, a: Assignment): AssignmentView {
    AssignmentView(a.id, a.status, a.hoursLogged, TaskById(tasks, a.taskId))
  }

  /** The volunteer's assignments, filtered on `volunteer_id = user.id`, in table order. */
  function AssignmentsOf(db: Db, userId: Id): (r: seq<AssignmentView>)
    ensures forall v :: v in r <==> exists a :: a in db.assignments && a.volunteerId == userId && v == ViewOf(db.tasks, a)
  {
    var mine := Seqs.Filter(db.assignments, (a: Assignment) => a.volunteerId == userId);
    var r := seq(|mine|, k requires 0 <= k < |mine| => ViewOf(db.tasks, mine[k]));
    assert forall v :: v in r ==> exists a :: a in mine && v == ViewOf(db.tasks, a);
    assert forall a :: a in mine ==> ViewOf(db.tasks, a) in r by {
      forall a | a in mine ensures ViewOf(db.tasks, a) in r {
        var k :| 0 <= k < |mine| && mine[k] == a;
        assert r[k] == ViewOf(db.tasks, a);
      }
    }
    r
  }

  /** `assignments.map(a => a.tasks?.id).filter(Boolean)`: the ids of the joined tasks, empty ids dropped. */
  function RegisteredIds(views: seq<AssignmentView>): (r: seq<Id>)
    ensures |r| <= |views|
    ensures forall id :: id in r <==> id != "" && exists v :: v in views && v.task.Some? && v.task.value.id == id
  {
    if views == [] then []
    else
      var head := if views[0].task.Some? && views[0].task.value.id != "" then [views[0].task.value.id] else [];
      var tail := RegisteredIds(views[1..]);
      assert forall v :: v in views <==> v == views[0] || v in views[1..];
      head + tail
  }

  /**
   * The registered list ignores status: an assignment the admin refused
   * (status `cancelled`) still lists its event, so it still blocks a new
   * registration for that event.
   */
  lemma RefusedRegistrationStillListed(db: Db, userId: Id, a: Assignment)
    requires a in db.assignments && a.volunteerId == userId
    requires a.taskId != "" && TaskById(db.tasks, a.taskId).Some?
    ensures a.taskId in RegisteredIds(AssignmentsOf(db, userId))
  {
    var v := ViewOf(db.tasks, a);
    assert v in AssignmentsOf(db, userId);
  }

  // ----- stats ---------------------------------------------------------

  /** A `training_participants` row as the dashboard reads it. */
  datatype TrainingView = TrainingView(participationId: Id, training: Option<Training>, status: Option<string>, attended: Option<bool>)

  datatype VolunteerStats = VolunteerStats(
    totalTasks: nat,
    completedTasks: nat,
    hoursVolunteered: int,
    upcomingTasks: nat,
    trainingsCompleted: nat,
    certificatesEarned: nat)

  predicate IsCompleted(v: AssignmentView) { v.status == Completed }
  predicate IsUpcoming(v: AssignmentView) { v.status == Pending || v.status == InProgress }
  predicate IsRefused(v: AssignmentView) { v.status == Cancelled }

  /** `hours_logged || 0`. */
  function Logged(v: AssignmentView): int { v.hoursLogged.GetOr(0) }

  /** `filter(t => t.attended)`: a null flag counts as not attended. */
  predicate Attended(t: TrainingView) {
    t.attended == Some(true)
  }

  function ComputeStats(views: seq<AssignmentView>, profileHours: Option<int>, trainings: seq<TrainingView>, certificates: nat): (s: VolunteerStats)
    ensures s.totalTasks == |views|
    ensures s.completedTasks == Seqs.Count(views, IsCompleted)
    ensures s.upcomingTasks == Seqs.Count(views, IsUpcoming)
    ensures s.hoursVolunteered == Seqs.Sum(views, Logged) + profileHours.GetOr(0)
    ensures s.trainingsCompleted == Seqs.Count(trainings, Attended) && s.certificatesEarned == certificates
  {
    VolunteerStats(
      |views|,
      Seqs.Count(views, IsCompleted),
      Seqs.Sum(views, Logged) + profileHours.GetOr(0),
      Seqs.Count(views, IsUpcoming),
      Seqs.Count(trainings, Attended),
      certificates)
  }

  /** Every assignment is exactly one of completed, upcoming or refused. */
  lemma {:induction false} StatusPartition(views: seq<AssignmentView>)
    ensures Seqs.Count(views, IsCompleted) + Seqs.Count(views, IsUpcoming) + Seqs.Count(views, IsRefused) == |views|
  {
    if views != [] {
      StatusPartition(views[1..]);
    }
  }

  lemma StatsBounds(views: seq<AssignmentView>, profileHours: Option<int>, trainings: seq<TrainingView>, certificates: nat)
    requires forall v :: v in views ==> Logged(v) >= 0
    requires profileHours.GetOr(0) >= 0
    ensures var s := ComputeStats(views, profileHours, trainings, certificates);
      s.completedTasks + s.upcomingTasks <= s.totalTasks && s.hoursVolunteered >= 0
  {
    StatusPartition(views);
    Seqs.SumNonNegative(views, Logged);
  }

  /**
   * `Math.round(completed / total * 100)` with exact division: the nearest
   * integer to the percentage, halves rounded up; 0 when there are no tasks.
   */
  function CompletionRate(total: nat, completed: nat): (r: int)
    ensures total == 0 ==> r == 0
    ensures total > 0 ==> 2 * total * r <= 200 * completed + total < 2 * total * (r + 1)
    ensures completed <= total ==> 0 <= r <= 100
  {
    if total == 0 then 0
    else
      var r := (200 * completed + total) / (2 * total);
      assert completed <= total ==> 200 * completed + total < 2 * total * 101;
      r
  }

  // ----- the page --------------------------------------------------------

  /** Where `find(a => a.tasks.id === eventId)` stops: a match, the end, or an assignment with no task, which throws. */
  datatype Lookup = Found(index: nat) | Missing | Throws(at: nat)

  function FindByTask(views: seq<AssignmentView>, eventId: Id): (r: Lookup)
    ensures r.Found? ==> r.index < |views| && views[r.index].task.Some? && views[r.index].task.value.id == eventId
    ensures r.Throws? ==> r.at < |views| && views[r.at].task.None?
    ensures var stop := if r.Found? then r.index else if r.Throws? then r.at else |views|;
      stop <= |views| && forall j :: 0 <= j < stop ==> views[j].task.Some? && views[j].task.value.id != eventId
  {
    if views == [] then Missing
    else if views[0].task.None? then Throws(0)
    else if views[0].task.value.id == eventId then Found(0)
    else match FindByTask(views[1..], eventId)
      case Found(k) => Found(k + 1)
      case Throws(k) => Throws(k + 1)
      case Missing => Missing
  }

  class DashboardPage {
    const store: Store
    var userId: Option<Id>
    var profile: Option<Profile>
    var assignments: seq<AssignmentView>
    var registeredEvents: seq<Id>
    var upcomingEvents: seq<Task>
    var trainings: seq<TrainingView>
    var stats: VolunteerStats
    var isLoading: bool
    var isRegistering: Option<Id>
    var locationFilter: LocationFilter

    constructor (store: Store, userId: Option<Id>, profile: Option<Profile>)
      ensures this.store == store && this.userId == userId && this.profile == profile
      ensures assignments == [] && registeredEvents == [] && upcomingEvents == [] && trainings == []
      ensures stats == VolunteerStats(0, 0, 0, 0, 0, 0)
      ensures isLoading && isRegistering.None? && locationFilter == LocalOnly
    {
      this.store := store;
      this.userId := userId;
      this.profile := profile;
      assignments := [];
      registeredEvents := [];
      upcomingEvents := [];
      trainings := [];
      stats := VolunteerStats(0, 0, 0, 0, 0, 0);
      isLoading := true;
      isRegistering := None;
      locationFilter := LocalOnly;
    }

    function Visible(): (r: seq<Task>)
      reads this
      ensures forall e :: e in r <==> e in upcomingEvents && KeepEvent(locationFilter, profile, e)
    {
      FilteredEvents(locationFilter, profile, upcomingEvents)
    }

    function Rate(): (r: int)
      reads this
      ensures stats.completedTasks <= stats.totalTasks ==> 0 <= r <= 100
    {
      CompletionRate(stats.totalTasks, stats.completedTasks)
    }

    /**
     * `fetchData`: reads the volunteer's assignments (keyed by the auth user
     * id) and training participations (keyed by the profile id) and derives
     * the registered list and the stats. A failed read counts as no rows.
     * The upcoming-events and certificate reads depend on the clock and on
     * tables outside the model, so their results are parameters.
     */
    method FetchData(assignmentsOk: bool, participantsOk: bool, upcoming: seq<Task>, certificates: nat)
      modifies this
      ensures assignments == if assignmentsOk && userId.Some? then AssignmentsOf(store.db, userId.value) else []
      ensures registeredEvents == RegisteredIds(assignments)
      ensures trainings == if participantsOk && profile.Some? then TrainingsOf(store.db, profile.value.id) else []
      ensures stats == ComputeStats(assignments, if profile.Some? then profile.value.hoursVolunteered else None, trainings, certificates)
      ensures upcomingEvents == upcoming && !isLoading
      ensures userId == old(userId) && profile == old(profile) && isRegistering == old(isRegistering)
      ensures locationFilter == old(locationFilter)
    {
      if assignmentsOk && userId.Some? {
        assignments := AssignmentsOf(store.db, userId.value);
      } else {
        assignments := [];
      }
      registeredEvents := RegisteredIds(assignments);
      upcomingEvents := upcoming;
      if participantsOk && profile.Some? {
        trainings := TrainingsOf(store.db, profile.value.id);
      } else {
        trainings := [];
      }
      stats := ComputeStats(assignments, if profile.Some? then profile.value.hoursVolunteered else None, trainings, certificates);
      isLoading := false;
    }

    /**
     * `registerForEvent`. The refetch it starts at the end is not awaited;
     * it is the separate step `FetchData`.
     */
    method RegisterForEvent(eventId: Id, ok: bool) returns (registered: bool)
      modifies this, store
      ensures assignments == old(assignments) && upcomingEvents == old(upcomingEvents) && stats == old(stats)
      ensures userId == old(userId) && profile == old(profile)
      ensures trainings == old(trainings) && isLoading == old(isLoading) && locationFilter == old(locationFilter)
      ensures userId.None? || profile.None? ==>
        !registered && isRegistering == old(isRegistering) && registeredEvents == old(registeredEvents)
        && store.calls == old(store.calls) && store.db == old(store.db)
      ensures userId.Some? && profile.Some? && eventId in old(registeredEvents) ==>
        !registered && isRegistering.None? && registeredEvents == old(registeredEvents)
        && store.calls == old(store.calls) && store.db == old(store.db)
      ensures userId.Some? && profile.Some? && eventId !in old(registeredEvents) ==>
        && registered == ok
        && isRegistering.None?
        && store.calls == old(store.calls) + [Call.InsertAssignment(AssignmentInsert(eventId, userId.value, Some(Pending)), ok)]
        && registeredEvents == (if ok then old(registeredEvents) + [eventId] else old(registeredEvents))
      ensures registered ==>
        && store.db == old(store.db).(assignments := store.db.assignments)
        && |store.db.assignments| == |old(store.db.assignments)| + 1
        && store.db.assignments[..|old(store.db.assignments)|] == old(store.db.assignments)
        && var a := store.db.assignments[|old(store.db.assignments)|];
           a.taskId == eventId && a.volunteerId == userId.value && a.status == Pending
      ensures !registered ==> store.db == old(store.db)
    {
      if userId.None? || profile.None? {
        return false;
      }
      isRegistering := Some(eventId);
      if eventId in registeredEvents {
        isRegistering := None;
        return false;
      }
      var created := store.InsertAssignment(AssignmentInsert(eventId, userId.value, Some(Pending)), ok);
      if created.Some? {
        registeredEvents := registeredEvents + [eventId];
        registered := true;
      } else {
        registered := false;
      }
      isRegistering := None;
    }

    /**
     * `handleCancelRegistration`: hard-deletes the first assignment whose
     * task is the event. It never resets `isRegistering`.
     */
    method CancelRegistration(eventId: Id, ok: bool)
      modifies this, store
      ensures userId == old(userId) && profile == old(profile) && upcomingEvents == old(upcomingEvents) && stats == old(stats)
      ensures trainings == old(trainings) && isLoading == old(isLoading) && locationFilter == old(locationFilter)
      ensures userId.None? || !FindByTask(old(assignments), eventId).Found? ==>
        && assignments == old(assignments) && registeredEvents == old(registeredEvents)
        && isRegistering == old(isRegistering) && store.calls == old(store.calls) && store.db == old(store.db)
      ensures userId.Some? && FindByTask(old(assignments), eventId).Found? ==>
        var victim := old(assignments)[FindByTask(old(assignments), eventId).index].id;
        && isRegistering == Some(eventId)
        && store.calls == old(store.calls) + [Call.DeleteAssignment(victim, ok)]
        && store.db == (if ok then old(store.db).(assignments := Seqs.Filter(old(store.db.assignments), (a: Assignment) => a.id != victim))
                        else old(store.db))
        && (ok ==> && registeredEvents == Seqs.Filter(old(registeredEvents), (id: Id) => id != eventId)
                   && assignments == Seqs.Filter(old(assignments), (v: AssignmentView) => v.id != victim))
        && (!ok ==> registeredEvents == old(registeredEvents) && assignments == old(assignments))
    {
      if userId.None? {
        return;
      }
      var lookup := FindByTask(assignments, eventId);
      if !lookup.Found? {
        return;
      }
      var victim := assignments[lookup.index].id;
      isRegistering := Some(eventId);
      store.DeleteAssignment(victim, ok);
      if ok {
        registeredEvents := Seqs.Filter(registeredEvents, (id: Id) => id != eventId);
        assignments := Seqs.Filter(assignments, (v: AssignmentView) => v.id != victim);
      }
    }

    /** `registerForTraining`: the participation is keyed by the profile id, not the auth user id. */
    method RegisterForTraining(trainingId: Id, ok: bool) returns (registered: bool)
      modifies store
      ensures userId.None? ==> !registered && store.calls == old(store.calls) && store.db == old(store.db)
      ensures userId.Some? ==>
        && store.calls == old(store.calls) + [Call.InsertParticipant(trainingId, if profile.Some? then Some(profile.value.id) else None, "pending", ok && profile.Some?)]
        && (registered <==> ok && profile.Some?)
      ensures registered ==>
        exists id ::
          && id !in Ids(old(store.db.participants), (p: Participant) => p.id)
          && store.db == old(store.db).(participants := old(store.db.participants) + [Participant(id, trainingId, profile.value.id, Some("pending"), None)])
      ensures !registered ==> store.db == old(store.db)
    {
      if userId.None? {
        return false;
      }
      var created := store.InsertParticipant(trainingId, if profile.Some? then Some(profile.value.id) else None, "pending", ok);
      registered := created.Some?;
    }
  }

  /** The embedded `trainings (…)` join: the first training with that id, or null when there is none. */
  function TrainingOf(trainings: seq<Training>, id: Id): (r: Option<Training>)
    ensures r.Some? ==> r.value in trainings && r.value.id == id
    ensures r.None? <==> forall t :: t in trainings ==> t.id != id
  {
    if trainings == [] then None
    else if trainings[0].id == id then Some(trainings[0])
    else TrainingOf(trainings[1..], id)
  }

  /** One participation as the page shows it: its key, its joined training, its status and attendance. */
  function ParticipationView(db: Db, p: Participant): TrainingView {
    TrainingView(p.id, TrainingOf(db.trainings, p.trainingId), p.status, p.attended)
  }

  /** The participations whose `volunteer_id` is the profile id, with their training joined in. */
  function TrainingsOf(db: Db, profileId: Id): (r: seq<TrainingView>)
    ensures |r| == |Seqs.Filter(db.participants, (p: Participant) => p.volunteerId == profileId)|
  {
    var mine := Seqs.Filter(db.participants, (p: Participant) => p.volunteerId == profileId);
    seq(|mine|, k requires 0 <= k < |mine| => ParticipationView(db, mine[k]))
  }

  /**
   * The page shows one view per participation keyed by the profile id, and
   * nothing else: every view comes from such a participation, and every such
   * participation is shown.
   */
  lemma TrainingsShown(db: Db, profileId: Id)
    ensures var r := TrainingsOf(db, profileId);
      && (forall t :: t in r ==> exists p :: p in db.participants && p.volunteerId == profileId && t == ParticipationView(db, p))
      && (forall p :: p in db.participants && p.volunteerId == profileId ==> ParticipationView(db, p) in r)
  {
    var mine := Seqs.Filter(db.participants, (p: Participant) => p.volunteerId == profileId);
    var r := TrainingsOf(db, profileId);
    forall t | t in r
      ensures exists p :: p in db.participants && p.volunteerId == profileId && t == ParticipationView(db, p)
    {
      var k :| 0 <= k < |mine| && t == r[k];
      assert mine[k] in mine;
    }
    forall p | p in db.participants && p.volunteerId == profileId
      ensures ParticipationView(db, p) in r
    {
      assert p in mine;
      var k :| 0 <= k < |mine| && mine[k] == p;
      assert r[k] == ParticipationView(db, p);
    }
  }
}
