/**
 * The administrator's dashboard: the pending-registration join and the
 * counters of `fetchData`, and the handlers that approve or reject
 * volunteers, process and assign registrations, and cancel events and
 * trainings.
 */
module AdminDashboard {
  import opened Wrappers
  import opened Schema
  import opened Text
  import Seqs
  import opened Backend
  import VolunteerDashboard

  /** `profilesData.find(p => p.user_id === id)`. */
  function ProfileByUser(profiles: seq<Profile>, userId: Id): (r: Option<Profile>)
    ensures r.Some? ==> r.value in profiles && r.value.userId == userId
    ensures r.None? <==> forall p :: p in profiles ==> p.userId != userId
  {
    if profiles == [] then None
    else if profiles[0].userId == userId then Some(profiles[0])
    else ProfileByUser(profiles[1..], userId)
  }

  /** A pending assignment with its volunteer and its task. */
  datatype PendingRegistration = PendingRegistration(assignment: Assignment, volunteer: Profile, task: Task)

  function Enrich(profiles: seq<Profile>, tasks: seq<Task>, a: Assignment): Option<PendingRegistration> {
    var v := ProfileByUser(profiles, a.volunteerId);
    var t := VolunteerDashboard.TaskById(tasks, a.taskId);
    if v.Some? && t.Some? then Some(PendingRegistration(a, v.value, t.value)) else None
  }

  /**
   * The `pending` assignments, each joined to the first profile whose
   * `user_id` is its volunteer and the first task with its task id, and
   * dropped when either is missing; table order is kept.
   */
  function PendingJoin(profiles: seq<Profile>, tasks: seq<Task>, assignments: seq<Assignment>): (r: seq<PendingRegistration>)
    ensures |r| <= |assignments|
    ensures forall x :: x in r ==>
      && x.assignment in assignments && x.assignment.status == Pending
      && x.volunteer in profiles && x.volunteer.userId == x.assignment.volunteerId
      && x.task in tasks && x.task.id == x.assignment.taskId
  {
    if assignments == [] then []
    else
      var a := assignments[0];
      var rest := PendingJoin(profiles, tasks, assignments[1..]);
      var e := Enrich(profiles, tasks, a);
      if a.status == Pending && e.Some? then [e.value] + rest else rest
  }

  /**
   * The join holds exactly the pending assignments whose volunteer (by
   * `user_id`) and task (by id) both exist.
   */
  lemma {:induction false} PendingJoinExact(profiles: seq<Profile>, tasks: seq<Task>, assignments: seq<Assignment>, a: Assignment)
    ensures (exists x :: x in PendingJoin(profiles, tasks, assignments) && x.assignment == a) <==>
      && a in assignments
      && a.status == Pending
      && (exists p :: p in profiles && p.userId == a.volunteerId)
      && (exists t :: t in tasks && t.id == a.taskId)
  {
    if assignments != [] {
      PendingJoinExact(profiles, tasks, assignments[1..], a);
      var r := PendingJoin(profiles, tasks, assignments);
      var rest := PendingJoin(profiles, tasks, assignments[1..]);
      assert forall x :: x in rest ==> x in r;
      if a == assignments[0] && a.status == Pending {
        var v := ProfileByUser(profiles, a.volunteerId);
        var t := VolunteerDashboard.TaskById(tasks, a.taskId);
        if v.Some? && t.Some? {
          assert PendingRegistration(a, v.value, t.value) in r;
        }
      }
    }
  }

  // ----- counters ---------------------------------------------------------

  predicate IsActive(p: Profile) { p.status == Some("active") }
  predicate IsAwaiting(p: Profile) { p.status == Some("pending") }
  predicate IsUnread(m: Message) { m.isRead != Some(true) }
  predicate ToAdmins(m: Message) { m.recipientId.None? }

  /** `.is("recipient_id", null)`: the messages addressed to the administrators. */
  function AdminMessages(messages: seq<Message>): (r: seq<Message>)
    ensures forall m :: m in r <==> m in messages && m.recipientId.None?
  {
    Seqs.Filter(messages, ToAdmins)
  }
  function Hours(p: Profile): int { p.hoursVolunteered.GetOr(0) }

  datatype AdminStats = AdminStats(
    totalVolunteers: nat,
    activeVolunteers: nat,
    pendingVolunteers: nat,
    totalTasks: nat,
    completedTasks: nat,
    totalHours: int,
    pendingRequests: nat,
    unreadMessages: nat,
    totalTrainings: nat,
    pendingRegistrations: nat)

  /**
   * The counters. Every profile is counted, administrators included; an
   * unread message is one whose `is_read` is false or null; and the
   * pending-registration counter reads the list as it was before this
   * fetch replaced it.
   */
  function ComputeAdminStats(profiles: seq<Profile>, tasks: seq<Task>, trainings: seq<Training>, adminMessages: seq<Message>,
                             pendingRequests: nat, previousPending: nat): (s: AdminStats)
    ensures s.totalVolunteers == |profiles| && s.totalTasks == |tasks| && s.totalTrainings == |trainings|
    ensures s.activeVolunteers == Seqs.Count(profiles, IsActive) && s.pendingVolunteers == Seqs.Count(profiles, IsAwaiting)
    ensures s.activeVolunteers + s.pendingVolunteers <= s.totalVolunteers
    ensures s.completedTasks == Seqs.Count(tasks, (t: Task) => t.status == Completed) <= s.totalTasks
    ensures s.totalHours == Seqs.Sum(profiles, Hours)
    ensures s.unreadMessages == Seqs.Count(adminMessages, IsUnread) <= |adminMessages|
    ensures s.pendingRequests == pendingRequests && s.pendingRegistrations == previousPending
  {
    DisjointCounts(profiles);
    AdminStats(
      |profiles|,
      Seqs.Count(profiles, IsActive),
      Seqs.Count(profiles, IsAwaiting),
      |tasks|,
      Seqs.Count(tasks, (t: Task) => t.status == Completed),
      Seqs.Sum(profiles, Hours),
      pendingRequests,
      Seqs.Count(adminMessages, IsUnread),
      |trainings|,
      previousPending)
  }

  lemma {:induction false} DisjointCounts(profiles: seq<Profile>)
    ensures Seqs.Count(profiles, IsActive) + Seqs.Count(profiles, IsAwaiting) <= |profiles|
  {
    if profiles != [] {
      DisjointCounts(profiles[1..]);
    }
  }

  function Indicator(b: bool): nat { if b then 1 else 0 }

  /**
   * A write to the one profile with a given id moves that profile between
   * counters and leaves every other profile where it was.
   */
  lemma CountAfterPatch(rows: seq<Profile>, k: nat, patch: ProfilePatch, P: Profile -> bool)
    requires k < |rows|
    requires forall j :: 0 <= j < |rows| && j != k ==> rows[j].id != rows[k].id
    ensures Seqs.Count(PatchProfiles(rows, ById(rows[k].id), patch), P) + Indicator(P(rows[k]))
         == Seqs.Count(rows, P) + Indicator(P(ApplyPatch(rows[k], patch)))
  {
    var after := PatchProfiles(rows, ById(rows[k].id), patch);
    var pre, post := rows[..k], rows[k + 1..];
    assert after == pre + [ApplyPatch(rows[k], patch)] + post;
    assert rows == pre + [rows[k]] + post;
    Seqs.FilterAppend(pre + [ApplyPatch(rows[k], patch)], post, P);
    Seqs.FilterAppend(pre, [ApplyPatch(rows[k], patch)], P);
    Seqs.FilterAppend(pre + [rows[k]], post, P);
    Seqs.FilterAppend(pre, [rows[k]], P);
  }

  /** Approving the pending profile with a unique id moves it from the pending counter to the active one. */
  lemma ApprovalMovesToActive(rows: seq<Profile>, k: nat)
    requires k < |rows| && IsAwaiting(rows[k])
    requires forall j :: 0 <= j < |rows| && j != k ==> rows[j].id != rows[k].id
    ensures var after := PatchProfiles(rows, ById(rows[k].id), SetStatus("active"));
      Seqs.Count(after, IsActive) == Seqs.Count(rows, IsActive) + 1
      && Seqs.Count(after, IsAwaiting) + 1 == Seqs.Count(rows, IsAwaiting)
  {
    CountAfterPatch(rows, k, SetStatus("active"), IsActive);
    CountAfterPatch(rows, k, SetStatus("active"), IsAwaiting);
  }

  /** Rejecting the pending profile with a unique id removes it from the pending counter and not into the active one. */
  lemma RejectionLeavesCounters(rows: seq<Profile>, k: nat, reason: string)
    requires k < |rows| && IsAwaiting(rows[k])
    requires forall j :: 0 <= j < |rows| && j != k ==> rows[j].id != rows[k].id
    ensures var after := PatchProfiles(rows, ById(rows[k].id), SetRejected("rejected", reason));
      Seqs.Count(after, IsActive) == Seqs.Count(rows, IsActive)
      && Seqs.Count(after, IsAwaiting) + 1 == Seqs.Count(rows, IsAwaiting)
  {
    CountAfterPatch(rows, k, SetRejected("rejected", reason), IsActive);
    CountAfterPatch(rows, k, SetRejected("rejected", reason), IsAwaiting);
  }

  /**
   * An administrator created through the admin sign-up page gets `approved`,
   * not `active`: neither counter ever includes that profile.
   */
  lemma AdminSignupCountedNowhere(p: Profile, phone: string)
    ensures var q := ApplyPatch(p, SetPhoneAndStatus(phone, "approved"));
      !IsActive(q) && !IsAwaiting(q) && !VolunteerDashboard.DashboardView(false, false, Some(q)).WaitingScreen?
  {
  }

  /**
   * Direct assignment does not look for an existing row: assigning a
   * volunteer to a task they already hold yields two rows for the pair.
   */
  lemma DirectAssignmentDuplicates(before: seq<Assignment>, a: Assignment, b: Assignment)
    requires b in before && b.taskId == a.taskId && b.volunteerId == a.volunteerId
    ensures Seqs.Count(before + [a], (x: Assignment) => x.taskId == a.taskId && x.volunteerId == a.volunteerId) >= 2
  {
    var P := (x: Assignment) => x.taskId == a.taskId && x.volunteerId == a.volunteerId;
    Seqs.FilterAppend(before, [a], P);
    assert b in Seqs.Filter(before, P);
    assert Seqs.Filter([a], P) == [a];
  }

  // ----- the page ---------------------------------------------------------

  /** What the handler reports to the administrator. */
  datatype Feedback = Silent | Refused | Done | DoneWithWarning | Failed

  /** The administrator's verdict on a pending registration. */
  datatype Verdict = Validate | Refuse

  function VerdictStatus(v: Verdict): (s: TaskStatus)
    ensures s == InProgress || s == Cancelled
    ensures v == Validate <==> s == InProgress
  {
    match v
    case Validate => InProgress
    case Refuse => Cancelled
  }

  /** Every field of the administration page, so that a handler can say which ones it leaves alone. */
  datatype PageState = PageState(
    volunteers: seq<Profile>, tasks: seq<Task>, trainings: seq<Training>,
    pendingRegistrations: seq<PendingRegistration>, stats: AdminStats, isSubmitting: bool,
    selectedVolunteer: Option<Profile>, selectedTask: Id, isAssignTaskOpen: bool,
    isRejectDialogOpen: bool, rejectionReason: string, volunteerToReject: Option<Profile>,
    isCancelEventOpen: bool, eventToCancel: Option<Id>, isEventDetailsOpen: bool, currentEvent: Option<Task>)

  class AdminPage {
    const store: Store
    var volunteers: seq<Profile>
    var tasks: seq<Task>
    var trainings: seq<Training>
    var pendingRegistrations: seq<PendingRegistration>
    var stats: AdminStats
    var isSubmitting: bool
    var selectedVolunteer: Option<Profile>
    var selectedTask: Id
    var isAssignTaskOpen: bool
    var isRejectDialogOpen: bool
    var rejectionReason: string
    var volunteerToReject: Option<Profile>
    var isCancelEventOpen: bool
    var eventToCancel: Option<Id>
    var isEventDetailsOpen: bool
    /** The event whose details were last shown; no handler clears it. */
    var currentEvent: Option<Task>

    function State(): PageState
      reads this
    {
      PageState(volunteers, tasks, trainings, pendingRegistrations, stats, isSubmitting,
        selectedVolunteer, selectedTask, isAssignTaskOpen, isRejectDialogOpen, rejectionReason, volunteerToReject,
        isCancelEventOpen, eventToCancel, isEventDetailsOpen, currentEvent)
    }

    constructor (store: Store)
      ensures this.store == store
      ensures volunteers == [] && tasks == [] && trainings == [] && pendingRegistrations == []
      ensures !isSubmitting && selectedVolunteer.None? && selectedTask == "" && !isAssignTaskOpen
      ensures !isRejectDialogOpen && rejectionReason == "" && volunteerToReject.None?
      ensures !isCancelEventOpen && eventToCancel.None? && !isEventDetailsOpen && currentEvent.None?
    {
      this.store := store;
      volunteers, tasks, trainings, pendingRegistrations := [], [], [], [];
      stats := AdminStats(0, 0, 0, 0, 0, 0, 0, 0, 0, 0);
      isSubmitting, selectedVolunteer, selectedTask, isAssignTaskOpen := false, None, "", false;
      isRejectDialogOpen, rejectionReason, volunteerToReject := false, "", None;
      isCancelEventOpen, eventToCancel, isEventDetailsOpen := false, None, false;
      currentEvent := None;
    }

    /**
     * `fetchData`: a failed profile, task or training read aborts the rest;
     * a failed registration read keeps the previous list. Messages to the
     * administrators are those with no recipient. The attestation-request
     * table is outside the model, so its pending count is a parameter.
     */
    method FetchData(profilesOk: bool, tasksOk: bool, registrationsOk: bool, trainingsOk: bool, pendingRequests: nat)
      modifies this
      ensures !profilesOk ==> volunteers == old(volunteers)
      ensures profilesOk ==> volunteers == store.db.profiles
      ensures profilesOk && tasksOk ==> tasks == store.db.tasks
      ensures pendingRegistrations ==
        if profilesOk && tasksOk && registrationsOk
        then PendingJoin(store.db.profiles, store.db.tasks, store.db.assignments)
        else old(pendingRegistrations)
      ensures profilesOk && tasksOk && trainingsOk ==>
        && trainings == store.db.trainings
        && stats == ComputeAdminStats(store.db.profiles, store.db.tasks, store.db.trainings,
             AdminMessages(store.db.messages), pendingRequests, |old(pendingRegistrations)|)
      ensures !(profilesOk && tasksOk && trainingsOk) ==> stats == old(stats) && trainings == old(trainings)
      ensures !(profilesOk && tasksOk) ==> tasks == old(tasks)
      ensures State() == old(State()).(volunteers := volunteers, tasks := tasks, trainings := trainings,
                                       pendingRegistrations := pendingRegistrations, stats := stats)
    {
      if profilesOk {
        volunteers := store.db.profiles;
        if tasksOk {
          LoadFromTasks(registrationsOk, trainingsOk, pendingRequests);
        }
      }
    }

    /** The part of `fetchData` after the profiles and tasks were read. */
    method LoadFromTasks(registrationsOk: bool, trainingsOk: bool, pendingRequests: nat)
      modifies this
      requires volunteers == store.db.profiles
      ensures tasks == store.db.tasks
      ensures pendingRegistrations ==
        if registrationsOk then PendingJoin(store.db.profiles, store.db.tasks, store.db.assignments) else old(pendingRegistrations)
      ensures trainingsOk ==>
        && trainings == store.db.trainings
        && stats == ComputeAdminStats(store.db.profiles, store.db.tasks, store.db.trainings,
             AdminMessages(store.db.messages), pendingRequests, |old(pendingRegistrations)|)
      ensures !trainingsOk ==> stats == old(stats) && trainings == old(trainings)
      ensures volunteers == old(volunteers) && isSubmitting == old(isSubmitting)
      ensures selectedVolunteer == old(selectedVolunteer) && selectedTask == old(selectedTask) && isAssignTaskOpen == old(isAssignTaskOpen)
      ensures isRejectDialogOpen == old(isRejectDialogOpen) && volunteerToReject == old(volunteerToReject) && rejectionReason == old(rejectionReason)
      ensures eventToCancel == old(eventToCancel) && isCancelEventOpen == old(isCancelEventOpen)
      ensures isEventDetailsOpen == old(isEventDetailsOpen) && currentEvent == old(currentEvent)
    {
      var previousPending := |pendingRegistrations|;
      tasks := store.db.tasks;
      if registrationsOk {
        pendingRegistrations := PendingJoin(store.db.profiles, store.db.tasks, store.db.assignments);
      }
      if trainingsOk {
        LoadTrainings(pendingRequests, previousPending);
      }
    }

    /** The last step of `fetchData`: the trainings, then the stats over everything read. */
    method LoadTrainings(pendingRequests: nat, previousPending: nat)
      modifies this
      requires volunteers == store.db.profiles && tasks == store.db.tasks
      ensures trainings == store.db.trainings
      ensures stats == ComputeAdminStats(store.db.profiles, store.db.tasks, store.db.trainings,
        AdminMessages(store.db.messages), pendingRequests, previousPending)
      ensures volunteers == old(volunteers) && tasks == old(tasks) && pendingRegistrations == old(pendingRegistrations)
      ensures isSubmitting == old(isSubmitting) && selectedVolunteer == old(selectedVolunteer) && selectedTask == old(selectedTask)
      ensures isAssignTaskOpen == old(isAssignTaskOpen) && isRejectDialogOpen == old(isRejectDialogOpen)
      ensures volunteerToReject == old(volunteerToReject) && rejectionReason == old(rejectionReason)
      ensures eventToCancel == old(eventToCancel) && isCancelEventOpen == old(isCancelEventOpen)
      ensures isEventDetailsOpen == old(isEventDetailsOpen) && currentEvent == old(currentEvent)
    {
      trainings := store.db.trainings;
      stats := ComputeAdminStats(volunteers, tasks, trainings, AdminMessages(store.db.messages), pendingRequests, previousPending);
    }

    /** `handleApproveVolunteer`: one write, `status = 'active'` on the row with that id; no notification. */
    method ApproveVolunteer(profileId: Id, ok: bool) returns (feedback: Feedback)
      modifies store
      ensures store.calls == old(store.calls) + [Call.UpdateProfiles(ById(profileId), SetStatus("active"), ok)]
      ensures ok ==> |store.db.profiles| == |old(store.db.profiles)| && forall i :: 0 <= i < |store.db.profiles| ==>
        store.db.profiles[i] == if old(store.db.profiles)[i].id == profileId
          then old(store.db.profiles)[i].(status := Some("active")) else old(store.db.profiles)[i]
      ensures store.db == old(store.db).(profiles := store.db.profiles)
      ensures !ok ==> store.db == old(store.db)
      ensures feedback == if ok then Done else Failed
    {
      store.UpdateProfiles(ById(profileId), SetStatus("active"), ok);
      feedback := if ok then Done else Failed;
    }

    /**
     * `handleRejectVolunteer`: a reason that is blank after trimming is
     * refused with no write; otherwise the profile gets `rejected` and the
     * trimmed reason, and the dialog is reset only on success.
     */
    method RejectVolunteer(ok: bool) returns (feedback: Feedback)
      modifies this, store
      ensures State() == old(State()).(isSubmitting := isSubmitting, isRejectDialogOpen := isRejectDialogOpen,
                                       volunteerToReject := volunteerToReject, rejectionReason := rejectionReason)
      ensures old(volunteerToReject).None? || Trim(old(rejectionReason)) == [] ==> isSubmitting == old(isSubmitting)
      ensures old(volunteerToReject).Some? && Trim(old(rejectionReason)) != [] ==> !isSubmitting
      ensures old(volunteerToReject).None? ==> feedback == Silent
      ensures old(volunteerToReject).None? || Trim(old(rejectionReason)) == [] ==>
        && store.calls == old(store.calls) && store.db == old(store.db)
        && isRejectDialogOpen == old(isRejectDialogOpen) && volunteerToReject == old(volunteerToReject) && rejectionReason == old(rejectionReason)
      ensures old(volunteerToReject).Some? && Trim(old(rejectionReason)) == [] ==> feedback == Refused
      ensures old(volunteerToReject).Some? && Trim(old(rejectionReason)) != [] ==>
        var patch := SetRejected("rejected", Trim(old(rejectionReason)));
        && store.calls == old(store.calls) + [Call.UpdateProfiles(ById(old(volunteerToReject).value.id), patch, ok)]
        && store.db == (if ok then old(store.db).(profiles := PatchProfiles(old(store.db.profiles), ById(old(volunteerToReject).value.id), patch)) else old(store.db))
        && feedback == (if ok then Done else Failed)
        && (ok ==> !isRejectDialogOpen && volunteerToReject.None? && rejectionReason == "")
        && (!ok ==> isRejectDialogOpen == old(isRejectDialogOpen) && volunteerToReject == old(volunteerToReject) && rejectionReason == old(rejectionReason))
    {
      if volunteerToReject.None? {
        return Silent;
      }
      var reason := Trim(rejectionReason);
      if reason == [] {
        return Refused;
      }
      feedback := SaveRejection(volunteerToReject.value.id, reason, ok);
    }

    /** The `try` of `handleRejectVolunteer`: the write of the trimmed reason, and the dialog reset on success. */
    method SaveRejection(profileId: Id, reason: string, ok: bool) returns (feedback: Feedback)
      modifies this, store
      ensures State() == old(State()).(isSubmitting := isSubmitting, isRejectDialogOpen := isRejectDialogOpen,
                                       volunteerToReject := volunteerToReject, rejectionReason := rejectionReason)
      ensures !isSubmitting
      ensures store.calls == old(store.calls) + [Call.UpdateProfiles(ById(profileId), SetRejected("rejected", reason), ok)]
      ensures store.db == if ok then old(store.db).(profiles := PatchProfiles(old(store.db.profiles), ById(profileId), SetRejected("rejected", reason))) else old(store.db)
      ensures feedback == if ok then Done else Failed
      ensures ok ==> !isRejectDialogOpen && volunteerToReject.None? && rejectionReason == ""
      ensures !ok ==> isRejectDialogOpen == old(isRejectDialogOpen) && volunteerToReject == old(volunteerToReject) && rejectionReason == old(rejectionReason)
    {
      isSubmitting := true;
      store.UpdateProfiles(ById(profileId), SetRejected("rejected", reason), ok);
      if ok {
        isRejectDialogOpen := false;
        volunteerToReject := None;
        rejectionReason := "";
        feedback := Done;
      } else {
        feedback := Failed;
      }
      isSubmitting := false;
    }

    /**
     * `fetchEventDetails`: the event becomes the current one and its details
     * dialog opens. The registrations it then reads for the dialog are not
     * part of this model.
     */
    method ShowEventDetails(task: Task)
      modifies this
      ensures State() == old(State()).(currentEvent := Some(task), isEventDetailsOpen := true)
    {
      currentEvent := Some(task);
      isEventDetailsOpen := true;
    }

    /** Closing the details dialog clears only its flag: the current event stays. */
    method CloseEventDetails()
      modifies this
      ensures State() == old(State()).(isEventDetailsOpen := false)
    {
      isEventDetailsOpen := false;
    }

    /**
     * `handleProcessRegistration`: writes `in_progress` or `cancelled` to
     * that one assignment; only after the write succeeds is exactly that id
     * taken out of the pending list, and then the details of the current
     * event, if any event was ever shown, are fetched again, which opens
     * their dialog even when it had been closed.
     */
    method ProcessRegistration(registrationId: Id, verdict: Verdict, ok: bool) returns (feedback: Feedback)
      modifies this, store
      ensures store.calls == old(store.calls) + [Call.UpdateAssignmentStatus(registrationId, VerdictStatus(verdict), ok)]
      ensures store.db == if ok then old(store.db).(assignments := SetAssignmentStatus(old(store.db.assignments), registrationId, VerdictStatus(verdict))) else old(store.db)
      ensures ok ==> pendingRegistrations == Seqs.Filter(old(pendingRegistrations), (r: PendingRegistration) => r.assignment.id != registrationId)
      ensures !ok ==> pendingRegistrations == old(pendingRegistrations)
      ensures feedback == if ok then Done else Failed
      ensures isEventDetailsOpen == ((ok && old(currentEvent).Some?) || old(isEventDetailsOpen))
      ensures State() == old(State()).(pendingRegistrations := pendingRegistrations, isEventDetailsOpen := isEventDetailsOpen)
    {
      store.UpdateAssignmentStatus(registrationId, VerdictStatus(verdict), ok);
      if ok {
        pendingRegistrations := Seqs.Filter(pendingRegistrations, (r: PendingRegistration) => r.assignment.id != registrationId);
        if currentEvent.Some? {
          ShowEventDetails(currentEvent.value);
        }
        feedback := Done;
      } else {
        feedback := Failed;
      }
    }

    /**
     * `handleAssignTask`: needs a selected volunteer and a selected task,
     * then inserts an assignment keyed by the volunteer's `user_id`, leaving
     * the status to the column default and without looking for an existing
     * row.
     */
    method AssignTask(ok: bool) returns (feedback: Feedback)
      modifies this, store
      ensures State() == old(State()).(isSubmitting := isSubmitting, isAssignTaskOpen := isAssignTaskOpen,
                                       selectedVolunteer := selectedVolunteer, selectedTask := selectedTask)
      ensures old(selectedVolunteer).None? || old(selectedTask) == "" ==>
        && feedback == Refused && isSubmitting == old(isSubmitting) && store.calls == old(store.calls) && store.db == old(store.db)
        && selectedVolunteer == old(selectedVolunteer) && selectedTask == old(selectedTask) && isAssignTaskOpen == old(isAssignTaskOpen)
      ensures old(selectedVolunteer).Some? && old(selectedTask) != "" ==>
        var row := AssignmentInsert(old(selectedTask), old(selectedVolunteer).value.userId, None);
        && store.calls == old(store.calls) + [Call.InsertAssignment(row, ok)]
        && feedback == (if ok then Done else Failed) && !isSubmitting
        && (ok ==> && |store.db.assignments| == |old(store.db.assignments)| + 1
                   && store.db.assignments[..|old(store.db.assignments)|] == old(store.db.assignments)
                   && store.db.assignments[|old(store.db.assignments)|].taskId == old(selectedTask)
                   && store.db.assignments[|old(store.db.assignments)|].volunteerId == old(selectedVolunteer).value.userId
                   && store.db.assignments[|old(store.db.assignments)|].status == store.assignmentStatusDefault
                   && !isAssignTaskOpen && selectedVolunteer.None? && selectedTask == "")
        && (!ok ==> store.db == old(store.db) && selectedVolunteer == old(selectedVolunteer) && selectedTask == old(selectedTask)
                    && isAssignTaskOpen == old(isAssignTaskOpen))
      ensures store.db == old(store.db).(assignments := store.db.assignments)
    {
      if selectedVolunteer.None? || selectedTask == "" {
        return Refused;
      }
      isSubmitting := true;
      var created := store.InsertAssignment(AssignmentInsert(selectedTask, selectedVolunteer.value.userId, None), ok);
      if created.Some? {
        isAssignTaskOpen := false;
        selectedVolunteer := None;
        selectedTask := "";
        feedback := Done;
      } else {
        feedback := Failed;
      }
      isSubmitting := false;
    }

    /**
     * `confirmCancelEvent`: the task is set to `cancelled` first; a failed
     * write stops before any notification, while a failed notification
     * still completes the cancellation with a warning. The chosen event is
     * not cleared.
     */
    method ConfirmCancelEvent(updateOk: bool, notifyOk: bool) returns (feedback: Feedback)
      modifies this, store
      ensures State() == old(State()).(isCancelEventOpen := isCancelEventOpen, isEventDetailsOpen := isEventDetailsOpen)
      ensures old(eventToCancel).None? || old(eventToCancel) == Some("") ==>
        feedback == Silent && store.calls == old(store.calls) && store.db == old(store.db)
        && isCancelEventOpen == old(isCancelEventOpen) && isEventDetailsOpen == old(isEventDetailsOpen)
      ensures old(eventToCancel).Some? && old(eventToCancel) != Some("") ==>
        var id := old(eventToCancel).value;
        && store.db == (if updateOk then old(store.db).(tasks := SetTaskStatus(old(store.db.tasks), id, Cancelled)) else old(store.db))
        && (!updateOk ==> && store.calls == old(store.calls) + [Call.UpdateTaskStatus(id, Cancelled, false)]
                          && feedback == Failed
                          && isCancelEventOpen == old(isCancelEventOpen) && isEventDetailsOpen == old(isEventDetailsOpen))
        && (updateOk ==> && store.calls == old(store.calls) + [Call.UpdateTaskStatus(id, Cancelled, true),
                              Call.Invoke(NotifyCancellationFn, CancellationRequest(id, "event"), notifyOk)]
                         && feedback == (if notifyOk then Done else DoneWithWarning)
                         && !isCancelEventOpen && !isEventDetailsOpen)
    {
      if eventToCancel.None? || eventToCancel.value == "" {
        return Silent;
      }
      var id := eventToCancel.value;
      store.UpdateTaskStatus(id, Cancelled, updateOk);
      if !updateOk {
        return Failed;
      }
      store.Invoke(NotifyCancellationFn, CancellationRequest(id, "event"), notifyOk);
      feedback := if notifyOk then Done else DoneWithWarning;
      isEventDetailsOpen := false;
      isCancelEventOpen := false;
    }

    /**
     * `handleCancelTraining`: after the administrator confirms, the
     * notification is invoked strictly before the hard delete, and its
     * failure does not prevent the delete.
     */
    method CancelTraining(trainingId: Id, confirmed: bool, notifyOk: bool, deleteOk: bool) returns (feedback: Feedback)
      modifies store
      ensures !confirmed ==> feedback == Silent && store.calls == old(store.calls) && store.db == old(store.db)
      ensures confirmed ==>
        && store.calls == old(store.calls) + [Call.Invoke(NotifyCancellationFn, CancellationRequest(trainingId, "training"), notifyOk),
                                              Call.DeleteTraining(trainingId, deleteOk)]
        && store.db == (if deleteOk then old(store.db).(trainings := Seqs.Filter(old(store.db.trainings), (t: Training) => t.id != trainingId)) else old(store.db))
        && feedback == (if deleteOk then Done else Failed)
    {
      if !confirmed {
        return Silent;
      }
      store.Invoke(NotifyCancellationFn, CancellationRequest(trainingId, "training"), notifyOk);
      store.DeleteTraining(trainingId, deleteOk);
      feedback := if deleteOk then Done else Failed;
    }
  }
}
