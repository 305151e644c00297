/**
 * The relational schema the application is typed against: the two enums,
 * the rows of the tables the workflows touch, and the foreign keys between them.
 */
module Schema {
  import opened Wrappers

  type Id = string

  /** The `task_status` enum, used by `tasks.status` and `task_assignments.status`. */
  datatype TaskStatus = Pending | InProgress | Completed | Cancelled

  /** The `app_role` enum of `user_roles.role`. */
  datatype AppRole = Volunteer | Admin

  function TaskStatusText(s: TaskStatus): string {
    match s
    case Pending => "pending"
    case InProgress => "in_progress"
    case Completed => "completed"
    case Cancelled => "cancelled"
  }

  /** Reading a status column back: only the four enum labels are values of `task_status`. */
  function ParseTaskStatus(t: string): (r: Option<TaskStatus>)
    ensures r.Some? ==> TaskStatusText(r.value) == t
  {
    if t == "pending" then Some(Pending)
    else if t == "in_progress" then Some(InProgress)
    else if t == "completed" then Some(Completed)
    else if t == "cancelled" then Some(Cancelled)
    else None
  }

  function AppRoleText(r: AppRole): string {
    match r
    case Volunteer => "volunteer"
    case Admin => "admin"
  }

  function ParseAppRole(t: string): (r: Option<AppRole>)
    ensures r.Some? ==> AppRoleText(r.value) == t
  {
    if t == "volunteer" then Some(Volunteer)
    else if t == "admin" then Some(Admin)
    else None
  }

  /** The runtime table `Constants.public.Enums`. */
  const TaskStatusConstants: seq<string> := ["pending", "in_progress", "completed", "cancelled"]
  const AppRoleConstants: seq<string> := ["volunteer", "admin"]

  /** The runtime constant lists exactly the labels of `task_status`, and every label parses back to its status. */
  lemma TaskStatusConstantsMatchEnum()
    ensures forall s: TaskStatus :: TaskStatusText(s) in TaskStatusConstants
    ensures forall t :: t in TaskStatusConstants <==> ParseTaskStatus(t).Some?
    ensures forall s: TaskStatus :: ParseTaskStatus(TaskStatusText(s)) == Some(s)
    ensures |TaskStatusConstants| == 4
  {
    forall t | ParseTaskStatus(t).Some? ensures t in TaskStatusConstants {
      assert TaskStatusText(ParseTaskStatus(t).value) == t;
    }
  }

  /** The runtime constant lists exactly the labels of `app_role`. */
  lemma AppRoleConstantsMatchEnum()
    ensures forall r: AppRole :: AppRoleText(r) in AppRoleConstants
    ensures forall t :: t in AppRoleConstants <==> ParseAppRole(t).Some?
    ensures forall r: AppRole :: ParseAppRole(AppRoleText(r)) == Some(r)
  {
    forall t | ParseAppRole(t).Some? ensures t in AppRoleConstants {
      assert AppRoleText(ParseAppRole(t).value) == t;
    }
  }

  /** The columns of `profiles` the onboarding form writes. */
  datatype ProfileDetails = ProfileDetails(
    gender: Option<string>,
    dateOfBirth: Option<string>,
    isStudent: Option<bool>,
    educationLevel: Option<string>,
    organization: Option<string>,
    position: Option<string>,
    profession: Option<string>,
    isAffiliated: Option<bool>,
    affiliationDetails: Option<string>,
    governorate: Option<string>,
    city: Option<string>,
    addressLine1: Option<string>,
    addressLine2: Option<string>,
    postalCode: Option<string>,
    phone: Option<string>,
    phoneSecondary: Option<string>,
    preferredContact: Option<string>,
    skills: Option<seq<string>>,
    otherSkills: Option<string>,
    interests: Option<seq<string>>,
    availabilityDays: Option<seq<string>>,
    availabilityHours: Option<string>,
    iwatchExperience: Option<bool>,
    iwatchEvents: Option<string>,
    iwatchYears: Option<string>,
    iwatchRole: Option<string>,
    otherVolunteering: Option<bool>,
    otherOrgDetails: Option<string>,
    isCommunityMember: Option<bool>,
    referralSource: Option<string>,
    onboardingQuestions: Option<string>)

  /**
   * A row of `profiles`. `status` and `rejectionReason` are free nullable
   * strings: the schema ties neither to the other nor to a closed set.
   */
  datatype Profile = Profile(
    id: Id,
    userId: Id,
    fullName: string,
    email: string,
    details: ProfileDetails,
    status: Option<string>,
    rejectionReason: Option<string>,
    hoursVolunteered: Option<int>,
    avatarUrl: Option<string>)

  /** A row of `tasks` (an event). */
  datatype Task = Task(
    id: Id,
    title: string,
    date: string,
    time: Option<string>,
    location: Option<string>,
    status: TaskStatus,
    maxVolunteers: Option<int>)

  /** A row of `task_assignments`: `volunteerId` holds the volunteer's auth user id. */
  datatype Assignment = Assignment(
    id: Id,
    taskId: Id,
    volunteerId: Id,
    status: TaskStatus,
    hoursLogged: Option<int>)

  /** A row of `trainings`: unlike `tasks.status`, its status is a free nullable string. */
  datatype Training = Training(
    id: Id,
    title: string,
    date: string,
    location: Option<string>,
    status: Option<string>)

  /** A row of `training_participants`: `volunteerId` holds the volunteer's profile id. */
  datatype Participant = Participant(
    id: Id,
    trainingId: Id,
    volunteerId: Id,
    status: Option<string>,
    attended: Option<bool>)

  datatype LanguageRow = LanguageRow(id: Id, volunteerId: Id, language: string, level: string)

  datatype UserRoleRow = UserRoleRow(id: Id, userId: Id, role: AppRole)

  datatype Message = Message(id: Id, senderId: Id, recipientId: Option<Id>, isRead: Option<bool>)

  /** The columns a `task_assignments` insert supplies; `status` may be left to the column default. */
  datatype AssignmentInsert = AssignmentInsert(taskId: Id, volunteerId: Id, status: Option<TaskStatus>)

  /** Materialises an assignment insert with the generated id and the column default for an omitted status. */
  function NewAssignment(id: Id, ins: AssignmentInsert, statusDefault: TaskStatus): (a: Assignment)
    ensures a.id == id && a.taskId == ins.taskId && a.volunteerId == ins.volunteerId
    ensures ins.status.Some? ==> a.status == ins.status.value
    ensures ins.status.None? ==> a.status == statusDefault
    ensures a.hoursLogged.None?
  {
    Assignment(id, ins.taskId, ins.volunteerId, ins.status.GetOr(statusDefault), None)
  }

  datatype TableName =
    | AttestationRequests | Certificates | Messages | Profiles | Tasks
    | TaskAssignments | Trainings | TrainingParticipants | UserRoles | VolunteerLanguages

  /** The key columns that take part in a declared relationship. */
  datatype Column = IdColumn | TaskIdColumn | TrainingIdColumn | VolunteerIdColumn | ParentIdColumn

  /** A declared foreign key: `table.column` references `refTable.refColumn`. */
  datatype ForeignKey = ForeignKey(table: TableName, column: Column, refTable: TableName, refColumn: Column)

  const ForeignKeys: seq<ForeignKey> := [
    ForeignKey(AttestationRequests, TrainingIdColumn, Trainings, IdColumn),
    ForeignKey(AttestationRequests, VolunteerIdColumn, Profiles, IdColumn),
    ForeignKey(Certificates, TrainingIdColumn, Trainings, IdColumn),
    ForeignKey(Certificates, VolunteerIdColumn, Profiles, IdColumn),
    ForeignKey(Messages, ParentIdColumn, Messages, IdColumn),
    ForeignKey(TaskAssignments, TaskIdColumn, Tasks, IdColumn),
    ForeignKey(TrainingParticipants, TrainingIdColumn, Trainings, IdColumn),
    ForeignKey(TrainingParticipants, VolunteerIdColumn, Profiles, IdColumn),
    ForeignKey(VolunteerLanguages, VolunteerIdColumn, Profiles, IdColumn)
  ]

  /** What a column references, if the schema declares it a foreign key. */
  function References(table: TableName, column: Column): Option<(TableName, Column)>
  {
    ReferencesIn(ForeignKeys, table, column)
  }

  /** The first declaration for `table.column` in `fks`; `None` exactly when there is none. */
  function ReferencesIn(fks: seq<ForeignKey>, table: TableName, column: Column): (r: Option<(TableName, Column)>)
    ensures r.None? <==> forall k :: 0 <= k < |fks| ==> !(fks[k].table == table && fks[k].column == column)
    ensures r.Some? ==> ForeignKey(table, column, r.value.0, r.value.1) in fks
  {
    if fks == [] then None
    else if fks[0].table == table && fks[0].column == column then Some((fks[0].refTable, fks[0].refColumn))
    else
      var r := ReferencesIn(fks[1..], table, column);
      assert forall k :: 0 < k < |fks| ==> fks[k] == fks[1..][k - 1];
      r
  }

  /** An assignment's `volunteer_id` has no declared reference at all. */
  lemma AssignmentVolunteerIdUnreferenced()
    ensures References(TaskAssignments, VolunteerIdColumn) == None
  {
    var fks := ForeignKeys;
    assert forall k :: 0 <= k < |fks| ==> !(fks[k].table == TaskAssignments && fks[k].column == VolunteerIdColumn);
  }

  /** An assignment's `task_id` references `tasks.id`. */
  lemma AssignmentTaskIdReferencesTasks()
    ensures References(TaskAssignments, TaskIdColumn) == Some((Tasks, IdColumn))
  {
  }

  /** A participant's `volunteer_id` references `profiles.id`, unlike an assignment's. */
  lemma ParticipantVolunteerIdReferencesProfiles()
    ensures References(TrainingParticipants, VolunteerIdColumn) == Some((Profiles, IdColumn))
  {
  }
}
