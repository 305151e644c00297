/**
 * The hosted backend as the client sees it: the tables as a value, and a
 * `Store` object that records every call the client issues, in order, with
 * whether it succeeded. A failed call changes no table.
 */
module Backend {
  import opened Wrappers
  import opened Schema
  import Seqs

  /** An object in the `avatars` storage bucket. */
  datatype StoredFile = StoredFile(name: string, mimeType: string, size: int)

  /** The tables the workflows read and write, each in its row order. */
  datatype Db = Db(
    profiles: seq<Profile>,
    userRoles: seq<UserRoleRow>,
    tasks: seq<Task>,
    assignments: seq<Assignment>,
    trainings: seq<Training>,
    participants: seq<Participant>,
    languages: seq<LanguageRow>,
    messages: seq<Message>,
    avatars: map<string, StoredFile>)

  /** The column a `profiles` update filters on: `.eq("id", …)` or `.eq("user_id", …)`. */
  datatype ProfileKey = ById(id: Id) | ByUserId(userId: Id)

  predicate KeyMatches(p: Profile, key: ProfileKey) {
    match key
    case ById(id) => p.id == id
    case ByUserId(uid) => p.userId == uid
  }

  /** The column sets the application writes to `profiles`. */
  datatype ProfilePatch =
    | SetStatus(status: string)
    | SetRejected(status: string, reason: string)
    | SetOnboarding(fullName: string, details: ProfileDetails, status: string)
    | SetPhoneAndStatus(phone: string, status: string)
    | SetAvatar(url: string)

  function ApplyPatch(p: Profile, patch: ProfilePatch): Profile {
    match patch
    case SetStatus(s) => p.(status := Some(s))
    case SetRejected(s, reason) => p.(status := Some(s), rejectionReason := Some(reason))
    case SetOnboarding(name, d, s) => p.(fullName := name, details := d, status := Some(s))
    case SetPhoneAndStatus(phone, s) => p.(details := p.details.(phone := Some(phone)), status := Some(s))
    case SetAvatar(url) => p.(avatarUrl := Some(url))
  }

  /** `update(patch).eq(key)`: every matching row is patched, every other row is kept as it was. */
  function PatchProfiles(rows: seq<Profile>, key: ProfileKey, patch: ProfilePatch): (r: seq<Profile>)
    ensures |r| == |rows|
    ensures forall i :: 0 <= i < |rows| ==> r[i] == if KeyMatches(rows[i], key) then ApplyPatch(rows[i], patch) else rows[i]
  {
    seq(|rows|, i requires 0 <= i < |rows| => if KeyMatches(rows[i], key) then ApplyPatch(rows[i], patch) else rows[i])
  }

  function SetAssignmentStatus(rows: seq<Assignment>, id: Id, status: TaskStatus): (r: seq<Assignment>)
    ensures |r| == |rows|
    ensures forall i :: 0 <= i < |rows| ==> r[i] == if rows[i].id == id then rows[i].(status := status) else rows[i]
  {
    seq(|rows|, i requires 0 <= i < |rows| => if rows[i].id == id then rows[i].(status := status) else rows[i])
  }

  function SetTaskStatus(rows: seq<Task>, id: Id, status: TaskStatus): (r: seq<Task>)
    ensures |r| == |rows|
    ensures forall i :: 0 <= i < |rows| ==> r[i] == if rows[i].id == id then rows[i].(status := status) else rows[i]
  {
    seq(|rows|, i requires 0 <= i < |rows| => if rows[i].id == id then rows[i].(status := status) else rows[i])
  }

  /** The name of an edge function the client invokes. */
  datatype EdgeFunction = NotifyCancellationFn | NotifyAdminNewVolunteerFn

  /** The JSON body of an invocation. `kind` is the free `type` string of the cancellation request. */
  datatype Payload =
    | CancellationRequest(entityId: Id, kind: string)
    | NewVolunteerNotice(volunteerName: string, volunteerEmail: string, volunteerPhone: Option<string>)

  /** A language row to insert (the id is generated by the table). */
  datatype LanguageInsert = LanguageInsert(volunteerId: Id, language: string, level: string)

  /** One request the client sends to the backend, with whether it succeeded. */
  datatype Call =
    | UpdateProfiles(key: ProfileKey, patch: ProfilePatch, ok: bool)
    | UpdateAssignmentStatus(assignmentId: Id, status: TaskStatus, ok: bool)
    | UpdateTaskStatus(taskId: Id, status: TaskStatus, ok: bool)
    | InsertAssignment(row: AssignmentInsert, ok: bool)
    | DeleteAssignment(assignmentId: Id, ok: bool)
    | InsertParticipant(trainingId: Id, participantVolunteerId: Option<Id>, participantStatus: string, ok: bool)
    | DeleteTraining(trainingId: Id, ok: bool)
    | DeleteLanguages(volunteerId: Id, ok: bool)
    | InsertLanguages(rows: seq<LanguageInsert>, ok: bool)
    | Invoke(fn: EdgeFunction, payload: Payload, ok: bool)
    | UploadAvatar(path: string, file: StoredFile, upsert: bool, ok: bool)
    | AuthSignUp(email: string, password: string, metadata: seq<(string, string)>, redirectPath: string, ok: bool)
    | AuthSignIn(email: string, password: string, ok: bool)
    | AuthSignOut

  /** `.single()` and `.maybeSingle()`: the row only when exactly one row passes the filter. */
  function Single<T(!new)>(rows: seq<T>, matches: T -> bool): (r: Option<T>)
    ensures r.Some? ==> r.value in rows && matches(r.value)
    ensures r.Some? <==> |Seqs.Filter(rows, matches)| == 1
  {
    var hits := Seqs.Filter(rows, matches);
    if |hits| == 1 then assert hits[0] in hits; Some(hits[0]) else None
  }

  /** `.maybeSingle()` on `profiles` by `user_id`: the profile only when exactly one row has the user id. */
  function UniqueProfileOf(rows: seq<Profile>, userId: Id): (r: Option<Profile>)
    ensures r.Some? ==> r.value in rows && r.value.userId == userId
    ensures r.Some? <==> |Seqs.Filter(rows, (p: Profile) => p.userId == userId)| == 1
  {
    Single(rows, (p: Profile) => p.userId == userId)
  }

  /** `.maybeSingle()` on `user_roles` by `user_id`: the role only when exactly one row has the user id. */
  function UniqueRoleOf(rows: seq<UserRoleRow>, userId: Id): (r: Option<AppRole>)
    ensures r.Some? ==> exists k :: 0 <= k < |rows| && rows[k].userId == userId && rows[k].role == r.value
    ensures r.Some? <==> |Seqs.Filter(rows, (u: UserRoleRow) => u.userId == userId)| == 1
  {
    match Single(rows, (u: UserRoleRow) => u.userId == userId)
    case Some(u) => assert u in rows; Some(u.role)
    case None => None
  }

  /** An id longer than every id in use, so distinct from all of them (the table's generated key). */
  method FreshId(ids: seq<Id>) returns (id: Id)
    ensures id !in ids
  {
    var longest: nat := 0;
    var i := 0;
    while i < |ids|
      invariant 0 <= i <= |ids|
      invariant forall k :: 0 <= k < i ==> |ids[k]| <= longest
    {
      if |ids[i]| > longest {
        longest := |ids[i]|;
      }
      i := i + 1;
    }
    id := seq(longest + 1, _ => 'x');
  }

  /** The key column of a table, row by row. */
  function Ids<T>(rows: seq<T>, key: T -> Id): (r: seq<Id>)
    ensures |r| == |rows| && forall k :: 0 <= k < |rows| ==> r[k] == key(rows[k])
  {
    seq(|rows|, k requires 0 <= k < |rows| => key(rows[k]))
  }

  /** `after` is `before` followed by one row per insert, in order, each carrying that insert's columns. */
  predicate Appended(before: seq<LanguageRow>, after: seq<LanguageRow>, rows: seq<LanguageInsert>) {
    && |after| == |before| + |rows| && after[..|before|] == before
    && forall k :: 0 <= k < |rows| ==>
         var l := after[|before| + k];
         l.volunteerId == rows[k].volunteerId && l.language == rows[k].language && l.level == rows[k].level
  }

  /**
   * The backend. `db` is the state of the tables, `calls` the ordered log of
   * requests. `assignmentStatusDefault` stands for the column default of
   * `task_assignments.status`, which the typed schema does not state.
   */
  class Store {
    var db: Db
    var calls: seq<Call>
    const assignmentStatusDefault: TaskStatus

    constructor (initial: Db, statusDefault: TaskStatus)
      ensures db == initial && calls == [] && assignmentStatusDefault == statusDefault
    {
      db := initial;
      calls := [];
      assignmentStatusDefault := statusDefault;
    }

    method UpdateProfiles(key: ProfileKey, patch: ProfilePatch, ok: bool)
      modifies this
      ensures calls == old(calls) + [Call.UpdateProfiles(key, patch, ok)]
      ensures db == if ok then old(db).(profiles := PatchProfiles(old(db).profiles, key, patch)) else old(db)
    {
      calls := calls + [Call.UpdateProfiles(key, patch, ok)];
      if ok {
        db := db.(profiles := PatchProfiles(db.profiles, key, patch));
      }
    }

    method UpdateAssignmentStatus(id: Id, status: TaskStatus, ok: bool)
      modifies this
      ensures calls == old(calls) + [Call.UpdateAssignmentStatus(id, status, ok)]
      ensures db == if ok then old(db).(assignments := SetAssignmentStatus(old(db).assignments, id, status)) else old(db)
    {
      calls := calls + [Call.UpdateAssignmentStatus(id, status, ok)];
      if ok {
        db := db.(assignments := SetAssignmentStatus(db.assignments, id, status));
      }
    }

    method UpdateTaskStatus(id: Id, status: TaskStatus, ok: bool)
      modifies this
      ensures calls == old(calls) + [Call.UpdateTaskStatus(id, status, ok)]
      ensures db == if ok then old(db).(tasks := SetTaskStatus(old(db).tasks, id, status)) else old(db)
    {
      calls := calls + [Call.UpdateTaskStatus(id, status, ok)];
      if ok {
        db := db.(tasks := SetTaskStatus(db.tasks, id, status));
      }
    }

    /** Inserts one assignment under a newly generated id; the new row is returned. */
    method InsertAssignment(row: AssignmentInsert, ok: bool) returns (created: Option<Assignment>)
      modifies this
      ensures calls == old(calls) + [Call.InsertAssignment(row, ok)]
      ensures ok <==> created.Some?
      ensures created.Some? ==>
        && created.value == NewAssignment(created.value.id, row, assignmentStatusDefault)
        && created.value.id !in Ids(old(db).assignments, (a: Assignment) => a.id)
        && db == old(db).(assignments := old(db).assignments + [created.value])
      ensures created.None? ==> db == old(db)
    {
      calls := calls + [Call.InsertAssignment(row, ok)];
      if ok {
        var id := FreshId(Ids(db.assignments, (a: Assignment) => a.id));
        var a := NewAssignment(id, row, assignmentStatusDefault);
        db := db.(assignments := db.assignments + [a]);
        created := Some(a);
      } else {
        created := None;
      }
    }

    method DeleteAssignment(id: Id, ok: bool)
      modifies this
      ensures calls == old(calls) + [Call.DeleteAssignment(id, ok)]
      ensures db == if ok then old(db).(assignments := Seqs.Filter(old(db).assignments, (a: Assignment) => a.id != id)) else old(db)
    {
      calls := calls + [Call.DeleteAssignment(id, ok)];
      if ok {
        db := db.(assignments := Seqs.Filter(db.assignments, (a: Assignment) => a.id != id));
      }
    }

    /**
     * Inserts one participant row under a newly generated id; the new row is
     * returned. `volunteer_id` is a non-null column, so a request without it
     * is refused whatever the backend's health.
     */
    method InsertParticipant(trainingId: Id, volunteerId: Option<Id>, status: string, ok: bool) returns (created: Option<Participant>)
      modifies this
      ensures calls == old(calls) + [Call.InsertParticipant(trainingId, volunteerId, status, ok && volunteerId.Some?)]
      ensures created.Some? <==> ok && volunteerId.Some?
      ensures created.Some? ==>
        && created.value == Participant(created.value.id, trainingId, volunteerId.value, Some(status), None)
        && created.value.id !in Ids(old(db).participants, (p: Participant) => p.id)
        && db == old(db).(participants := old(db).participants + [created.value])
      ensures created.None? ==> db == old(db)
    {
      calls := calls + [Call.InsertParticipant(trainingId, volunteerId, status, ok && volunteerId.Some?)];
      if ok && volunteerId.Some? {
        var id := FreshId(Ids(db.participants, (p: Participant) => p.id));
        var row := Participant(id, trainingId, volunteerId.value, Some(status), None);
        db := db.(participants := db.participants + [row]);
        created := Some(row);
      } else {
        created := None;
      }
    }

    method DeleteTraining(id: Id, ok: bool)
      modifies this
      ensures calls == old(calls) + [Call.DeleteTraining(id, ok)]
      ensures db == if ok then old(db).(trainings := Seqs.Filter(old(db).trainings, (t: Training) => t.id != id)) else old(db)
    {
      calls := calls + [Call.DeleteTraining(id, ok)];
      if ok {
        db := db.(trainings := Seqs.Filter(db.trainings, (t: Training) => t.id != id));
      }
    }

    method DeleteLanguages(volunteerId: Id, ok: bool)
      modifies this
      ensures calls == old(calls) + [Call.DeleteLanguages(volunteerId, ok)]
      ensures db == if ok then old(db).(languages := Seqs.Filter(old(db).languages, (l: LanguageRow) => l.volunteerId != volunteerId)) else old(db)
    {
      calls := calls + [Call.DeleteLanguages(volunteerId, ok)];
      if ok {
        db := db.(languages := Seqs.Filter(db.languages, (l: LanguageRow) => l.volunteerId != volunteerId));
      }
    }

    /** Inserts the rows in one request: all of them or, on failure, none. */
    method InsertLanguages(rows: seq<LanguageInsert>, ok: bool)
      modifies this
      ensures calls == old(calls) + [Call.InsertLanguages(rows, ok)]
      ensures !ok ==> db == old(db)
      ensures ok ==> db == old(db).(languages := db.languages) && Appended(old(db).languages, db.languages, rows)
      ensures forall j, k :: 0 <= j < k < |db.languages| && |old(db).languages| <= k ==> db.languages[j].id != db.languages[k].id
    {
      calls := calls + [Call.InsertLanguages(rows, ok)];
      if ok {
        var i := 0;
        ghost var before := db.languages;
        while i < |rows|
          invariant 0 <= i <= |rows|
          invariant calls == old(calls) + [Call.InsertLanguages(rows, ok)]
          invariant db == old(db).(languages := db.languages)
          invariant |db.languages| == |before| + i && db.languages[..|before|] == before
          invariant forall k :: 0 <= k < i ==>
            var l := db.languages[|before| + k];
            l.volunteerId == rows[k].volunteerId && l.language == rows[k].language && l.level == rows[k].level
          invariant forall j, k :: 0 <= j < k < |db.languages| && |before| <= k ==> db.languages[j].id != db.languages[k].id
        {
          var id := FreshId(Ids(db.languages, (l: LanguageRow) => l.id));
          db := db.(languages := db.languages + [LanguageRow(id, rows[i].volunteerId, rows[i].language, rows[i].level)]);
          i := i + 1;
        }
      }
    }

    /** Invokes an edge function; the function's own effects are not part of the client's view. */
    method Invoke(fn: EdgeFunction, payload: Payload, ok: bool)
      modifies this
      ensures calls == old(calls) + [Call.Invoke(fn, payload, ok)]
      ensures db == old(db)
    {
      calls := calls + [Call.Invoke(fn, payload, ok)];
    }

    /** Uploads to the `avatars` bucket; with `upsert` an existing object under the key is overwritten. */
    method UploadAvatar(key: string, file: StoredFile, upsert: bool, ok: bool)
      modifies this
      ensures calls == old(calls) + [Call.UploadAvatar(key, file, upsert, ok)]
      ensures db == if ok && (upsert || key !in old(db).avatars) then old(db).(avatars := old(db).avatars[key := file]) else old(db)
    {
      calls := calls + [Call.UploadAvatar(key, file, upsert, ok)];
      if ok && (upsert || key !in db.avatars) {
        db := db.(avatars := db.avatars[key := file]);
      }
    }

    method AuthSignUp(email: string, password: string, metadata: seq<(string, string)>, redirectPath: string, ok: bool)
      modifies this
      ensures calls == old(calls) + [Call.AuthSignUp(email, password, metadata, redirectPath, ok)]
      ensures db == old(db)
    {
      calls := calls + [Call.AuthSignUp(email, password, metadata, redirectPath, ok)];
    }

    method AuthSignIn(email: string, password: string, ok: bool)
      modifies this
      ensures calls == old(calls) + [Call.AuthSignIn(email, password, ok)]
      ensures db == old(db)
    {
      calls := calls + [Call.AuthSignIn(email, password, ok)];
    }

    method AuthSignOut()
      modifies this
      ensures calls == old(calls) + [Call.AuthSignOut]
      ensures db == old(db)
    {
      calls := calls + [Call.AuthSignOut];
    }
  }
}
