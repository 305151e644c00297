/**
 * The `notify-cancellation` edge function: given a cancelled event or
 * training, it chooses the volunteers to e-mail and answers with a count or
 * an error. E-mail delivery is the list of messages the function hands to
 * the mail service; the service itself is outside the model.
 */
module NotifyCancellation {
  import opened Wrappers
  import opened Schema
  import Seqs
  import opened Backend

  /** The parsed JSON body; `kind` is the free `type` string. */
  datatype Request = Request(entityId: Id, kind: string)

  /** One message handed to the mail service. */
  datatype Email = Email(to: string, subject: string, greetingName: string)

  datatype ErrorReason = UnreadableBody | CredentialsMissing | EventNotFound | TrainingNotFound | QueryFailed

  datatype Body = PreflightOk | NothingToNotify | Notified(count: nat) | Failure(reason: ErrorReason)

  datatype Response = Response(status: int, body: Body)

  /** What the function returns, and the e-mails it issued before returning. */
  datatype Outcome = Outcome(response: Response, sends: seq<Email>)

  /** The environment's failures: missing credentials and errors of the individual reads and sends. */
  datatype Faults = Faults(credentialsSet: bool, registrationsError: bool, profilesError: bool, sendError: bool)

  /** The three assignment statuses that count as registered. */
  predicate Notifiable(a: Assignment, taskId: Id) {
    a.taskId == taskId && (a.status == Pending || a.status == InProgress || a.status == Completed)
  }

  function Registrations(db: Db, taskId: Id): (r: seq<Assignment>)
    ensures forall a :: a in r <==> a in db.assignments && Notifiable(a, taskId)
  {
    Seqs.Filter(db.assignments, (a: Assignment) => Notifiable(a, taskId))
  }

  /** The volunteer ids of the registrations, as the set the `in` filter tests against. */
  function VolunteerIds(regs: seq<Assignment>): (ids: set<Id>)
    ensures forall id :: id in ids <==> exists a :: a in regs && a.volunteerId == id
  {
    set a | a in regs :: a.volunteerId
  }

  /** `profiles … .in("user_id", volunteerIds)`: the profiles, in table order, whose user id is one of them. */
  function Recipients(db: Db, taskId: Id): (r: seq<Profile>)
    ensures |r| <= |db.profiles|
  {
    var ids := VolunteerIds(Registrations(db, taskId));
    Seqs.Filter(db.profiles, (p: Profile) => p.userId in ids)
  }

  /** A profile is a recipient exactly when it has a non-cancelled assignment on the task. */
  lemma RecipientsExact(db: Db, taskId: Id, p: Profile)
    ensures p in Recipients(db, taskId) <==>
      p in db.profiles && exists a :: a in db.assignments && Notifiable(a, taskId) && a.volunteerId == p.userId
  {
    var regs := Registrations(db, taskId);
    if p in db.profiles && (exists a :: a in db.assignments && Notifiable(a, taskId) && a.volunteerId == p.userId) {
      var a :| a in db.assignments && Notifiable(a, taskId) && a.volunteerId == p.userId;
      assert a in regs;
    }
  }

  /**
   * Recipients are chosen by set membership, so an extra assignment of a
   * volunteer who is already registered for the task changes nothing.
   */
  lemma DuplicateAssignmentSameRecipients(db: Db, taskId: Id, a: Assignment, b: Assignment)
    requires b in db.assignments && Notifiable(b, taskId) && a.volunteerId == b.volunteerId
    ensures Recipients(db.(assignments := db.assignments + [a]), taskId) == Recipients(db, taskId)
  {
    var db2 := db.(assignments := db.assignments + [a]);
    Seqs.FilterAppend(db.assignments, [a], (x: Assignment) => Notifiable(x, taskId));
    assert b in Registrations(db, taskId);
    assert VolunteerIds(Registrations(db2, taskId)) == VolunteerIds(Registrations(db, taskId));
  }

  function Subject(title: string): string {
    "\U{26A0}\U{FE0F} Annulation de l'événement : " + title
  }

  /** One e-mail per recipient with a non-empty address, in recipient order. */
  function Emails(recipients: seq<Profile>, subject: string): (r: seq<Email>)
    ensures |r| <= |recipients|
    ensures forall e :: e in r <==> exists p :: p in recipients && p.email != "" && e == Email(p.email, subject, p.fullName)
  {
    if recipients == [] then []
    else
      var p := recipients[0];
      var rest := Emails(recipients[1..], subject);
      assert forall q :: q in recipients <==> q == p || q in recipients[1..];
      (if p.email != "" then [Email(p.email, subject, p.fullName)] else []) + rest
  }

  function Fail(reason: ErrorReason): Outcome {
    Outcome(Response(500, Failure(reason)), [])
  }

  /**
   * The function's answer, case by case: a preflight is answered at once;
   * an unreadable body, missing credentials, a missing event or training
   * and a failed read all give 500 with no e-mail; no recipients gives 200
   * with nothing sent; otherwise every recipient with an address gets the
   * e-mail and the answer counts all recipients, or is 500 if a send fails.
   */
  function Expected(db: Db, preflight: bool, body: Option<Request>, f: Faults): (out: Outcome)
    ensures out.response.status == 200 || out.response.status == 500
  {
    if preflight then Outcome(Response(200, PreflightOk), [])
    else if body.None? then Fail(UnreadableBody)
    else if !f.credentialsSet then Fail(CredentialsMissing)
    else
      var req := body.value;
      if req.kind == "event" then
        var task := Single(db.tasks, (t: Task) => t.id == req.entityId);
        if task.None? then Fail(EventNotFound)
        else if f.registrationsError then Fail(QueryFailed)
        else if |Registrations(db, req.entityId)| > 0 && f.profilesError then Fail(QueryFailed)
        else
          var recipients := Recipients(db, req.entityId);
          if recipients == [] then Outcome(Response(200, NothingToNotify), [])
          else
            var sends := Emails(recipients, Subject(task.value.title));
            if f.sendError then Outcome(Response(500, Failure(QueryFailed)), sends)
            else Outcome(Response(200, Notified(|recipients|)), sends)
      else if req.kind == "training" && Single(db.trainings, (t: Training) => t.id == req.entityId).None? then Fail(TrainingNotFound)
      else Outcome(Response(200, NothingToNotify), [])
  }

  /**
   * The handler as written: `volunteers` and `subject` start empty and are
   * filled in by the branch for the request's type; a throw anywhere
   * becomes the 500 answer.
   */
  method Handle(db: Db, preflight: bool, body: Option<Request>, f: Faults) returns (out: Outcome)
    ensures out == Expected(db, preflight, body, f)
    ensures out.sends != [] ==> body.Some? && body.value.kind == "event"
    ensures out.response.status == 200 || out.response.status == 500
  {
    if preflight {
      return Outcome(Response(200, PreflightOk), []);
    }
    if body.None? {
      return Fail(UnreadableBody);
    }
    var req := body.value;
    if !f.credentialsSet {
      return Fail(CredentialsMissing);
    }
    var volunteers: seq<Profile> := [];
    var subject := "";
    if req.kind == "event" {
      var event := Single(db.tasks, (t: Task) => t.id == req.entityId);
      if event.None? {
        return Fail(EventNotFound);
      }
      if f.registrationsError {
        return Fail(QueryFailed);
      }
      var registrations := Registrations(db, req.entityId);
      if |registrations| > 0 {
        if f.profilesError {
          return Fail(QueryFailed);
        }
        volunteers := Recipients(db, req.entityId);
      } else {
        assert Recipients(db, req.entityId) == [] by {
          assert VolunteerIds(registrations) == {};
          Seqs.FilterNone(db.profiles, (p: Profile) => p.userId in VolunteerIds(registrations));
        }
      }
      subject := Subject(event.value.title);
    } else if req.kind == "training" {
      var training := Single(db.trainings, (t: Training) => t.id == req.entityId);
      if training.None? {
        return Fail(TrainingNotFound);
      }
    }
    if |volunteers| == 0 {
      return Outcome(Response(200, NothingToNotify), []);
    }
    var sends := Emails(volunteers, subject);
    if f.sendError {
      return Outcome(Response(500, Failure(QueryFailed)), sends);
    }
    out := Outcome(Response(200, Notified(|volunteers|)), sends);
  }

  /** The reported count includes recipients skipped for having no address, so it bounds the e-mails sent. */
  lemma CountBoundsSends(db: Db, body: Option<Request>, f: Faults)
    ensures var out := Expected(db, false, body, f);
      out.response.body.Notified? ==> |out.sends| <= out.response.body.count
  {
  }

  /** No e-mail and an error answer for an event id that does not name exactly one task. */
  lemma UnknownEventFails(db: Db, id: Id, f: Faults)
    requires f.credentialsSet
    requires forall t :: t in db.tasks ==> t.id != id
    ensures Expected(db, false, Some(Request(id, "event")), f) == Fail(EventNotFound)
  {
    Seqs.FilterNone(db.tasks, (t: Task) => t.id == id);
  }

  /** For a training the function never collects recipients: it sends nothing, whatever the tables hold. */
  lemma TrainingNeverNotifies(db: Db, id: Id, f: Faults)
    requires f.credentialsSet
    ensures var out := Expected(db, false, Some(Request(id, "training")), f);
      out.sends == [] && (out.response.body == NothingToNotify || out.response.body == Failure(TrainingNotFound))
  {
  }

  /**
   * The administrator's order matters for trainings: notified while the row
   * exists the function answers 200, but after the hard delete it would
   * answer 500 "Training not found".
   */
  lemma {:induction false} TrainingOrderMatters(db: Db, t: Training, f: Faults)
    requires f.credentialsSet
    requires t in db.trainings && UniqueIds(db.trainings)
    ensures Expected(db, false, Some(Request(t.id, "training")), f).response == Response(200, NothingToNotify)
    ensures var deleted := db.(trainings := Seqs.Filter(db.trainings, (u: Training) => u.id != t.id));
      Expected(deleted, false, Some(Request(t.id, "training")), f) == Fail(TrainingNotFound)
  {
    SingleHit(db.trainings, t.id);
    var rest := Seqs.Filter(db.trainings, (u: Training) => u.id != t.id);
    Seqs.FilterNone(rest, (u: Training) => u.id == t.id);
  }

  /** `trainings.id` is the primary key. */
  predicate UniqueIds(trainings: seq<Training>) {
    forall i, j :: 0 <= i < j < |trainings| ==> trainings[i].id != trainings[j].id
  }

  lemma {:induction false} SingleHit(trainings: seq<Training>, id: Id)
    requires UniqueIds(trainings) && exists u :: u in trainings && u.id == id
    ensures |Seqs.Filter(trainings, (u: Training) => u.id == id)| == 1
    decreases |trainings|
  {
    var rest := trainings[1..];
    assert UniqueIds(rest) by {
      forall i, j | 0 <= i < j < |rest| ensures rest[i].id != rest[j].id {
        assert rest[i] == trainings[i + 1] && rest[j] == trainings[j + 1];
      }
    }
    if trainings[0].id == id {
      forall u | u in rest ensures u.id != id {
        var k :| 0 <= k < |rest| && rest[k] == u;
        assert u == trainings[k + 1];
      }
      Seqs.FilterNone(rest, (u: Training) => u.id == id);
    } else {
      SingleHit(rest, id);
    }
  }

  /**
   * The administrator sets the event to `cancelled` before invoking the
   * function; that write changes neither the event lookup, nor its title,
   * nor the recipients, so the answer is the one the untouched tables give.
   */
  lemma StatusWriteKeepsOutcome(db: Db, id: Id, body: Option<Request>, f: Faults)
    ensures Expected(db.(tasks := SetTaskStatus(db.tasks, id, Cancelled)), false, body, f) == Expected(db, false, body, f)
  {
    if body.Some? {
      var eid := body.value.entityId;
      var before := Seqs.Filter(db.tasks, (t: Task) => t.id == eid);
      var after := Seqs.Filter(SetTaskStatus(db.tasks, id, Cancelled), (t: Task) => t.id == eid);
      StatusWriteKeepsHits(db.tasks, id, eid);
      if |before| == 1 {
        assert after[0].title == before[0].title;
      }
    }
  }

  lemma {:induction false} StatusWriteKeepsHits(tasks: seq<Task>, id: Id, eid: Id)
    ensures var before := Seqs.Filter(tasks, (t: Task) => t.id == eid);
      var after := Seqs.Filter(SetTaskStatus(tasks, id, Cancelled), (t: Task) => t.id == eid);
      |after| == |before| && forall k :: 0 <= k < |before| ==> after[k].title == before[k].title
    decreases |tasks|
  {
    if tasks != [] {
      var updated := SetTaskStatus(tasks, id, Cancelled);
      assert updated[1..] == SetTaskStatus(tasks[1..], id, Cancelled);
      assert updated[0].id == tasks[0].id && updated[0].title == tasks[0].title;
      StatusWriteKeepsHits(tasks[1..], id, eid);
    }
  }
}
