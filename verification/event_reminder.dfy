/**
 * The `send-event-reminder` edge function: for every event dated tomorrow
 * it lists the selected volunteers who have an e-mail address. Nothing is
 * delivered; the answer reports the list.
 */
module EventReminder {
  import opened Wrappers
  import opened Schema
  import Seqs
  import opened Backend

  /** The assignment status the function asks for. */
  const WantedStatus: string := "approved"

  datatype Reminder = Reminder(email: string, eventTitle: string)

  datatype Response =
    | Preflight
    | Processed(count: nat, details: seq<Reminder>)
    | BadRequest

  /** `.eq("date", dateStr)`: tomorrow's events, in table order; the date string is computed from the clock by the caller. */
  function EventsOn(tasks: seq<Task>, dateStr: string): (r: seq<Task>)
    ensures forall t :: t in r <==> t in tasks && t.date == dateStr
  {
    Seqs.Filter(tasks, (t: Task) => t.date == dateStr)
  }

  /**
   * `.eq("task_id", …).eq("status", wanted)`: the assignments of the event whose
   * status label is `wanted`. A `wanted` that is no `task_status` label selects
   * nothing here; the database instead rejects such a filter value, the read
   * fails and the event is skipped by the `continue` path. Both give the event
   * no reminder.
   */
  function Selected(assignments: seq<Assignment>, taskId: Id, wanted: string): (r: seq<Assignment>)
    ensures forall a :: a in r <==> a in assignments && a.taskId == taskId && TaskStatusText(a.status) == wanted
  {
    Seqs.Filter(assignments, (a: Assignment) => a.taskId == taskId && TaskStatusText(a.status) == wanted)
  }

  /** The reminder for one assignment, if its volunteer's profile is found by `.single()` and has an address. */
  function ReminderFor(profiles: seq<Profile>, a: Assignment, title: string): (r: seq<Reminder>)
    ensures |r| <= 1
  {
    var p := UniqueProfileOf(profiles, a.volunteerId);
    if p.Some? && p.value.email != "" then [Reminder(p.value.email, title)] else []
  }

  /** The reminders for the assignments of one event, in assignment order. */
  function RemindersFor(profiles: seq<Profile>, assigns: seq<Assignment>, title: string): (r: seq<Reminder>)
    ensures |r| <= |assigns|
    ensures forall x :: x in r ==> x.eventTitle == title && x.email != ""
  {
    if assigns == [] then []
    else RemindersFor(profiles, assigns[..|assigns| - 1], title) + ReminderFor(profiles, assigns[|assigns| - 1], title)
  }

  /** One event's contribution: nothing when its assignment read fails. */
  function EventReminders(db: Db, e: Task, wanted: string, failing: set<Id>): seq<Reminder> {
    if e.id in failing then [] else RemindersFor(db.profiles, Selected(db.assignments, e.id, wanted), e.title)
  }

  /** All reminders: event order, then assignment order within an event. */
  function AllReminders(db: Db, events: seq<Task>, wanted: string, failing: set<Id>): (r: seq<Reminder>)
    ensures forall x :: x in r ==> x.email != "" && exists k :: 0 <= k < |events| && x.eventTitle == events[k].title
  {
    if events == [] then []
    else AllReminders(db, events[..|events| - 1], wanted, failing) + EventReminders(db, events[|events| - 1], wanted, failing)
  }

  /**
   * The handler: the events read failing gives 400; otherwise the nested
   * loops skip an event whose assignment read fails (`failing`) and push one
   * entry per selected assignment whose profile has an address.
   */
  method Remind(db: Db, preflight: bool, dateStr: string, eventsError: bool, failing: set<Id>) returns (resp: Response)
    ensures preflight ==> resp == Preflight
    ensures !preflight && eventsError ==> resp == BadRequest
    ensures !preflight && !eventsError ==>
      var all := AllReminders(db, EventsOn(db.tasks, dateStr), WantedStatus, failing);
      resp == Processed(|all|, all)
  {
    if preflight {
      return Preflight;
    }
    if eventsError {
      return BadRequest;
    }
    var events := EventsOn(db.tasks, dateStr);
    var results: seq<Reminder> := [];
    var i := 0;
    while i < |events|
      invariant 0 <= i <= |events|
      invariant results == AllReminders(db, events[..i], WantedStatus, failing)
    {
      AllRemindersStep(db, events, i, WantedStatus, failing);
      if events[i].id !in failing {
        var assignments := Selected(db.assignments, events[i].id, WantedStatus);
        if |assignments| != 0 {
          var found := RemindEvent(db.profiles, assignments, events[i].title);
          results := results + found;
        }
      }
      i := i + 1;
    }
    assert events[..i] == events;
    resp := Processed(|results|, results);
  }

  /** The inner loop: one profile lookup per assignment, an entry when the profile has an address. */
  method RemindEvent(profiles: seq<Profile>, assignments: seq<Assignment>, title: string) returns (found: seq<Reminder>)
    ensures found == RemindersFor(profiles, assignments, title)
  {
    found := [];
    var j := 0;
    while j < |assignments|
      invariant 0 <= j <= |assignments|
      invariant found == RemindersFor(profiles, assignments[..j], title)
    {
      RemindersForStep(profiles, assignments, j, title);
      var profile := UniqueProfileOf(profiles, assignments[j].volunteerId);
      if profile.Some? && profile.value.email != "" {
        found := found + [Reminder(profile.value.email, title)];
      }
      j := j + 1;
    }
    assert assignments[..j] == assignments;
  }

  lemma AllRemindersStep(db: Db, events: seq<Task>, i: nat, wanted: string, failing: set<Id>)
    requires i < |events|
    ensures AllReminders(db, events[..i + 1], wanted, failing)
         == AllReminders(db, events[..i], wanted, failing) + EventReminders(db, events[i], wanted, failing)
  {
    assert events[..i + 1][..i] == events[..i];
  }

  lemma RemindersForStep(profiles: seq<Profile>, assigns: seq<Assignment>, j: nat, title: string)
    requires j < |assigns|
    ensures RemindersFor(profiles, assigns[..j + 1], title)
         == RemindersFor(profiles, assigns[..j], title) + ReminderFor(profiles, assigns[j], title)
  {
    assert assigns[..j + 1][..j] == assigns[..j];
  }

  /**
   * Every reminder belongs to an event dated `dateStr` whose assignment read
   * succeeded, and to one of its assignments with the wanted status.
   */
  lemma {:induction false} RemindersAreSelected(db: Db, events: seq<Task>, wanted: string, failing: set<Id>, x: Reminder)
    requires x in AllReminders(db, events, wanted, failing)
    ensures exists e ::
      && e in events && e.id !in failing && x.eventTitle == e.title
      && exists a :: a in db.assignments && a.taskId == e.id && TaskStatusText(a.status) == wanted
    decreases |events|
  {
    var last := events[|events| - 1];
    var init := events[..|events| - 1];
    if x in AllReminders(db, init, wanted, failing) {
      RemindersAreSelected(db, init, wanted, failing, x);
      var e :| e in init && e.id !in failing && x.eventTitle == e.title
        && exists a :: a in db.assignments && a.taskId == e.id && TaskStatusText(a.status) == wanted;
      assert e in events;
    } else {
      var sel := Selected(db.assignments, last.id, wanted);
      assert last.id !in failing;
      SomeAssignmentBehind(db.profiles, sel, last.title, x);
      assert x.eventTitle == last.title;
    }
  }

  lemma {:induction false} SomeAssignmentBehind(profiles: seq<Profile>, assigns: seq<Assignment>, title: string, x: Reminder)
    requires x in RemindersFor(profiles, assigns, title)
    ensures exists a :: a in assigns
    decreases |assigns|
  {
    assert assigns[|assigns| - 1] in assigns;
  }

  /** A status that is not one of the four `task_status` values selects no assignment. */
  lemma {:induction false} UnknownStatusSelectsNothing(db: Db, events: seq<Task>, wanted: string, failing: set<Id>)
    requires forall s: TaskStatus :: TaskStatusText(s) != wanted
    ensures AllReminders(db, events, wanted, failing) == []
    decreases |events|
  {
    if events != [] {
      UnknownStatusSelectsNothing(db, events[..|events| - 1], wanted, failing);
      var e := events[|events| - 1];
      Seqs.FilterNone(db.assignments, (a: Assignment) => a.taskId == e.id && TaskStatusText(a.status) == wanted);
    }
  }

  /** `approved` is not a `task_status`, so under the declared schema the function never produces a reminder. */
  lemma NeverReminds(db: Db, preflight: bool, dateStr: string, failing: set<Id>)
    ensures AllReminders(db, EventsOn(db.tasks, dateStr), WantedStatus, failing) == []
  {
    forall s: TaskStatus ensures TaskStatusText(s) != WantedStatus {
      assert TaskStatusText(s) in ["pending", "in_progress", "completed", "cancelled"];
    }
    UnknownStatusSelectsNothing(db, EventsOn(db.tasks, dateStr), WantedStatus, failing);
  }

  /** A failing assignment read only removes that event's entries: the other events are still processed. */
  lemma {:induction false} FailureSkipsOnlyThatEvent(db: Db, events: seq<Task>, wanted: string, failing: set<Id>, id: Id)
    requires forall e :: e in events ==> e.id != id
    ensures AllReminders(db, events, wanted, failing + {id}) == AllReminders(db, events, wanted, failing)
    decreases |events|
  {
    if events != [] {
      var init := events[..|events| - 1];
      assert forall e :: e in init ==> e in events;
      FailureSkipsOnlyThatEvent(db, init, wanted, failing, id);
    }
  }
}
