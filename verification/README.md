# i-volunteer: the volunteer and event workflows, modelled in Dafny

i-volunteer is a volunteer management application: a React front end over a hosted
Postgres backend (tables, authentication, file storage and edge functions). This
project models its business core and proves properties of it:

- the **volunteer approval workflow** on `profiles.status`:
  - no status, then `pending` after onboarding;
  - `pending` to `active` on approval, or to `rejected` with a trimmed reason;
  - `approved` for an administrator's own sign-up;
- the **event registration workflow** on `task_assignments`:
  - a volunteer registers and withdraws;
  - an administrator validates, refuses, assigns directly, cancels an event (write, then notify) or cancels a training (notify, then delete);
- **recipient selection** in the two edge functions `notify-cancellation` and `send-event-reminder`;
- the **pure helpers and validators**:
  - profile completeness;
  - onboarding field normalisation;
  - the multi-step registration form;
  - dashboard counts and filters;
  - sign-in/sign-up validation and the redirects;
  - avatar file checks;
- the **authentication context** state machine: user, session, role, profile and loading.

## How the model is built

- **The backend.**
  - `Backend.Store` is a class holding the database (`Db`, one `seq` of rows per table, in query-result order) and `calls`, the ordered log of every write, edge-function invocation and auth call the client makes, each with its success flag.
  - Every store method appends exactly one call and changes exactly the table it names.
  - Whether a call succeeds is a boolean parameter (`ok`).
  - Ordering promises ("notify strictly before delete", "no profile write after a failed sign-up") are stated on `calls`.
- **Rows and enums.** The row shapes and enums of `src/integrations/supabase/types.ts` are the datatypes of `Schema`.
  - `task_status` and `app_role` are closed datatypes.
  - `profiles.status`, `profiles.rejection_reason`, `trainings.status` and `training_participants.status` stay free nullable strings, as in the schema.
  - The foreign keys are a list of declarations that lemmas query.
- **Pages with state.** Each page that updates state step by step is a class with that state as fields: `AdminDashboard.AdminPage`, `VolunteerDashboard.DashboardPage`, `RegistrationForm.Form`, `Onboarding.OnboardingPage`, `AuthContext.AuthState`, `AuthPage.AuthPageState`, `AdminAuthPage.AdminAuthPageState` and `AvatarUpload.AvatarWidget`.
  - Each handler states the calls it made, every table and page field it writes, and that every other table and field is unchanged. Inserted rows have fresh ids, stated only as distinct from the existing ones.
  - The derived views (joins, counts, filters, redirects, validators) are functions, with lemmas stating their meaning.
- **Edge functions.**
  - `notify-cancellation` is a method (`Handle`) proved equal to a case-by-case reference function (`Expected`). Lemmas about that function state the recipient rules.
  - `send-event-reminder` is a method with its two nested loops, proved against `AllReminders`.
- **JavaScript semantics, written out:**
  - `trim` uses the ECMAScript white-space set;
  - `split`/`join` on one character are inverse to each other;
  - `.length` of a string counts UTF-16 code units;
  - `toLowerCase` is applied character by character;
  - truthiness of a nullable text column means present and non-empty;
  - `maybeSingle` returns a row only when exactly one matches;
  - `Math.round(c / t * 100)` is computed exactly in integers.

### Behaviour of the code worth knowing

- **Approval status.** Approval writes `active` (`AdminDashboard.AdminPage.ApproveVolunteer`). Only an administrator's own sign-up writes `approved` (`AdminAuthPage.AdminAuthPageState.HandleSubmit`). Neither dashboard counter includes an `approved` profile (`AdminDashboard.AdminSignupCountedNowhere`).
- **Duplicate registrations.** Registration is refused whenever the event's id is among the task ids of all the volunteer's loaded assignments, whatever their status. So a refused (`cancelled`) registration also blocks re-registration (`VolunteerDashboard.RefusedRegistrationStillListed`). The check reads the page's list, not the database.
- **Prefill and resubmit.** The onboarding prefill splits `full_name` on single spaces. The first piece becomes the first name, and the rest is joined back with spaces. The submission writes `trim(first + " " + last)`. So submitting the pre-filled name unchanged writes back exactly the trimmed stored name (`Onboarding.PrefillRoundTrip`). Runs of inner spaces are kept, so the result is not free of double spaces.
- **Reminder status.** The reminder function selects assignments whose status is `approved`. That value is not a `task_status` label. The database rejects such a filter value, so each event's assignment read fails and the event is skipped. The model selects nothing for it instead, with the same result: no reminder is ever produced (`EventReminder.NeverReminds`).
- **Two kinds of profile id.** Events are registered under the auth user's id, while trainings are registered under the profile's id (`VolunteerDashboard.DashboardPage.RegisterForEvent` and `RegisterForTraining`). Correspondingly, `task_assignments.volunteer_id` has no foreign key, while `training_participants.volunteer_id` references `profiles.id`.
- **The event-details dialog re-opens.** `currentEvent` is set whenever an event's details are shown and is never cleared; closing the dialog clears only its open flag. After a registration is validated or refused, the handler fetches the current event's details again, which opens the dialog, so a dialog the administrator closed earlier comes back (`AdminDashboard.AdminPage.ProcessRegistration`). The comment at that call speaks of refreshing the details "if open".
- **Capacity.** `max_volunteers` is never checked at registration, and the model does not check it either.

## Model

| member | source | states |
|---|---|---|
| Schema.ParseTaskStatus | src/integrations/supabase/types.ts:561 | a label parses only to the status whose label it is |
| Schema.ParseAppRole | src/integrations/supabase/types.ts:560 | a label parses only to the role whose label it is |
| Schema.TaskStatusConstantsMatchEnum | src/integrations/supabase/types.ts:686-690 | the runtime constant lists exactly the four `task_status` labels, and each label parses back to its status |
| Schema.AppRoleConstantsMatchEnum | src/integrations/supabase/types.ts:686-690 | the runtime constant lists exactly the two `app_role` labels, and each parses back to its role |
| Schema.NewAssignment | src/integrations/supabase/types.ts:315-327 | an inserted assignment has the supplied task and volunteer, no logged hours, and the supplied status or else the column default |
| Schema.ReferencesIn | src/integrations/supabase/types.ts:335-342 | a column has no reference exactly when no foreign-key declaration names it; a reference returned is a declared one |
| Schema.AssignmentVolunteerIdUnreferenced | src/integrations/supabase/types.ts:335-342 | `task_assignments.volunteer_id` references nothing |
| Schema.AssignmentTaskIdReferencesTasks | src/integrations/supabase/types.ts:335-342 | `task_assignments.task_id` references `tasks.id` |
| Schema.ParticipantVolunteerIdReferencesProfiles | src/integrations/supabase/types.ts:430-445 | `training_participants.volunteer_id` references `profiles.id` |
| Backend.PatchProfiles | src/pages/AdminDashboard.tsx:667-670 | an `update ... eq(key)` rewrites exactly the rows matching the key, leaves every other row unchanged, and keeps the row count |
| Backend.SetAssignmentStatus | src/pages/AdminDashboard.tsx:537-540 | only the assignment with that id gets the new status; all other rows are unchanged |
| Backend.SetTaskStatus | src/pages/AdminDashboard.tsx:700-703 | only the task with that id gets the new status; all other rows are unchanged |
| Backend.UniqueProfileOf | src/contexts/AuthContext.tsx:95-101 | `maybeSingle`: a profile is returned exactly when one row has the user id, and it is that row |
| Backend.Single | src/contexts/AuthContext.tsx:95-101 | `single()`/`maybeSingle()`: a row is returned exactly when one row passes the filter, and it is a row that passes |
| Backend.UniqueRoleOf | src/contexts/AuthContext.tsx:84-88 | a role is returned exactly when one `user_roles` row has the user id, and it belongs to a row of that user |
| Backend.FreshId | src/integrations/supabase/types.ts:315-327 | the generated primary key differs from every existing one |
| Backend.Store.constructor | src/integrations/supabase/types.ts:169-511 | a store starts with the given tables, an empty call log and the status default of `task_assignments` |
| Backend.Store.UpdateProfiles | src/pages/AdminDashboard.tsx:667-670 | logs one update call; on success only `profiles` changes, as `PatchProfiles`; on failure nothing changes |
| Backend.Store.UpdateAssignmentStatus | src/pages/AdminDashboard.tsx:537-540 | logs one update call; on success only the status of that assignment changes |
| Backend.Store.UpdateTaskStatus | src/pages/AdminDashboard.tsx:700-703 | logs one update call; on success only the status of that task changes |
| Backend.Store.InsertAssignment | src/pages/VolunteerDashboard.tsx:385-389 | logs one insert call; a row is created exactly on success; it is appended with a fresh id and the status supplied or the default; on failure nothing changes |
| Backend.Store.DeleteAssignment | src/pages/VolunteerDashboard.tsx:420-423 | logs one delete call; on success exactly the rows with that id are removed |
| Backend.Store.InsertParticipant | src/pages/VolunteerDashboard.tsx:441-445 | a row is created only when the call succeeds and a volunteer id is supplied, since the column is NOT NULL; the logged flag is true exactly then |
| Backend.Store.DeleteTraining | src/pages/AdminDashboard.tsx:745-748 | logs one delete call; on success exactly the training with that id is removed |
| Backend.Store.DeleteLanguages | src/pages/VolunteerOnboarding.tsx:152-156 | on success exactly the volunteer's language rows are removed |
| Backend.Store.InsertLanguages | src/pages/VolunteerOnboarding.tsx:158-162 | logs one insert call; on success only `volunteer_languages` changes: the rows are appended in order with their volunteer, language and level, each under an id that differs from every row before it, and the old rows are kept as a prefix; on failure nothing changes |
| Backend.Store.Invoke | src/pages/AdminDashboard.tsx:709-712 | an edge-function invocation is logged and changes no table |
| Backend.Store.UploadAvatar | src/components/volunteer/AvatarUpload.tsx:51-55 | with upsert, a successful upload stores the file under the key, replacing any earlier object |
| Backend.Store.AuthSignUp | src/contexts/AuthContext.tsx:122-131 | the sign-up call is logged with its metadata and redirect; no table changes |
| Backend.Store.AuthSignIn | src/contexts/AuthContext.tsx:137-140 | the sign-in call is logged; no table changes |
| Backend.Store.AuthSignOut | src/contexts/AuthContext.tsx:146 | the sign-out call is logged; no table changes |
| Text.TrimStart | src/pages/VolunteerOnboarding.tsx:84 | the result is a suffix of the input; everything dropped is white space; the result does not start with white space |
| Text.TrimEnd | src/pages/VolunteerOnboarding.tsx:84 | the result is a prefix of the input; everything dropped is white space; the result does not end with white space |
| Text.Trim | src/pages/VolunteerOnboarding.tsx:84 | the result is empty exactly for a blank input; otherwise it neither starts nor ends with white space |
| Text.TrimIdempotent | src/pages/AdminDashboard.tsx:762-778 | trimming twice is trimming once |
| Text.Split | src/pages/VolunteerOnboarding.tsx:109-111 | `split` yields at least one piece, and no piece holds the separator |
| Text.JoinSplit | src/pages/VolunteerOnboarding.tsx:196-198 | joining the pieces of a split restores the text |
| Text.SplitJoin | src/pages/VolunteerOnboarding.tsx:108-113 | splitting a join of separator-free pieces restores the pieces |
| Text.LastPieceIsSuffix | src/components/volunteer/AvatarUpload.tsx:47 | `split(".").pop()` is the dot-free suffix after the last dot |
| Text.ToLower | src/pages/VolunteerDashboard.tsx:180-186 | lower-casing keeps the length and maps each character on its own |
| Text.ContainsAt | src/pages/VolunteerDashboard.tsx:186 | `includes` holds exactly when the needle occurs at some position |
| Text.Utf16Length | src/pages/AuthPage.tsx:86 | the length counted in UTF-16 code units lies between the code-point count and twice it |
| Text.DecimalValue | src/components/volunteer/AvatarUpload.tsx:62 | the decimal text of a number reads back to that number |
| VolunteerDashboard.IsProfileComplete | src/pages/VolunteerDashboard.tsx:170-172 | complete exactly when a profile exists and gender, date of birth, governorate, city and phone are all present and non-empty |
| VolunteerDashboard.DashboardRedirect | src/pages/VolunteerDashboard.tsx:189-204 | once auth has settled: to sign-in exactly when there is no user; to onboarding exactly when a profile exists and is incomplete; nowhere else |
| VolunteerDashboard.DashboardView | src/pages/VolunteerDashboard.tsx:579-597 | a spinner exactly while loading; otherwise the waiting screen exactly for a `pending` profile |
| VolunteerDashboard.GateConsistency | src/pages/VolunteerDashboard.tsx:189-210 | when data loads there is no redirect; a `pending` volunteer who loads data sees the waiting screen |
| VolunteerDashboard.FilteredEvents | src/pages/VolunteerDashboard.tsx:176-187 | the filtered list holds exactly the upcoming events the location test keeps |
| VolunteerDashboard.KeepEvent | src/pages/VolunteerDashboard.tsx:176-187 | the filter `all`, a missing profile, an event without a location and an event `En ligne` always keep the event |
| VolunteerDashboard.LocalFilterKeeps | src/pages/VolunteerDashboard.tsx:176-187 | the local filter keeps an event exactly when the profile has no governorate, or the event has no location, or the location is "En ligne", or the lower-cased governorate or city occurs in the lower-cased location |
| VolunteerDashboard.ContainsEmpty | src/pages/VolunteerDashboard.tsx:183-186 | the empty city string occurs in every location |
| VolunteerDashboard.NoCityShowsEverything | src/pages/VolunteerDashboard.tsx:176-187 | a profile with no city, or an empty one, sees every event under the local filter |
| VolunteerDashboard.TaskById | src/pages/VolunteerDashboard.tsx:216-227 | the joined task is the task with that id, and it is absent exactly when no task has it |
| VolunteerDashboard.AssignmentsOf | src/pages/VolunteerDashboard.tsx:214-228 | the volunteer's assignments are exactly those whose `volunteer_id` is the user id, each with its task joined |
| VolunteerDashboard.RegisteredIds | src/pages/VolunteerDashboard.tsx:231-232 | the registered ids are exactly the non-empty task ids of the assignments, whatever their status |
| VolunteerDashboard.RefusedRegistrationStillListed | src/pages/VolunteerDashboard.tsx:231-232 | a refused (`cancelled`) registration still counts as registered, so the volunteer cannot register again |
| VolunteerDashboard.ComputeStats | src/pages/VolunteerDashboard.tsx:301-313 | total is the number of assignments; completed and upcoming count by status; hours are the logged hours (null as 0) plus the profile's hours; completed trainings count the participations marked attended |
| VolunteerDashboard.StatusPartition | src/pages/VolunteerDashboard.tsx:302-304 | completed, upcoming and refused assignments partition all of them |
| VolunteerDashboard.StatsBounds | src/pages/VolunteerDashboard.tsx:301-313 | completed plus upcoming never exceeds the total; hours are non-negative when every input is |
| VolunteerDashboard.CompletionRate | src/pages/VolunteerDashboard.tsx:571-573 | 0 without assignments; otherwise the nearest integer to completed/total × 100, halves up; within 0..100 |
| VolunteerDashboard.FindByTask | src/pages/VolunteerDashboard.tsx:415-416 | `find` stops at the first assignment of the event, or throws at the first assignment with no task, or reaches the end; every assignment before the stop is another event's |
| VolunteerDashboard.TrainingOf | src/pages/VolunteerDashboard.tsx:246-263 | the joined training is one with that id, and none is joined exactly when no training has it |
| VolunteerDashboard.TrainingsOf | src/pages/VolunteerDashboard.tsx:244-263 | one training entry per participation keyed by the profile id |
| VolunteerDashboard.TrainingsShown | src/pages/VolunteerDashboard.tsx:244-263 | every training shown comes from a participation keyed by the profile id, and every such participation is shown with its training joined |
| VolunteerDashboard.DashboardPage.constructor | src/pages/VolunteerDashboard.tsx:130-174 | empty lists, zero stats, loading, nothing being registered, local filter |
| VolunteerDashboard.DashboardPage.Visible | src/pages/VolunteerDashboard.tsx:176-187 | the events shown are exactly the upcoming ones the current filter keeps |
| VolunteerDashboard.DashboardPage.Rate | src/pages/VolunteerDashboard.tsx:571-573 | the shown rate is within 0..100 when completed never exceeds total |
| VolunteerDashboard.DashboardPage.FetchData | src/pages/VolunteerDashboard.tsx:212-319 | the assignments, registered ids, trainings and stats are recomputed from the store (empty on a failed read); loading ends |
| VolunteerDashboard.DashboardPage.RegisterForEvent | src/pages/VolunteerDashboard.tsx:370-410 | an id already registered returns false and writes nothing; otherwise one `pending` insert for the user id, and the id is appended only on success; the trainings, loading flag and location filter are unchanged |
| VolunteerDashboard.DashboardPage.CancelRegistration | src/pages/VolunteerDashboard.tsx:412-434 | with no matching assignment, nothing happens; otherwise one delete of that assignment, which on success removes exactly the rows with its id from `task_assignments` and the event id and the assignment from the lists; the trainings, loading flag and location filter are unchanged |
| VolunteerDashboard.DashboardPage.RegisterForTraining | src/pages/VolunteerDashboard.tsx:437-458 | one insert keyed by the profile id, not the user id; a row exists exactly when the call succeeded with a profile |
| AdminDashboard.ProfileByUser | src/pages/AdminDashboard.tsx:321-323 | the profile found has that `user_id`; none is found exactly when no profile has it |
| AdminDashboard.PendingJoin | src/pages/AdminDashboard.tsx:312-328 | every entry is a `pending` assignment with its volunteer (matched by `user_id`) and its task (matched by id) |
| AdminDashboard.PendingJoinExact | src/pages/AdminDashboard.tsx:312-328 | an assignment is in the join exactly when it is `pending` and both its volunteer and its task exist |
| AdminDashboard.AdminMessages | src/pages/AdminDashboard.tsx:285-289 | the messages kept are exactly those with no recipient |
| AdminDashboard.ComputeAdminStats | src/pages/AdminDashboard.tsx:339-358 | active and pending volunteers count profiles by status; completed counts `completed` tasks; hours sum with null as 0; unread counts admin messages not marked read |
| AdminDashboard.DisjointCounts | src/pages/AdminDashboard.tsx:340-341 | active plus pending volunteers never exceed the total |
| AdminDashboard.CountAfterPatch | src/pages/AdminDashboard.tsx:667-670 | a write to the one profile with an id moves only that profile between counters |
| AdminDashboard.ApprovalMovesToActive | src/pages/AdminDashboard.tsx:665-682 | approving a pending profile adds one to the active count and removes one from the pending count |
| AdminDashboard.RejectionLeavesCounters | src/pages/AdminDashboard.tsx:759-796 | rejecting a pending profile removes one from the pending count and leaves the active count |
| AdminDashboard.AdminSignupCountedNowhere | src/pages/AdminAuthPage.tsx:124-132 | an `approved` administrator is neither active nor pending, and never sees the waiting screen |
| AdminDashboard.DirectAssignmentDuplicates | src/pages/AdminDashboard.tsx:508-522 | a direct assignment of a pair already assigned leaves two rows for that pair |
| AdminDashboard.VerdictStatus | src/pages/AdminDashboard.tsx:535-540 | validating writes `in_progress`, refusing writes `cancelled` |
| AdminDashboard.AdminPage.constructor | src/pages/AdminDashboard.tsx:183-247 | empty lists, no selection, every dialog closed |
| AdminDashboard.AdminPage.LoadFromTasks | src/pages/AdminDashboard.tsx:275-358 | after the profiles were read: the tasks, the pending join when its read succeeded, and the trainings and stats when the trainings read succeeded; no other page field changes |
| AdminDashboard.AdminPage.LoadTrainings | src/pages/AdminDashboard.tsx:330-358 | the trainings are those of the store and the stats are recomputed over everything read; no other page field changes |
| AdminDashboard.AdminPage.FetchData | src/pages/AdminDashboard.tsx:249-362 | each list is replaced from the store only when its read succeeded; the pending list is the join; the stats are recomputed only when every read succeeded; dialogs and selections are unchanged |
| AdminDashboard.AdminPage.ApproveVolunteer | src/pages/AdminDashboard.tsx:665-682 | exactly one write, `status = 'active'`, on the profile with that id; no other field or row changes; no notification |
| AdminDashboard.AdminPage.RejectVolunteer | src/pages/AdminDashboard.tsx:759-796 | a reason blank after trimming is refused with no write; otherwise one write of `rejected` with the trimmed reason; the dialog resets only on success; no other page field changes |
| AdminDashboard.AdminPage.SaveRejection | src/pages/AdminDashboard.tsx:771-795 | one profile write of `rejected` with the reason; on success only that profile changes and the dialog resets; on failure the dialog is kept; submitting ends; no other page field changes |
| AdminDashboard.AdminPage.ProcessRegistration | src/pages/AdminDashboard.tsx:535-562 | one status write to that assignment; only on success is exactly that id removed from the pending list and, when an event's details were ever shown, their dialog opened again; no other page field changes |
| AdminDashboard.AdminPage.ShowEventDetails | src/pages/AdminDashboard.tsx:560-562 | the event becomes the current one and its details dialog opens; nothing else changes |
| AdminDashboard.AdminPage.CloseEventDetails | src/pages/AdminDashboard.tsx:2506 | closing the dialog clears only its flag; the current event is kept |
| AdminDashboard.AdminPage.AssignTask | src/pages/AdminDashboard.tsx:508-533 | needs a selected volunteer and task; then one insert keyed by the volunteer's `user_id` with the default status and no duplicate check; only the dialog, selections and submitting flag change on the page |
| AdminDashboard.AdminPage.ConfirmCancelEvent | src/pages/AdminDashboard.tsx:696-725 | `cancelled` is written first; a failed write stops before any notification; a failed notification still completes, with a warning; only the two dialogs change on the page |
| AdminDashboard.AdminPage.CancelTraining | src/pages/AdminDashboard.tsx:727-757 | after confirmation the notification is invoked strictly before the hard delete; the delete happens whatever the notification's result |
| NotifyCancellation.Registrations | supabase/functions/notify-cancellation/index.ts:53-59 | the registrations are exactly the task's assignments with status `pending`, `in_progress` or `completed` |
| NotifyCancellation.VolunteerIds | supabase/functions/notify-cancellation/index.ts:62 | the set of volunteer ids of the registrations |
| NotifyCancellation.Recipients | supabase/functions/notify-cancellation/index.ts:61-70 | at most one entry per profile row |
| NotifyCancellation.RecipientsExact | supabase/functions/notify-cancellation/index.ts:53-70 | a profile is a recipient exactly when its `user_id` is the volunteer of a non-cancelled assignment on the task |
| NotifyCancellation.DuplicateAssignmentSameRecipients | supabase/functions/notify-cancellation/index.ts:62-69 | adding a duplicate of an existing assignment does not change the recipients |
| NotifyCancellation.Emails | supabase/functions/notify-cancellation/index.ts:114-134 | exactly one e-mail per recipient with a non-empty address, with the subject and greeting name |
| NotifyCancellation.Expected | supabase/functions/notify-cancellation/index.ts:20-153 | every answer is 200 or 500 |
| NotifyCancellation.Handle | supabase/functions/notify-cancellation/index.ts:20-153 | the handler returns the reference outcome; only events ever send e-mails; the status is 200 or 500 |
| NotifyCancellation.CountBoundsSends | supabase/functions/notify-cancellation/index.ts:114-136 | the reported count, which includes recipients without an address, bounds the e-mails sent |
| NotifyCancellation.UnknownEventFails | supabase/functions/notify-cancellation/index.ts:40-48 | an unknown event id gives a 500 error and sends nothing |
| NotifyCancellation.TrainingNeverNotifies | supabase/functions/notify-cancellation/index.ts:75-112 | a training request never sends; it answers "nothing to notify" or "training not found" |
| NotifyCancellation.TrainingOrderMatters | supabase/functions/notify-cancellation/index.ts:75-85 | notified while the training exists the function answers 200; after the delete it answers 500 "training not found" |
| NotifyCancellation.SingleHit | supabase/functions/notify-cancellation/index.ts:75-83 | with unique ids, exactly one training matches an existing id |
| NotifyCancellation.StatusWriteKeepsOutcome | src/pages/AdminDashboard.tsx:696-712 | writing `cancelled` to the event before notifying does not change what the function answers |
| NotifyCancellation.StatusWriteKeepsHits | supabase/functions/notify-cancellation/index.ts:40-48 | a status write keeps the tasks matching each id |
| EventReminder.EventsOn | supabase/functions/send-event-reminder/index.ts:26-31 | exactly the tasks whose date equals the given date string |
| EventReminder.Selected | supabase/functions/send-event-reminder/index.ts:38-43 | exactly the event's assignments whose status label equals the wanted text |
| EventReminder.ReminderFor | supabase/functions/send-event-reminder/index.ts:54-65 | at most one entry per assignment |
| EventReminder.RemindersFor | supabase/functions/send-event-reminder/index.ts:52-66 | at most one entry per assignment, each with an address and the event's title |
| EventReminder.Remind | supabase/functions/send-event-reminder/index.ts:9-80 | preflight is answered at once; a failed events read gives 400; otherwise the nested loops return every reminder of tomorrow's events, in event then assignment order, with their count |
| EventReminder.RemindEvent | supabase/functions/send-event-reminder/index.ts:52-66 | the inner loop yields exactly the reminders of the event's selected assignments |
| EventReminder.AllReminders | supabase/functions/send-event-reminder/index.ts:37-67 | every reminder has an address and the title of one of the events |
| EventReminder.AllRemindersStep | supabase/functions/send-event-reminder/index.ts:37-67 | one more event appends exactly its reminders |
| EventReminder.RemindersForStep | supabase/functions/send-event-reminder/index.ts:52-66 | one more assignment appends exactly its reminder |
| EventReminder.RemindersAreSelected | supabase/functions/send-event-reminder/index.ts:37-66 | every reminder belongs to a processed event and to one of its assignments with the wanted status |
| EventReminder.SomeAssignmentBehind | supabase/functions/send-event-reminder/index.ts:50 | an event with no selected assignment yields no reminder |
| EventReminder.UnknownStatusSelectsNothing | supabase/functions/send-event-reminder/index.ts:38-43 | a wanted status that is not a `task_status` label yields no reminder at all |
| EventReminder.NeverReminds | supabase/functions/send-event-reminder/index.ts:43 | with `approved`, which is not a `task_status`, no reminder is ever produced |
| EventReminder.FailureSkipsOnlyThatEvent | supabase/functions/send-event-reminder/index.ts:45-48 | a failed assignment read for an event does not change the other events' reminders |
| RegistrationForm.LanguageEntry.constructor | src/components/volunteer/VolunteerRegistrationForm.tsx:205-209 | a language entry holds the given language and level |
| RegistrationForm.InitialForm | src/components/volunteer/VolunteerRegistrationForm.tsx:195-242 | both consents start false whatever the initial data says; the name and e-mail come from it or are empty |
| RegistrationForm.InitialLanguages | src/components/volunteer/VolunteerRegistrationForm.tsx:205-209 | the given languages, or else the default Arabe, Français, Anglais with empty levels |
| RegistrationForm.Toggle | src/components/volunteer/VolunteerRegistrationForm.tsx:293-312 | the item is in the result exactly when it was not in the list; other items keep their membership; an absent item is appended |
| RegistrationForm.ToggleTwiceRestores | src/components/volunteer/VolunteerRegistrationForm.tsx:293-312 | toggling an absent item twice restores the list |
| RegistrationForm.ToggleRemovesAll | src/components/volunteer/VolunteerRegistrationForm.tsx:293-298 | toggling a present item removes every copy and keeps the rest in order |
| RegistrationForm.RemoveDropsItem | src/components/volunteer/VolunteerRegistrationForm.tsx:293-298 | the filter drops the item and keeps the surrounding entries in order |
| RegistrationForm.ParsedDate | src/components/volunteer/VolunteerRegistrationForm.tsx:248-251 | an empty date reads as three empty parts |
| RegistrationForm.DatePartChange | src/components/volunteer/VolunteerRegistrationForm.tsx:253-268 | all parts set gives `Y-M-D`; some parts set pads the rest with `0000`/`00`/`00`; none set leaves the date |
| RegistrationForm.ComposeReadsBack | src/components/volunteer/VolunteerRegistrationForm.tsx:248-268 | a date composed from dash-free parts reads back as those parts |
| RegistrationForm.ChoiceFillsAllParts | src/components/volunteer/VolunteerRegistrationForm.tsx:248-268 | after choosing any one part, the stored date reads back with three non-empty parts, the chosen one as given |
| RegistrationForm.PartsDashFree | src/components/volunteer/VolunteerRegistrationForm.tsx:248-251 | parsed parts never contain a dash |
| RegistrationForm.Form.constructor | src/components/volunteer/VolunteerRegistrationForm.tsx:194-242 | step 1, the initial form, and the initial languages as fresh entries |
| RegistrationForm.Form.Previous | src/components/volunteer/VolunteerRegistrationForm.tsx:1091-1099 | the step goes down by one but not below 1 |
| RegistrationForm.Form.Next | src/components/volunteer/VolunteerRegistrationForm.tsx:1101-1104 | the step goes up by one but not above 7 |
| RegistrationForm.SubmitEnabled | src/components/volunteer/VolunteerRegistrationForm.tsx:1101-1110 | the submit button is enabled only on the last step, with both consents given and not loading |
| RegistrationForm.ConsentGatesSubmit | src/components/volunteer/VolunteerRegistrationForm.tsx:194-242 | the initial form cannot be submitted, since both consents start false; giving both on the last step enables it |
| RegistrationForm.Form.SetConsents | src/components/volunteer/VolunteerRegistrationForm.tsx:1059-1074 | only the two consent flags change |
| RegistrationForm.Form.ToggleDay | src/components/volunteer/VolunteerRegistrationForm.tsx:293-298 | only the days change, as `Toggle` |
| RegistrationForm.Form.ToggleSkill | src/components/volunteer/VolunteerRegistrationForm.tsx:300-305 | only the selected skills change, as `Toggle` |
| RegistrationForm.Form.ToggleInterest | src/components/volunteer/VolunteerRegistrationForm.tsx:307-312 | only the selected interests change, as `Toggle` |
| RegistrationForm.Form.ChangeDatePart | src/components/volunteer/VolunteerRegistrationForm.tsx:253-268 | only the date of birth changes, as `DatePartChange` |
| RegistrationForm.Form.AddLanguage | src/components/volunteer/VolunteerRegistrationForm.tsx:280-282 | a fresh empty entry is appended and the others are kept |
| RegistrationForm.Form.RemoveLanguage | src/components/volunteer/VolunteerRegistrationForm.tsx:284-287 | exactly the entry at the index is dropped and the others keep their order |
| RegistrationForm.Form.UpdateLanguage | src/components/volunteer/VolunteerRegistrationForm.tsx:274-278 | the entry object at the index is changed in place, in one field; no other entry changes |
| Onboarding.ToNullIfEmpty | src/pages/VolunteerOnboarding.tsx:84 | null exactly for a blank value; otherwise the original, untrimmed value |
| Onboarding.ToNullIfEmptyTrims | src/pages/VolunteerOnboarding.tsx:84 | null exactly when the value trims to empty |
| Onboarding.TrimmedNonEmptySound | src/pages/VolunteerOnboarding.tsx:109-111 | every kept piece is the trim of a non-blank piece |
| Onboarding.TrimmedNonEmptyComplete | src/pages/VolunteerOnboarding.tsx:109-111 | the trim of every non-blank piece is kept |
| Onboarding.SplitTrimmedPieces | src/pages/VolunteerOnboarding.tsx:109-111 | skills and interests are exactly the trimmed non-blank comma pieces, each non-empty, comma-free and trimmed |
| Onboarding.TrimIsInfix | src/pages/VolunteerOnboarding.tsx:109-111 | trimming adds no character |
| Onboarding.JoinOrNull | src/pages/VolunteerOnboarding.tsx:108-112 | null exactly for an empty list |
| Onboarding.JoinOrNullRoundTrip | src/pages/VolunteerOnboarding.tsx:108-112 | a joined non-empty list of comma-free items splits back to the list |
| Onboarding.ListOrNull | src/pages/VolunteerOnboarding.tsx:113 | null exactly for an empty list, otherwise the list itself |
| Onboarding.DetailsFrom | src/pages/VolunteerOnboarding.tsx:88-125 | skills and interests are the split pieces of the free text; text fields are null when blank; the contact and hours fields are joined or null; the days are the list or null |
| Onboarding.OnboardingCompleteness | src/pages/VolunteerOnboarding.tsx:88-125 | every submission writes `pending`; the profile is then complete exactly when the five gate fields were not blank |
| Onboarding.FilledIffNotBlank | src/pages/VolunteerDashboard.tsx:170-172 | a normalised field is filled exactly when the input was not blank |
| Onboarding.SubmissionLeadsToWaiting | src/pages/VolunteerOnboarding.tsx:167-174 | after a complete submission the dashboard does not redirect and shows the waiting screen |
| Onboarding.LanguageRows | src/pages/VolunteerOnboarding.tsx:144-150 | exactly the languages with a non-empty level, keyed by the profile id |
| Onboarding.Prefill | src/pages/VolunteerOnboarding.tsx:195-201 | the e-mail is the profile's if non-empty, else the account's, else empty; nothing else is pre-filled |
| Onboarding.PrefillRoundTrip | src/pages/VolunteerOnboarding.tsx:195-201 | resubmitting the pre-filled name writes back the trimmed stored name |
| Onboarding.OnboardingRedirect | src/pages/VolunteerOnboarding.tsx:54-72 | the dashboard redirect happens only for a complete profile; an incomplete volunteer stays |
| Onboarding.NoRedirectLoop | src/pages/VolunteerOnboarding.tsx:54-76 | onboarding and the dashboard never send a volunteer to each other at once |
| Onboarding.SubmitOrdering | src/pages/VolunteerOnboarding.tsx:78-185 | the profile write comes first and is the only one; notification and language rewrite only after it succeeded; success exactly when the profile write and the insert succeeded |
| Onboarding.SubmitCalls | src/pages/VolunteerOnboarding.tsx:86-164 | one to four calls, the profile update first; any later call only after it succeeded |
| Onboarding.SubmitResult | src/pages/VolunteerOnboarding.tsx:164-185 | a submission succeeds only after a successful profile write, and always does when the profile write and the insert succeed |
| Onboarding.LanguagesReplaced | src/pages/VolunteerOnboarding.tsx:144-162 | after a successful delete and insert the volunteer's language rows are exactly the submitted ones, and every other volunteer's rows are unchanged |
| Onboarding.RowsReplaced | src/pages/VolunteerOnboarding.tsx:152-162 | deleting a volunteer's rows and appending new ones leaves exactly the new ones for that volunteer and keeps the others |
| Onboarding.OnboardingPage.constructor | src/pages/VolunteerOnboarding.tsx:49-52 | the page starts with the user and profile and is not submitting |
| Onboarding.OnboardingPage.HandleSubmit | src/pages/VolunteerOnboarding.tsx:78-185 | without user or profile nothing happens; otherwise the calls are the ordered submission for the form, the profile gets the onboarding write exactly when it succeeded, the language rows follow the delete and insert, and no other table changes |
| Onboarding.OnboardingPage.Submit | src/pages/VolunteerOnboarding.tsx:86-164 | the calls are the ordered submission; the outcome, the profile table and the language table follow which calls succeed; no other table changes |
| AuthContext.UserOf | src/contexts/AuthContext.tsx:51 | the user is the session's user, and is absent exactly without a session |
| AuthContext.KeepUnlessFound | src/contexts/AuthContext.tsx:90-104 | a found value replaces the current one; a missing one keeps it |
| AuthContext.RoleRead | src/contexts/AuthContext.tsx:84-92 | a role read belongs to a row of that user, and only on a successful query |
| AuthContext.ProfileRead | src/contexts/AuthContext.tsx:95-104 | a profile read is that user's row, and only on a successful query |
| AuthContext.SignUpMetadata | src/contexts/AuthContext.tsx:122-131 | the metadata carries the full name and never a role |
| AuthContext.ErrorOf | src/contexts/AuthContext.tsx:133-142 | no error exactly on success; otherwise the backend's message |
| AuthContext.AuthState.constructor | src/contexts/AuthContext.tsx:40-44 | no user, session, role or profile; loading |
| AuthContext.AuthState.OnAuthStateChange | src/contexts/AuthContext.tsx:48-64 | the session and its user are recorded; without a session the role and profile are cleared and loading ends; with one the fetch is deferred |
| AuthContext.AuthState.RestoreSession | src/contexts/AuthContext.tsx:67-76 | the session and its user are recorded and a fetch is started; without one only loading ends |
| AuthContext.AuthState.FetchUserData | src/contexts/AuthContext.tsx:81-111 | role and profile are replaced only by a found row, so earlier values persist; loading ends |
| AuthContext.AuthState.RefreshUserData | src/contexts/AuthContext.tsx:113-116 | nothing at all without a user; otherwise a fetch for the user |
| AuthContext.AuthState.SignUp | src/contexts/AuthContext.tsx:118-134 | one sign-up call with the full name as only metadata and the site root as redirect; error as `ErrorOf` |
| AuthContext.AuthState.SignIn | src/contexts/AuthContext.tsx:136-143 | one sign-in call; error as `ErrorOf` |
| AuthContext.AuthState.SignOut | src/contexts/AuthContext.tsx:145-151 | one sign-out call; user, session, role and profile cleared |
| AuthPage.InitialMode | src/pages/AuthPage.tsx:19 | sign-up exactly when the `mode` parameter is `signup` |
| AuthPage.Redirect | src/pages/AuthPage.tsx:36-46 | an administrator goes to `/admin`; a volunteer with a complete profile to `/dashboard`; with a present but incomplete profile to `/onboarding`; otherwise the page stays |
| AuthPage.RedirectsAgree | src/pages/AuthPage.tsx:31-46 | the sign-in page, the dashboard and onboarding agree on completeness, so no volunteer is sent back and forth |
| AuthPage.Validate | src/pages/AuthPage.tsx:57-95 | an empty e-mail or password is refused in both modes; sign-up then checks the name, the confirmation, and a length of at least 6, in that order |
| AuthPage.LoginChecksOnlyPresence | src/pages/AuthPage.tsx:57-65 | a sign-in is refused only for a missing e-mail or password |
| AuthPage.AuthPageState.constructor | src/pages/AuthPage.tsx:19-22 | the mode from the query parameter; not loading |
| AuthPage.AuthPageState.HandleSubmit | src/pages/AuthPage.tsx:52-132 | a refused form makes no call; otherwise exactly one sign-up (with no role) or sign-in; loading ends |
| AdminAuthPage.RedirectsToAdmin | src/pages/AdminAuthPage.tsx:34-38 | once auth has settled, a signed-in administrator goes to `/admin`, and nobody else does |
| AdminAuthPage.AdminRedirectsAgree | src/pages/AdminAuthPage.tsx:34-38 | the administrator page redirects exactly when the sign-in page would send the user to `/admin` |
| AdminAuthPage.Validate | src/pages/AdminAuthPage.tsx:49-98 | an empty e-mail or password is refused in both modes; sign-up then checks name and phone, the admin code, the confirmation and the length, in that order: each rejection happens exactly when its check fails and every earlier check passed |
| AdminAuthPage.CodeGuardsSignUp | src/pages/AdminAuthPage.tsx:70-77 | no sign-up passes without the registration code |
| AdminAuthPage.AdminMetadata | src/pages/AdminAuthPage.tsx:101-112 | the metadata carries the name, the phone and `role: admin` |
| AdminAuthPage.OnlyAdminSignUpAsksForRole | src/pages/AdminAuthPage.tsx:101-112 | the admin sign-up asks for a role, while the volunteer sign-up does not |
| AdminAuthPage.SignUpWritesAfterAccount | src/pages/AdminAuthPage.tsx:101-137 | the sign-up comes first; a failed sign-up writes no profile; the only later write sets the phone and `approved` on the created user |
| AdminAuthPage.SignUpCalls | src/pages/AdminAuthPage.tsx:100-137 | the sign-up call comes first, redirecting to `/admin`; the profile write follows exactly when the sign-up succeeded with a user |
| AdminAuthPage.AdminAuthPageState.constructor | src/pages/AdminAuthPage.tsx:21-22 | login mode, not loading |
| AdminAuthPage.AdminAuthPageState.HandleSubmit | src/pages/AdminAuthPage.tsx:44-165 | a refused form makes no call; sign-in goes through the context; sign-up calls the service, then writes `approved` only after success; a failed profile write is only logged; no other table changes |
| AvatarUpload.Check | src/components/volunteer/AvatarUpload.tsx:23-41 | accepted exactly for an `image/` type of at most 5 MiB; the type is checked first |
| AvatarUpload.SizeBoundIsInclusive | src/components/volunteer/AvatarUpload.tsx:33-41 | exactly 5 MiB is accepted; one byte more is refused |
| AvatarUpload.StorageKey | src/components/volunteer/AvatarUpload.tsx:47-48 | the key is as long as the user id, `/avatar.` and the extension together |
| AvatarUpload.StorageKeyShape | src/components/volunteer/AvatarUpload.tsx:47-48 | the key is the user's folder plus `avatar.` and the text after the last dot (the whole name without a dot) |
| AvatarUpload.AvatarUrl | src/components/volunteer/AvatarUpload.tsx:58-62 | the address is longer than the public address plus `?t=` |
| AvatarUpload.AvatarUrlShape | src/components/volunteer/AvatarUpload.tsx:58-62 | the stored address is the public address plus `?t=` and the decimal timestamp, which reads back |
| AvatarUpload.UploadCalls | src/components/volunteer/AvatarUpload.tsx:51-70 | the upload with upsert comes first; a second call follows exactly when it succeeded |
| AvatarUpload.UpdateFollowsUpload | src/components/volunteer/AvatarUpload.tsx:51-70 | the upload comes first, with upsert; the profile is updated only after a successful upload |
| AvatarUpload.AvatarWidget.constructor | src/components/volunteer/AvatarUpload.tsx:14-15 | not uploading; the preview is the current address |
| AvatarUpload.AvatarWidget.HandleFileSelect | src/components/volunteer/AvatarUpload.tsx:19-89 | no file or a refused file makes no call and changes nothing; otherwise upload then update, preview and callback only after both succeed; only the profiles and the stored avatars change; uploading is over when it returns |
| AvatarUpload.AvatarWidget.Upload | src/components/volunteer/AvatarUpload.tsx:45-85 | the upload, the update only after it succeeded, preview and callback only after both succeeded; only the profiles and the stored avatars change |

## Left out

- Rendering: all JSX, dialogs, tabs, toasts, console logging, the landing page, `Navbar`, `Footer` and `Index`.
- Asynchrony: every handler is one atomic step.
  - Races are not modelled: the check-then-insert race on registration, the listener against `getSession`, and optimistic updates against refetches.
  - The listener's `setTimeout` deferral is an id returned to the caller, which then runs `FetchUserData`.
  - Refetches that are started but not awaited are the separate `FetchData` step.
  - `Promise.all` over the e-mail sends is one list of sends.
- Clock and locale:
  - tomorrow's date string is a parameter of `EventReminder.Remind`;
  - `Date.now()` is the `now` parameter of `AvatarUpload.AvatarWidget.HandleFileSelect`;
  - `toLocaleDateString` and the date filters of the administrator calendar are not modelled.
- Services:
  - the storage's `getPublicUrl` is the `publicUrl` parameter;
  - the user that sign-up returns to the admin page is the `created` parameter;
  - the mail service (Resend) is the list of e-mails handed to it;
  - the body of the `notify-admin-new-volunteer` function is not part of this model (the invocation is).
- Reads are not logged in `Backend.Store.calls`; only writes, invocations and auth calls are.
- Database behaviour:
  - `ORDER BY` and `LIMIT` clauses are ignored: a query returns rows in table order;
  - triggers are not modelled;
  - foreign keys are not enforced;
  - the status default of `task_assignments` is a parameter of the store.
- Export and print: XLSX, JSON and CSV export and the certificate print window.
- Certificates, attestation requests, messages beyond the unread count, and administrators' task and training creation are not modelled.
- `AdminDashboard.AdminPage.ShowEventDetails`: the event's registrations, which `fetchEventDetails` reads and joins for the dialog, are not modelled; only the current event and the dialog flag are.
- `PendingApprovalScreen` is a refresh button, and is not part of this model.
- `VolunteerDashboard.CompletionRate`: computed exactly; floating-point error in `Math.round(c / t * 100)` is left out.
- `Text.ToLower`: covers ASCII and Latin-1 letters only; full Unicode case mapping is left out.
- `AuthContext.AuthState.FetchUserData`: reads the whole profile row, where the context selects a subset of its columns.
- `AvatarUpload.AvatarWidget.HandleFileSelect`: `isUploading` is true only inside the call, so the contract states only that it is unchanged on a refused file and false afterwards.
- `RegistrationForm.InitialForm`: the model's initial data carries only what the onboarding page passes (first name, last name, e-mail, languages and the consents); every other `initialData?.x || default` field takes its default.
- `RegistrationForm.Form`: only the steps, consents, toggles, date and languages are modelled; the other `updateField` calls set one field each.
- `VolunteerDashboard.DashboardPage.FetchData`: the certificate count and the upcoming events are parameters.
- `AdminDashboard.AdminPage.FetchData`: the volunteers list does not carry the role merged in from `user_roles` (shown only as a badge), and the messages read always succeeds, whereas the code, which ignores that read's error, would count no unread messages after a failed read. The pending-requests count is a parameter. The stats' pending-registrations count keeps the previous list, as the code does, since React state is read before the update lands.
