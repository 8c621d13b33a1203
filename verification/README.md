# Vehicle service bookings: a Dafny model

This project models the core of a vehicle-service marketplace. A user files a
service request (a booking) with a servicer. The servicer accepts it (or turns
it down), submits a diagnosis and the user approves it. The servicer then logs
work-progress entries and completes the job, which raises a payment request.
The user pays, and may then leave one feedback. Each feedback recomputes the
servicer's rating as the mean of its feedback ratings to one decimal place.

Around that lifecycle the model covers:

- what the pages derive from bookings: diagnosis visibility, the approve
  action, the chronological progress timeline, and the pending-payment and
  work-history lists;
- the registration form's field checks (phone, email, password);
- the data migration that renames stored account roles from lower case to
  upper case, and its reverse.

Modules:

- `Models` (`models.dfy`): the entities, the stored string vocabulary, the
  frame predicates and the `Consistent` invariant.
- `Lifecycle` (`lifecycle.dfy`): the guarded transitions. Each is a total
  function from a booking, an actor and the inputs to a `Step(outcome,
  booking)`.
- `LifecycleProps` (`lifecycle_props.dfy`): properties over all commands and
  over runs of commands.
- `Views` (`views.dfy`): the derived views.
- `Rating` (`rating.dfy`): the rounded mean, computed exactly in tenths.
- `Settlement` (`settlement.dfy`): feedback submission over a store of
  bookings, together with the rating update.
- `Registration` (`registration.dfy`): the form field checks.
- `RoleMigration` (`role_migration.dfy`): the role data migration.

`accounts/views.py` (lines 1-43) defines only the login, registration and
home pages. The handlers that `accounts/urls.py` (lines 12-36) routes to are
not defined there, so their behaviour is taken from the test suites, which
state the guards and effects of each route.
Every transition is defined on every booking value, including states that only
test fixtures produce, such as a Pending booking with an approved diagnosis.

Outcomes:

- `NotFound`: the booking belongs to another party. The route answers 404.
- `Forbidden`: the caller's role may not use the route at all.
- `WrongState`: a lifecycle guard fails. The route redirects and changes
  nothing.
- `AlreadyDone`: the effect is already in place, as when approving or paying
  twice.
- `Invalid`: the input is malformed.

Every outcome other than `Done` returns the booking unchanged. Each
transition's contract says exactly when each outcome occurs, so a failed
lifecycle guard is always reported as `WrongState`.

The source and the behaviour the tests expect differ in two places. The model
follows the tests.

- `accounts/models.py` lists an older booking status set, with "Accepted" and
  without "Pending". The tests' shared constants still define an "Accepted"
  value, but no test uses it: every test puts an accepted booking in Pending.
  `Models.ParseStatus` reads the stale "Accepted" as no status at all.
- Approving when no diagnosis exists is a guard failure (a redirect), not a
  not-found answer.

Ratings are whole tenths. A rating field holds two digits with one decimal,
so 0..99 tenths, and the default is 45 (4.5). The mean is rounded half-up on
the exact rational value. The tests never hit a tie, so this is a choice:
`Rating.Examples` records that [5,4,4,4], whose mean is 4.25, gives 4.3.

## Model

| member | source | states |
|---|---|---|
| Models.NewBooking | accounts/models.py:106 | A new booking is Requested (stored as "Requested"), with no pickup, diagnosis, progress, payment or feedback. |
| Models.ParseStatus | accounts/tests/test_utils.py:28-34 | A parsed booking status label prints back as the same label. |
| Models.StatusVocabularyRoundTrip | accounts/tests/test_utils.py:28-34 | Every booking status reads back from its stored label. |
| Models.AcceptedIsNotAStatus | accounts/models.py:82-88 | The stale "Accepted" choice is not one of the statuses the lifecycle uses. |
| Models.ParsePayment | accounts/tests/test_utils.py:36-38 | A parsed payment status label prints back as the same label. |
| Models.PaymentVocabularyRoundTrip | accounts/tests/test_utils.py:36-38 | Every payment status reads back from its stored label. |
| Models.ParseProgress | accounts/models.py:30-34 | A parsed progress label prints back as the same label. |
| Models.ProgressVocabularyRoundTrip | accounts/models.py:30-34 | The progress labels Pending, In Progress and Completed read back as the status they came from. |
| Lifecycle.Accept | accounts/tests/test_booking_lifecycle.py:109-139 | Succeeds exactly for the assigned servicer on a Requested booking. It then sets Pending and the pickup choice and appends "Request Accepted" ("Service request accepted", stamped with the request time), with nothing else changed. A wrong role is Forbidden, another servicer gets NotFound, any other status is WrongState, and any failure leaves the booking unchanged (lines 318-346). |
| Lifecycle.Reject | accounts/urls.py:32 | Succeeds exactly for the assigned servicer on a Requested booking and only sets Rejected. A wrong role is Forbidden, another servicer gets NotFound, any other status is WrongState, and any failure leaves the booking unchanged. |
| Lifecycle.SubmitDiagnosis | accounts/tests/test_booking_lifecycle.py:141-177 | Succeeds exactly for the assigned servicer on a Pending booking without a diagnosis. It stores exactly the diagnosis built from the inputs (report, work items, estimated cost, estimated completion time), unapproved, keeps the status and appends one entry, "Diagnosis Submitted", described by the report and stamped with the request time. A second submission is AlreadyDone and keeps the first diagnosis. Outside Pending the outcome is WrongState and nothing is created (lines 348-381). |
| Lifecycle.ApproveDiagnosis | accounts/tests/test_diagnosis_flow.py:186-387 | Succeeds exactly for the owner on a Pending booking with an unapproved diagnosis, setting Ongoing and approved. A repeat is AlreadyDone. With no diagnosis, or an unapproved one outside Pending, the outcome is WrongState and nothing changes. Another user gets NotFound. |
| Lifecycle.AddProgress | accounts/tests/test_work_progress.py:40-238 | Succeeds exactly for the assigned servicer on an Ongoing booking with an approved diagnosis. It appends one In Progress entry with the given title, description and time and changes nothing else. Any other status or diagnosis state is WrongState, and every other case creates no entry. |
| Lifecycle.Complete | accounts/tests/test_booking_lifecycle.py:248-305 | Succeeds exactly for the assigned servicer on an Ongoing booking with a non-empty log and a positive amount. It sets Completed, requests payment with status Pending, stores the amount and notes, and appends "Service Completed" labelled Completed, described by the notes and stamped with the request time. A wrong status or an empty log is WrongState, and every other case leaves the booking unchanged (lines 421-493). |
| Lifecycle.ProcessPayment | accounts/tests/test_payment_flow.py:344-467 | Succeeds exactly for the owner on a Completed booking whose payment is Pending, and sets only Paid and the payment date. A repeat is AlreadyDone. Any other status, or no payment request, is WrongState. Another user gets NotFound and nothing changes. |
| Lifecycle.SubmitFeedback | accounts/tests/test_feedback.py:40-257 | Succeeds exactly for the owner of a Completed, Paid booking without feedback, with a rating of 1..5 and a non-empty message (lines 632-755). It records the rating, message, user, servicer and booking. A booking not Completed and Paid is WrongState, a bad rating or message is Invalid, and a second submission is AlreadyDone and keeps the first. |
| LifecycleProps.ApplyMovesAlongLifecycle | accounts/tests/test_booking_lifecycle.py:506-584 | The status only moves Requested→Pending→Ongoing→Completed or Requested→Rejected, or stays put. |
| LifecycleProps.FailureChangesNothing | accounts/tests/test_booking_lifecycle.py:318-493 | Every command that does not succeed returns the booking unchanged. |
| LifecycleProps.OwnershipIsScoped | accounts/tests/test_diagnosis_flow.py:350-387 | A caller of the right role who is not the booking's party gets NotFound, and a caller of the wrong role gets Forbidden. Neither changes the booking. |
| LifecycleProps.ApplyKeepsHistory | accounts/tests/test_work_progress.py:455-499 | No command edits or removes a progress entry, changes the parties or rewrites the diagnosis beyond approving it. No command touches an existing feedback, and at most one entry is appended. |
| LifecycleProps.TerminalStatuses | accounts/models.py:85 | Rejected and Completed are never left, and Rejected is entered only from Requested by a reject. |
| LifecycleProps.ApplyKeepsConsistent | accounts/tests/test_booking_lifecycle.py:78-91 | Every command preserves the consistency invariant linking status, diagnosis approval, payment fields and feedback. |
| LifecycleProps.RunKeepsConsistent | accounts/tests/test_booking_lifecycle.py:506-584 | Any sequence of requests, failed ones included, preserves the consistency invariant. |
| LifecycleProps.ReachableIsConsistent | accounts/tests/test_booking_lifecycle.py:78-91 | Every booking reachable from a new one satisfies the invariant. |
| LifecycleProps.CompleteLogGuardOnlyOnSeeded | accounts/tests/test_booking_lifecycle.py:454-493 | On every booking reached from a new one, an Ongoing booking already holds the two automatic entries. So Complete's "at least one progress entry" guard never fails there, and only seeded bookings with an empty log meet it. |
| LifecycleProps.CompleteWithoutManualProgress | accounts/tests/test_payment_flow.py:41-64 | Accept, diagnose, approve and complete succeed with no manual progress update logged. |
| LifecycleProps.RunKeepsHistory | accounts/urls.py:33-35 | Over any run, earlier progress entries survive unchanged, the parties stay the same, and an existing feedback is kept. |
| LifecycleProps.ApproveIsIdempotent | accounts/tests/test_diagnosis_flow.py:228-278 | A second approve reports AlreadyDone and leaves the booking Ongoing and approved. |
| LifecycleProps.PaymentIsIdempotent | accounts/tests/test_payment_flow.py:344-393 | A second payment reports AlreadyDone and keeps Paid and the first payment date. |
| LifecycleProps.FeedbackIsOnce | accounts/tests/test_feedback.py:198-257 | A second feedback for the booking is refused and the first one is kept. |
| LifecycleProps.AddAllAppendsEach | accounts/tests/test_work_progress.py:557-623 | n accepted updates append exactly n entries, in order, each In Progress with its own title, description and time, with the booking otherwise unchanged. |
| LifecycleProps.HappyPath | accounts/tests/test_booking_lifecycle.py:506-584 | The full walk request→accept→diagnose→approve→progress→complete→pay→feedback succeeds at each step with the expected statuses. |
| Views.VisibleDiagnosis | accounts/tests/test_diagnosis_flow.py:44-173 | The owner sees the diagnosis exactly when the booking is Pending and has one. |
| Views.ApproveOfferedMatchesGuard | accounts/tests/test_diagnosis_flow.py:400-471 | The approve action is offered exactly when approving would succeed for the owner. When it is not offered, approving changes nothing. |
| Views.VisibilityFlow | accounts/tests/test_diagnosis_flow.py:484-546 | Visibility goes hidden → shown (after submission) → hidden (after approval). |
| Views.InsertByTime | accounts/tests/test_work_progress.py:376-442 | Inserting into a chronological timeline keeps it chronological and adds exactly the new entry. |
| Views.Timeline | accounts/tests/test_work_progress.py:376-442 | The listed log is ordered oldest first and is a permutation of the stored log. |
| Views.InsertLatestAppends | accounts/tests/test_work_progress.py:376-442 | An entry no older than the timeline goes at its end. |
| Views.TimelineKeepsChronologicalLog | accounts/tests/test_work_progress.py:376-442 | A log written at increasing times is listed in creation order. |
| LifecycleProps.ApplyStampsNewEntry | accounts/models.py:53 | Every entry a command adds carries the time of the request. |
| LifecycleProps.ApplyKeepsChronological | accounts/tests/test_work_progress.py:376-442 | A command no earlier than the log's entries keeps the log in time order and leaves no entry newer than the command. |
| LifecycleProps.RunKeepsChronological | accounts/tests/test_work_progress.py:376-442 | Requests in time order, none earlier than the existing entries, keep the log in time order over the whole run. |
| LifecycleProps.TimelineShowsRunLog | accounts/tests/test_work_progress.py:376-442 | For a new booking driven by requests in time order, the timeline lists the log exactly in the order it was written. |
| Views.Select | accounts/tests/test_payment_flow.py:208-331 | A booking is selected exactly when it is in the input and meets the filter, and it appears as many times as it occurs in the input. |
| Views.SelectAppend | accounts/tests/test_payment_flow.py:208-331 | Selection keeps the input's order: selecting from a concatenation is concatenating the selections. |
| Views.PendingPayments | accounts/tests/test_payment_flow.py:208-331 | The list holds exactly the user's bookings whose payment is Pending, each as often as it occurs, so a booking stored once is listed once. Paid bookings and other users' bookings are left out. |
| Views.WorkHistory | accounts/tests/test_payment_flow.py:480-566 | The list holds exactly the user's Completed and Paid bookings, each as often as it occurs. |
| Views.ListsKeepOrder | accounts/tests/test_payment_flow.py:208-331 | Both lists keep the order of the bookings they are drawn from. |
| Views.PaymentMovesToHistory | accounts/tests/test_payment_flow.py:344-393 | A successful payment moves the booking from the pending-payment list into the work history. |
| Rating.RoundedMeanUnique | accounts/models.py:68 | At most one number of tenths is the half-up rounded mean of a sum over n ratings. |
| Rating.MeanTenths | accounts/tests/test_feedback.py:304-433 | The result is the mean of the ratings rounded half-up to one decimal, in tenths. |
| Rating.AggregateRating | accounts/tests/test_feedback.py:304-433 | With feedback, the rating is the rounded mean. Without feedback, the prior rating is kept. |
| Rating.SumOfStars | accounts/tests/test_feedback.py:813-819 | n ratings of 1..5 stars sum to between n and 5n. |
| Rating.TenthsBounds | accounts/tests/test_feedback.py:813-819 | A rounded mean of such a sum lies in 1.0..5.0. |
| Rating.MeanOfStarsInRange | accounts/tests/test_feedback.py:813-819 | The aggregated rating of 1..5-star feedback lies in 1.0..5.0. |
| Rating.Examples | accounts/tests/test_feedback.py:435-498 | [5]→5.0, [5,4]→4.5, [5,4,3]→4.0 and [5,4,4]→4.3. The tie [5,4,4,4]→4.3 shows half-up rounding. |
| Settlement.FeedbackRatingsAfterUpdate | accounts/tests/test_feedback.py:304-433 | A new feedback adds exactly its rating to its servicer's ratings and leaves every other servicer's ratings unchanged. |
| Settlement.FeedbackRatingsAreStars | accounts/tests/test_feedback.py:712-755 | If every stored feedback has 1..5 stars, so does each servicer's list of ratings. |
| Settlement.SubmitFeedbackAt | accounts/tests/test_feedback.py:304-433 | An unknown booking gives NotFound. For a known booking the outcome is exactly the booking-level feedback outcome, so every eligible feedback is accepted and a second one is refused as already done. Any failure changes nothing. On success the booking is updated and the servicer's rating becomes the rounded mean of all its feedback. No other servicer's rating changes. |
| Settlement.SubmitFeedbackRating | accounts/models.py:68 | Each accepted feedback sets the rating to the rounded mean of the previous ratings plus the new one. The result lies in 1.0..5.0, fits the two-digit field, and keeps all stored ratings within 1..5. |
| Settlement.NoFeedbackNoRatings | accounts/tests/test_feedback.py:304-433 | Bookings without feedback contribute no ratings. |
| Settlement.ThreeFeedbacks | accounts/tests/test_feedback.py:304-433 | From the default 4.5, feedbacks of 5, 4 and 3 stars give 5.0, then 4.5, then 4.0. |
| Registration.CleanPhone | accounts/forms.py:21-27 | A phone is accepted exactly when it is ten decimal digits, and is returned unchanged. The digit error is reported exactly when some character is not a digit (or the phone is empty). The length error is reported exactly when every character is a digit but there are not ten of them. |
| Registration.CleanPhoneField | accounts/forms.py:10 | The field refuses more than ten characters, and only those, with the too-long error. For ten characters or fewer the result is exactly the phone check's, so "12a" is a digit error. |
| Registration.CleanEmail | accounts/forms.py:29-34 | An email is refused exactly when an account already uses it, and is otherwise returned unchanged. |
| Registration.CleanPassword1 | accounts/forms.py:36-61 | The password is accepted exactly when all five checks pass (length ≥ 8, upper case, lower case, digit, match). It is then returned unchanged. Otherwise the error reported is the first failing check in that order. |
| Registration.MissingConfirmationIsNotChecked | accounts/forms.py:58-59 | With an empty or absent confirmation, only the four strength checks decide. |
| Registration.PhoneExamples | accounts/tests/test_authentication.py:275-343 | 1234567890 is accepted. 123456789 and 12345678901 have the wrong length, and 123456789a has a non-digit. |
| Registration.PasswordExamples | accounts/forms.py:36-61 | TestPass123 is accepted when confirmed, refused against TestPass456 when a confirmation is supplied, and Short1 is too short. |
| Registration.FormNeverReportsMismatch | accounts/forms.py:14-59 | With password1 cleaned before password2, the confirmation is absent when the first password is checked. The mismatch error is then never reported, and only the four strength checks decide. |
| Registration.WeakPasswordExamples | accounts/forms.py:46-56 | A password missing an upper-case letter, a lower-case letter or a digit is refused for that class. |
| RoleMigration.ForwardTable | accounts/migrations/0008_update_user_role_choices.py:6-20 | user, servicer and admin map to USER, SERVICER and ADMIN, the old default maps to the new default, and every other value is kept. |
| RoleMigration.BackwardTable | accounts/migrations/0008_update_user_role_choices.py:23-37 | USER, SERVICER and ADMIN map back to lower case, and every other value is kept. |
| RoleMigration.RoundTrip | accounts/migrations/0008_update_user_role_choices.py:6-37 | Reverse after forward is the identity off {USER, SERVICER, ADMIN}, and forward after reverse is the identity off {user, servicer, admin}. Both directions are idempotent. |
| RoleMigration.UpperCaseDoesNotRoundTrip | accounts/migrations/0008_update_user_role_choices.py:6-37 | A role already stored as USER comes back as user. |
| RoleMigration.MigrateForward | accounts/migrations/0008_update_user_role_choices.py:17-20 | Every record keeps its position and all its fields except the role, which is mapped forward. |
| RoleMigration.MigrateBackward | accounts/migrations/0008_update_user_role_choices.py:34-37 | Every record keeps its position and all its fields except the role, which is mapped back. |
| RoleMigration.MigrateRoundTrip | accounts/migrations/0008_update_user_role_choices.py:46-51 | Migrating forward and then back restores a table that held no upper-case role. |

## Left out

- Login, logout, sessions and role-based redirects: the model has an abstract actor with a role and an owner check instead.
- Looking up the servicer record an account manages: a servicer actor's id is that record's id.
- The site settings singleton, background images and the work-seeding command: these are file and database I/O outside the booking core.
- URL routing, HTTP status codes and templates: only the not-found versus rejected distinction is kept, as outcomes.
- Wall-clock time: `updatedAt` and the payment date are abstract naturals supplied by the caller.
- Unicode: the digit, upper-case and lower-case classes are ASCII, where Python's string methods accept any Unicode digit or cased letter.
- Database uniqueness errors, transactions and concurrent requests: each transition acts on one booking value at a time.
- Vehicle attributes, preferred date, complaints and photo upload: these are stored data that no guard reads.
- Lifecycle.Reject: the rejection reason and any audit entry are not modelled, because no test states them.
- Lifecycle.Complete: a non-positive final amount is refused as Invalid, after the state guards. The tests never send one.
- Lifecycle.Complete: the "at least one progress entry" guard counts every entry, including the automatic "Request Accepted" and "Diagnosis Submitted" entries. So a booking walked through the lifecycle can be completed without any manual progress update. The tests only exercise the guard on seeded bookings with an empty log, and the model does not require a manual update.
- Lifecycle.Accept: the progress label of the "Request Accepted" entry (and of "Diagnosis Submitted") is taken as Pending, because no test asserts it. The descriptions of the automatic entries are chosen too: "Service request accepted" for acceptance, the report for a diagnosis and the notes for completion. The tests assert only the titles.
- Registration.CleanPhoneField: whitespace stripping and the required-field check of the form framework are not modelled, so an empty phone reaches the digit check and fails there.
- Registration.CleanPassword1: the confirmation is a parameter, so the mismatch branch can be exercised. In the form it is never taken: password1 is declared and cleaned before password2, so the confirmation is not in the cleaned data yet when this check runs (see `Registration.FormNeverReportsMismatch`). The mismatch error the form does report comes from the framework's own check on the confirmation field, which is not part of this model.
- Registration.CleanEmail: the registered addresses are a parameter, standing in for the database query.
- RoleMigration.MigrateForward: saving each record is collapsed into producing the new sequence of records. The schema change of the role field is kept only as its choices and default constants.
