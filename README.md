# Healthcare reminders: the reminder lifecycle, modelled in Dafny

This project models the reminder lifecycle of the healthcare reminder service
(a FastAPI application backed by SQLAlchemy and APScheduler). It proves
properties of the model:

- **Request schemas** (`schemas.dfy`, module `Schemas`). Field bounds and
  defaults, the `delivery_time` validator and its "Z" rewrite, and the
  all-optional update body.
- **Time helpers** (`time.dfy`, module `Time`). `now_utc_iso` and
  `parse_iso_utc` over an abstract calendar. Instants are integers; parsing
  and rendering are the calendar's two functions.
- **Store** (`db.dfy`, module `Db`). The `reminders` table is a map from
  primary key to row inside a `ReminderStore` object. Each method of the
  object is one statement of `db.py`. The object also keeps a ghost log of
  the statements executed, so that "nothing written" and "exactly one status
  write" can be stated.
  - TEXT columns compare as strings (`lexorder.dfy`, module `LexOrder`).
  - `ORDER BY created_at DESC` is a selection loop, proved to list each row
    once, newest first.
- **Delivery** (`delivery.dfy`, module `Delivery`).
  - Dispatch on the delivery method.
  - The fake-sender path taken when credentials are missing.
  - The tenacity retry policy (3 attempts, exponential waits clamped to
    1..10 s), proved against an attempt oracle that says which attempts
    return.
- **Scheduler** (`scheduler.dfy`, module `Scheduling`). A `Scheduler` object
  holds the running flag, the one-shot job table and the recurring jobs. Its
  methods are `_deliver`, `create_reminder`, `remove_job_safe`,
  `_check_due_fallback`, start-up and shut-down.
  - The due sweep is proved against a specification function `Sweep`.
  - Lemmas about `Sweep`: a reminder that is no longer scheduled is never
    delivered again; each reminder's status is written at most once per
    sweep; the first delivery that raises ends the sweep.
- **Routes** (`routes.dfy`, module `Routes`). The seven endpoints, with
  FastAPI's order of errors for a body that decodes as JSON:
  - authentication (401) and `require_admin` (403) first;
  - then request validation (422);
  - then the handler.

  An exception a handler does not catch is a 500.

The clock, fresh UUIDs, the HMAC check and the providers' behaviour are
parameters of the operations.

The model follows the code, including these behaviours:

- A due sweep stops at the first delivery that raises. It does not go on to
  the next reminder.
- The nightly purge deletes every row older than the cutoff, whatever its
  status.
- Cancel sets the status to cancelled even when the reminder was already
  sent or failed.
- Cancel is a 500, with nothing written, when the scheduler is running and
  no job with that id exists. This happens after the job fired, or when the
  reminder was created while the scheduler was stopped. The reason:
  APScheduler's `JobLookupError` is not among the exceptions
  `remove_job_safe` catches.

## Model

| member | source | states |
|---|---|---|
| LexOrder.LexLeReflexive | app/services/db.py:49 | every TEXT value sorts at or before itself |
| LexOrder.LexLeAntisymmetric | app/services/db.py:49 | two TEXT values that each sort at or before the other are equal |
| LexOrder.LexLeTransitive | app/services/db.py:49 | the string order used by ORDER BY is transitive |
| LexOrder.LexLeTotal | app/services/db.py:49 | any two TEXT values are comparable, so ORDER BY created_at is defined on every table |
| LexOrder.LexLtIsStrict | app/services/db.py:78 | `created_at < cutoff` holds exactly when the value sorts at or before the cutoff and differs from it |
| Time.ReplaceAllAppend | app/utils/time.py:9 | `str.replace` works piecewise over a concatenation |
| Time.ReplaceAllRemoves | app/utils/time.py:9 | after replacing every "Z" by "+00:00" no "Z" is left |
| Time.ReplaceAllAbsent | app/utils/time.py:9 | replacing a character that does not occur changes nothing |
| Time.ParseIsoUtc | app/utils/time.py:7-11 | a value without a trailing "Z" is parsed as written; a value "…Z" with no other "Z" is parsed as "…+00:00" |
| Time.NowUtcIso | app/utils/time.py:4-5 | for a calendar whose rendering parses back, the current-time string parses to the current instant |
| Time.NormalizeZShape | app/utils/time.py:8-9 | a value ending in "Z" loses every "Z"; any other value is kept as it is |
| Time.NormalizeZEndsWithOffset | app/utils/time.py:8-9 | a value ending in "Z" ends in "+00:00" after the rewrite |
| Time.NormalizeZIdempotent | app/schemas/reminder.py:47-48 | rewriting twice is rewriting once |
| Time.ParseIsoUtcOfNormalized | app/utils/time.py:7-11 | `parse_iso_utc` of a validated (rewritten) delivery_time is the instant of the original text |
| Schemas.ValidateIso | app/schemas/reminder.py:43-53 | accepts exactly the strings `parse_iso_utc` accepts; returns the rewritten string, which parses to the same instant; otherwise fails with "delivery_time must be ISO 8601" |
| Schemas.ValidateCreateRequest | app/schemas/reminder.py:7-53 | succeeds iff title is 1..120 characters, message is 1..1000, delivery_time is ISO 8601 and method is "email" or "sms"; fills in the defaults "email", "UTC" and an empty metadata; stores the rewritten delivery_time; otherwise reports at least one field error |
| Schemas.ValidateReminderCreate | app/schemas/reminder.py:57-64 | the request's constraints, plus an optional owner of 3..256 characters, both ways |
| Schemas.ValidateUpdate | app/schemas/reminder.py:68-102 | every field optional; a present title, message or method must meet the create bounds; delivery_time passes unchecked and without the rewrite |
| Schemas.RevalidateWithOwner | app/routes/reminders.py:24 | rebuilding `ReminderCreate` from a validated body and an owner gives back the same body with that owner, and fails exactly when the owner is not 3..256 characters |
| Db.ApplyFields | app/services/db.py:84-92 | the given columns are overwritten; every other column is kept, and so are id, owner, creation time and status |
| Db.Enumerate | app/services/db.py:52-53 | a query result holds each matching row exactly once |
| Db.OrderByNewest | app/services/db.py:49 | each row exactly once, ordered by created_at descending |
| Db.ReminderStore.constructor | app/services/db.py:24-25 | a freshly created table is empty and has seen no statements |
| Db.ReminderStore.InsertReminder | app/services/db.py:27-30 | a new primary key adds the row and one INSERT; a taken key changes nothing |
| Db.ReminderStore.UpdateStatus | app/services/db.py:32-35 | only the status of the row with that id changes; the UPDATE is one statement even when no row matches |
| Db.ReminderStore.Get | app/services/db.py:37-40 | the row stored under the primary key, which carries that key; None iff no row has it |
| Db.ReminderStore.Exists | app/services/db.py:42-45 | `exists` agrees with `get` |
| Db.ReminderStore.ListReminders | app/services/db.py:47-53 | the page at `offset` of the visible rows (all rows for an admin, else the user's), newest first, at most `limit` long |
| Db.ReminderStore.FetchDue | app/services/db.py:55-59 | exactly the scheduled rows whose delivery_time sorts at or before `upto`, each once |
| Db.ReminderStore.CleanupOldReminders | app/services/db.py:74-81 | deletes exactly the rows created before the cutoff, keeps every other row unchanged, and returns the number deleted |
| Db.ReminderStore.UpdateReminder | app/services/db.py:84-99 | an existing row becomes `ApplyFields` of itself; a missing id changes nothing and gives None; one UPDATE either way |
| Db.PurgeIgnoresStatus | app/services/db.py:78 | a still-scheduled reminder older than the cutoff is purged too |
| Delivery.HasSmtp | app/services/delivery.py:9-10 | SMTP counts as configured iff host, user and password are all non-empty |
| Delivery.HasTwilio | app/services/delivery.py:12-13 | Twilio counts as configured iff account SID, auth token and sender are all non-empty |
| Delivery.Pow2Monotone | app/services/delivery.py:15 | the exponential wait grows with the attempt number |
| Delivery.Wait | app/services/delivery.py:15 | every wait lies between 1 and 10 seconds |
| Delivery.WaitMonotone | app/services/delivery.py:15 | waits never shrink from one attempt to the next |
| Delivery.BackoffShape | app/services/delivery.py:15 | k waits, each in 1..10, non-decreasing |
| Delivery.BackoffOfThreeAttempts | app/services/delivery.py:15 | three failed attempts wait 1 s, then 2 s |
| Delivery.Retry | app/services/delivery.py:15 | 1..3 attempts; succeeds iff one of the first three attempts returns, and then at the first such attempt; on failure all three were made; the waits between attempts follow the backoff |
| Delivery.SendEmail | app/services/delivery.py:15-28 | without full SMTP settings: one attempt, True, nothing sent; with them: a mail from the SMTP user to the owner with title and message, True iff an attempt within three returns, the first such attempt ends the retries, and a failure made all three |
| Delivery.SendSms | app/services/delivery.py:30-38 | without full Twilio settings: one attempt, True, nothing sent; with them: a text from TWILIO_FROM with body "title - message", True iff an attempt within three returns, the first such attempt ends the retries, and a failure made all three |
| Delivery.Dispatch | app/services/delivery.py:41-45 | a record without a method goes by email |
| Delivery.Deliver | app/services/delivery.py:40-47 | the outcome is `DeliveryOutcome`; the message goes out over the record's method; without that method's credentials the report is the sender's single successful attempt with nothing sent; with them the attempts follow the retry policy, the backoff waits included; an unsupported method sends nothing |
| Delivery.NotSentOnlyWhenUnsupported | app/services/delivery.py:40-47 | `deliver` returns False exactly for a method other than email or sms; otherwise it returns True or raises |
| Delivery.NoCredentialsMeansSent | app/services/delivery.py:17-19 | with no provider configured, email and sms always count as sent |
| Delivery.DefaultsHaveNoCredentials | app/config.py:12-20 | the default settings configure neither SMTP nor Twilio |
| Scheduling.DeliverStep | app/services/scheduler.py:14-22 | `_deliver` writes at most one status, raises only after writing it, and leaves an existing reminder no longer scheduled; a settled reminder is left alone |
| Scheduling.DeliverStepEffect | app/services/scheduler.py:14-22 | a missing or no-longer-scheduled reminder is left alone; a scheduled one gets exactly one status write, "sent" iff delivery returned True, "failed" otherwise (also when it raised, which propagates) |
| Scheduling.DeliverTwice | app/services/scheduler.py:15-17 | a second `_deliver` of the same reminder writes nothing, whatever the provider does |
| Scheduling.DeliverStepFrame | app/services/scheduler.py:14-22 | `_deliver` changes no other row and never touches a settled row |
| Scheduling.Sweep | app/services/scheduler.py:46-49 | the sweep processes every listed id unless one raises |
| Scheduling.SweepStopsAtRaise | app/services/scheduler.py:48-49 | ids after the first raising delivery are never reached |
| Scheduling.SweepResume | app/services/scheduler.py:48-49 | a sweep part-way through: one more `_deliver` either ends it (on a raise) or leaves the remaining ids to go |
| Scheduling.SweepKeepsKeys | app/services/scheduler.py:46-49 | a sweep neither inserts nor deletes rows |
| Scheduling.SweepLeavesUnlisted | app/services/scheduler.py:48-49 | rows not listed are left untouched |
| Scheduling.SweepLeavesSettled | app/services/scheduler.py:16-17 | a sent, failed or cancelled reminder is neither changed nor written by a sweep |
| Scheduling.SweepSettlesProcessed | app/services/scheduler.py:46-49 | every reminder the sweep reached is no longer scheduled afterwards |
| Scheduling.SweepWritesScheduled | app/services/scheduler.py:46-49 | every status a sweep writes goes to a reminder that was scheduled before it |
| Scheduling.SweepWritesOncePerReminder | app/services/scheduler.py:46-49 | no reminder's status is written twice in one sweep, even if listed twice |
| Scheduling.TimerThenSweep | app/services/scheduler.py:34 | once a reminder's timer has run `_deliver`, a later sweep writes nothing for it |
| Scheduling.CreateOutcome | app/services/scheduler.py:24-37 | succeeds iff the delivery time parses to an instant after now, an owner is given and the id is not taken; rejected as not ISO 8601 iff it does not parse, as "not in the future" iff it parses to an instant not after now; on success the record has the fresh id, the owner, the request's title, message, method, timezone and metadata, status scheduled, the rendered instant and the creation time now |
| Scheduling.Scheduler.constructor | app/services/scheduler.py:12 | the handle starts not running, with no jobs |
| Scheduling.Scheduler.Deliver | app/services/scheduler.py:14-22 | the table and statement log move exactly as `DeliverStep` says; raises iff delivery raised |
| Scheduling.Scheduler.CreateReminder | app/services/scheduler.py:24-37 | returns `CreateOutcome`; on success inserts the record, and adds a job at its instant only while running and only if the id has no job yet; on failure nothing changes |
| Scheduling.Scheduler.RemoveJobSafe | app/services/scheduler.py:39-44 | while running, the job is removed, and a missing job raises; when not running, nothing happens; the store is untouched |
| Scheduling.Scheduler.CheckDueFallback | app/services/scheduler.py:46-49 | fetches exactly the due rows as of now, then moves the table exactly as `Sweep` over their ids |
| Scheduling.Scheduler.DeliverEach | app/services/scheduler.py:48-49 | the loop over the due ids moves the table and log exactly as `Sweep`, reporting how many were processed and whether one raised |
| Scheduling.Scheduler.FireJob | app/services/scheduler.py:34 | a date job fires only while running, only if present, and only once its run date has come; it is consumed and runs `_deliver` |
| Scheduling.Scheduler.Startup | app/services/scheduler.py:51-58 | idempotent while running; otherwise a fresh scheduler with no date jobs and exactly the one-minute sweep and the midnight cleanup |
| Scheduling.Scheduler.Shutdown | app/services/scheduler.py:60-62 | afterwards the scheduler is not running; jobs are kept |
| Routes.QueryErrors | app/routes/reminders.py:58-59 | no error iff 1 <= limit <= 200 and offset >= 0 |
| Routes.UpdateBodyToRow | app/routes/reminders.py:128-129 | after `model_dump(exclude_none=True)` and the UPDATE, each field the body carries replaces its column, each absent field keeps it, and id, owner, creation time and status are unchanged |
| Routes.CreateFor | app/routes/reminders.py:24-25 | succeeds iff re-validation with the owner and `create_reminder` both succeed; a success stores the record with one INSERT and adds its job only while the scheduler runs and no job has that id; any failure is a 500 with nothing stored and the jobs unchanged |
| Routes.CreateReminder | app/routes/reminders.py:23-25 | 401, then 422 for an invalid body; after a valid body every failure is a 500 (the `create_reminder` exception is not caught); succeeds iff the caller is authenticated, the body is valid, the caller's id is 3..256 characters and `create_reminder` succeeds; the created reminder is `create_reminder`'s record, owned by the caller and stored as scheduled with one INSERT; its job is added only while the scheduler runs and no job has that id; a failure leaves table, log and jobs as they were; the running flag and the recurring jobs never change |
| Routes.AdminCreateReminder | app/routes/reminders.py:38-44 | 401, 403 "Forbidden" for a non-admin, 422; after a valid body every failure is a 500; succeeds iff the caller is an admin, the body is valid, `uid` is 3..256 characters and `create_reminder` succeeds; the created reminder is `create_reminder`'s record, owned by `uid`, stored with one INSERT, and its job is added only while the scheduler runs and no job has that id; a failure leaves table, log and jobs as they were; the running flag and the recurring jobs never change |
| Routes.ListReminders | app/routes/reminders.py:56-67 | an absent `limit` is 50 and an absent `offset` 0; 401, then 422 for limit or offset out of range, then 403 "Not authorized" when a non-admin lists another user; otherwise it succeeds, with the page of rows the caller may see, newest first |
| Routes.CancelReminder | app/routes/reminders.py:78-88 | 404 before 403; a 500 when the scheduler is running and has no job with that id; succeeds iff the caller may access the reminder and its job can be removed; then status becomes cancelled whatever it was, with exactly one write; every failure writes nothing and leaves the jobs as they were |
| Routes.WebhookTrigger | app/routes/reminders.py:99-114 | 401 for a bad signature before the body is parsed; 400 "Invalid payload" for a body that is not a valid `ReminderCreate`; after a valid payload every failure is a 500; the reminder is owned by the caller whatever the body said; succeeds iff signature, body and `create_reminder` all succeed, and the stored record is `create_reminder`'s, with its job added only while the scheduler runs and no job has that id; a failure leaves table, log and jobs as they were |
| Routes.UpdateReminder | app/routes/reminders.py:122-132 | 422, 404, 403 in that order; on success the given fields overwrite the row with one UPDATE, and status and jobs are untouched |
| Routes.GetReminder | app/routes/reminders.py:137-145 | 401, then 404 for a missing id, then 403 "Not authorized" for a caller who is neither admin nor owner; the record is returned iff the caller is an admin or its owner |
| Routes.CancelledIsNeverDelivered | app/routes/reminders.py:84-85 | after a cancel, neither the reminder's timer nor any later sweep delivers it or writes its status |

## Left out

- I/O is not modelled: SMTP sessions, Twilio calls, log lines and prints. A
  send is the message it would send plus an oracle of which attempts return.
- Actual sleeping between retries is not modelled; only the wait durations
  are computed.
- APScheduler's background threads and timers are not modelled. Operations
  run one at a time, and a timer firing is the explicit step
  `Scheduling.Scheduler.FireJob`.
- The recurring jobs are records of what start-up registers. Their firing
  is the caller invoking `CheckDueFallback` or `CleanupOldReminders`.
- The clock is a parameter. `create_reminder` reads it twice (the future
  check and `created_at`); the model uses one instant for both.
- `uuid4` is a fresh-id parameter.
- `datetime.fromisoformat`, `astimezone` and `isoformat` are an abstract
  calendar (parse to an instant, render an instant). Offsets, microseconds
  and leap seconds are inside that abstraction.
- Db.ReminderStore.CleanupOldReminders: the SQL `strftime`/`datetime('now')`
  cutoff and the Python fallback cutoff are not computed. The cutoff is a
  parameter, and both branches delete with the same comparison.
- JWT decoding and the 401 messages of `get_current_user` are not modelled.
  The dependency's outcome is the `Routes.Auth` parameter.
- The HMAC computation is not modelled. The signature check is a boolean
  parameter of `Routes.WebhookTrigger`, and an undecodable body is `None`.
- Metadata values are strings (`map<string, string>`), not arbitrary JSON.
- Schemas.ValidateCreateRequest: an explicit JSON `null` is treated like an
  absent field. In the create body `method`, `timezone` and
  `reminder_metadata` have defaults but are not Optional
  (app/schemas/reminder.py:27-41), so the service rejects a `null` there
  with a 422. The model cannot tell `null` from absent, so it fills in the
  default and accepts the body. A `null` title, message or delivery_time is
  a 422 in both. In the update body, where every field is Optional, `null`
  and absent agree.
- The 422 detail is a list of field errors, not FastAPI's exact JSON.
- Response serialisation through `ReminderOut` (which drops `timezone`) is
  not modelled. Handlers return the full record.
- Routes.UpdateReminder: a body with no fields is modelled as an UPDATE that
  sets nothing. What SQLAlchemy does with an empty SET clause is not
  modelled.
- Routes.ListReminders: the SQL `LIMIT`/`OFFSET` for values outside the
  accepted range never reaches the store, so the store takes natural
  numbers.
- Db.ReminderStore.UpdateReminder: the returned value is the updated row as
  `RETURNING` yields it. The source reads it from the ORM object after the
  commit, when the session may have expired its attributes. Session expiry is
  not modelled; no caller uses the value.
- For a request body that is not valid JSON, FastAPI answers 422 while
  decoding it, before the authentication dependency runs. The model starts
  from a decoded body, so for it authentication always comes first.
- TEXT comparison and `ORDER BY` follow SQLite's default BINARY collation:
  character by character. On Postgres they follow the database collation,
  which is not modelled.
- A collision between a reminder id and the recurring jobs' generated ids is
  not modelled.
