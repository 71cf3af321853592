/**
 * app/routes/reminders.py: the reminder endpoints.
 *
 * Each handler takes the outcome of the `get_current_user` dependency (the
 * JWT decoding itself is not modelled) and the request's parsed parts, and
 * returns either the response body or an HTTP error. For a body that decodes
 * as JSON, dependency errors come first, then request validation (422), then
 * the handler body. An exception
 * the handler does not catch becomes a 500, since the application installs
 * no exception handlers.
 */
module Routes {
  import opened Wrappers
  import opened Db
  import Schemas
  import Time
  import Scheduling
  import Delivery

  /** The `User` the dependency yields. */
  datatype Caller = Caller(id: string, role: string)

  /** `get_current_user`: a caller, or the 401 detail it raised. */
  datatype Auth = Authenticated(user: Caller) | Unauthenticated(detail: string)

  /** A query parameter outside its `ge`/`le` bound. */
  datatype QueryError = Below(param: string, bound: int) | Above(param: string, bound: int)

  /** An error body: a message, the body's field errors, the query's bound errors, or an unhandled exception. */
  datatype Detail = Text(text: string) | Invalid(errors: seq<Schemas.FieldError>) | InvalidQuery(bounds: seq<QueryError>) | Unhandled

  /** A response: the body, or an error status and its detail. */
  datatype Reply<+T> = Ok(value: T) | Fail(status: nat, detail: Detail)

  const NotFound: string := "Reminder not found"
  const NotAuthorized: string := "Not authorized"
  const Forbidden: string := "Forbidden"
  const InvalidSignature: string := "Invalid signature"
  const InvalidPayload: string := "Invalid payload"

  /** The query defaults: `limit` 50, `offset` 0. */
  const DefaultLimit: int := 50
  const DefaultOffset: int := 0
  const MaxLimit: int := 200

  predicate IsAdmin(c: Caller)
  {
    c.role == "admin"
  }

  /** The rule shared by cancel, update and get: an admin, or the record's owner. */
  predicate MayAccess(c: Caller, r: Reminder)
  {
    IsAdmin(c) || r.userId == c.id
  }

  /** `Query(50, ge=1, le=200)` and `Query(0, ge=0)`. */
  function QueryErrors(limit: int, offset: int): (errs: seq<QueryError>)
    ensures errs == [] <==> 1 <= limit <= MaxLimit && 0 <= offset
  {
    (if limit < 1 then [Below("limit", 1)]
     else if limit > MaxLimit then [Above("limit", MaxLimit)]
     else [])
    + (if offset < 0 then [Below("offset", 0)] else [])
  }

  /** `model_dump(exclude_none=True)` of an update body, as the columns to set. */
  function FieldsOf(u: Schemas.ReminderUpdate): Fields
  {
    Fields(u.title, u.message, u.deliveryTime, u.channel, u.timezone, u.metadata)
  }

  /**
   * From a validated update body to the stored row: each field the body
   * carries replaces its column, each field it leaves out (or sends as null)
   * keeps the column, and id, owner, creation time and status never change.
   */
  lemma UpdateBodyToRow(r: Reminder, b: Schemas.ReminderInput)
    requires Schemas.ValidateUpdate(b).Success?
    ensures var u := ApplyFields(r, FieldsOf(Schemas.ValidateUpdate(b).value));
      && u.id == r.id && u.userId == r.userId && u.createdAt == r.createdAt && u.status == r.status
      && u.title == b.title.GetOr(r.title) && u.message == b.message.GetOr(r.message)
      && u.deliveryTime == b.deliveryTime.GetOr(r.deliveryTime) && u.channel == b.channel.GetOr(r.channel)
      && u.timezone == b.timezone.GetOr(r.timezone) && u.metadata == b.metadata.GetOr(r.metadata)
  {
  }

  function CancelledMessage(id: string): string
  {
    "Reminder " + id + " cancelled"
  }

  function UpdatedMessage(id: string): string
  {
    "Reminder " + id + " updated successfully"
  }

  /**
   * The create handlers' shared tail: rebuild the body as a `ReminderCreate`
   * with the owner (a failing re-validation is an unhandled 500), then
   * `create_reminder` (a rejected time or insert is an unhandled 500).
   */
  method CreateFor(sched: Scheduling.Scheduler, req: Schemas.ReminderCreateRequest, owner: string,
                   cal: Time.Calendar, now: int, freshId: string) returns (reply: Reply<Reminder>)
    requires sched.Valid()
    modifies sched, sched.store
    ensures sched.Valid()
    ensures sched.running == old(sched.running) && sched.periodic == old(sched.periodic)
    ensures var data := Schemas.ValidateReminderCreate(cal, Schemas.AsInput(req, Some(owner)));
      var created := if data.Success? then Scheduling.CreateOutcome(data.value, cal, now, freshId, old(sched.store.rows))
                     else Failure(Scheduling.StoreRejected);
      && (reply.Ok? <==> data.Success? && created.Success?)
      && (reply.Ok? ==>
            && reply.value == created.value
            && sched.store.rows == old(sched.store.rows)[freshId := reply.value]
            && sched.store.writes == old(sched.store.writes) + [Inserted(freshId)]
            && sched.jobs == Scheduling.JobsAfterCreate(old(sched.jobs), old(sched.running), freshId,
                                                        Time.ParseIsoUtc(cal, data.value.request.deliveryTime).value))
      && (reply.Fail? ==> reply == Fail(500, Unhandled) && sched.store.rows == old(sched.store.rows)
                          && sched.store.writes == old(sched.store.writes) && sched.jobs == old(sched.jobs))
  {
    var data := Schemas.ValidateReminderCreate(cal, Schemas.AsInput(req, Some(owner)));
    if data.Failure? {
      return Fail(500, Unhandled);
    }
    var r := sched.CreateReminder(data.value, cal, now, freshId);
    if r.Failure? {
      return Fail(500, Unhandled);
    }
    reply := Ok(r.value);
  }

  /** `POST /reminders`: the caller's own reminder. */
  method CreateReminder(sched: Scheduling.Scheduler, auth: Auth, body: Schemas.ReminderInput,
                        cal: Time.Calendar, now: int, freshId: string) returns (reply: Reply<Reminder>)
    requires sched.Valid()
    modifies sched, sched.store
    ensures sched.Valid()
    ensures auth.Unauthenticated? ==> reply == Fail(401, Text(auth.detail))
    ensures auth.Authenticated? && Schemas.ValidateCreateRequest(cal, body).Failure? ==>
      reply == Fail(422, Invalid(Schemas.ValidateCreateRequest(cal, body).error))
    ensures auth.Authenticated? && Schemas.ValidateCreateRequest(cal, body).Success? && reply.Fail? ==>
      reply == Fail(500, Unhandled)
    ensures reply.Ok? <==>
      && auth.Authenticated? && Schemas.ValidateCreateRequest(cal, body).Success?
      && Schemas.UserIdMinLength <= |auth.user.id| <= Schemas.UserIdMaxLength
      && Scheduling.CreateOutcome(Schemas.ReminderCreate(Schemas.ValidateCreateRequest(cal, body).value, Some(auth.user.id)),
                                  cal, now, freshId, old(sched.store.rows)).Success?
    ensures reply.Ok? ==>
      && reply.value == Scheduling.CreateOutcome(Schemas.ReminderCreate(Schemas.ValidateCreateRequest(cal, body).value, Some(auth.user.id)),
                                                 cal, now, freshId, old(sched.store.rows)).value
      && reply.value.userId == auth.user.id && reply.value.status == Scheduled
      && sched.store.rows == old(sched.store.rows)[freshId := reply.value]
      && sched.store.writes == old(sched.store.writes) + [Inserted(freshId)]
      && sched.jobs == Scheduling.JobsAfterCreate(old(sched.jobs), old(sched.running), freshId,
           Time.ParseIsoUtc(cal, Schemas.ValidateCreateRequest(cal, body).value.deliveryTime).value)
    ensures reply.Fail? ==>
      sched.store.rows == old(sched.store.rows) && sched.store.writes == old(sched.store.writes) && sched.jobs == old(sched.jobs)
    ensures sched.running == old(sched.running) && sched.periodic == old(sched.periodic)
  {
    if auth.Unauthenticated? {
      return Fail(401, Text(auth.detail));
    }
    var req := Schemas.ValidateCreateRequest(cal, body);
    if req.Failure? {
      return Fail(422, Invalid(req.error));
    }
    Schemas.RevalidateWithOwner(cal, body, auth.user.id);
    reply := CreateFor(sched, req.value, auth.user.id, cal, now, freshId);
  }

  /** `POST /admin/users/{uid}/reminders`: an admin creates a reminder owned by `uid`. */
  method AdminCreateReminder(sched: Scheduling.Scheduler, auth: Auth, uid: string, body: Schemas.ReminderInput,
                             cal: Time.Calendar, now: int, freshId: string) returns (reply: Reply<Reminder>)
    requires sched.Valid()
    modifies sched, sched.store
    ensures sched.Valid()
    ensures auth.Unauthenticated? ==> reply == Fail(401, Text(auth.detail))
    ensures auth.Authenticated? && !IsAdmin(auth.user) ==> reply == Fail(403, Text(Forbidden))
    ensures auth.Authenticated? && IsAdmin(auth.user) && Schemas.ValidateCreateRequest(cal, body).Failure? ==>
      reply == Fail(422, Invalid(Schemas.ValidateCreateRequest(cal, body).error))
    ensures auth.Authenticated? && IsAdmin(auth.user) && Schemas.ValidateCreateRequest(cal, body).Success? && reply.Fail? ==>
      reply == Fail(500, Unhandled)
    ensures reply.Ok? <==>
      && auth.Authenticated? && IsAdmin(auth.user) && Schemas.ValidateCreateRequest(cal, body).Success?
      && Schemas.UserIdMinLength <= |uid| <= Schemas.UserIdMaxLength
      && Scheduling.CreateOutcome(Schemas.ReminderCreate(Schemas.ValidateCreateRequest(cal, body).value, Some(uid)),
                                  cal, now, freshId, old(sched.store.rows)).Success?
    ensures reply.Ok? ==>
      && reply.value == Scheduling.CreateOutcome(Schemas.ReminderCreate(Schemas.ValidateCreateRequest(cal, body).value, Some(uid)),
                                                 cal, now, freshId, old(sched.store.rows)).value
      && reply.value.userId == uid && reply.value.status == Scheduled
      && sched.store.rows == old(sched.store.rows)[freshId := reply.value]
      && sched.store.writes == old(sched.store.writes) + [Inserted(freshId)]
      && sched.jobs == Scheduling.JobsAfterCreate(old(sched.jobs), old(sched.running), freshId,
           Time.ParseIsoUtc(cal, Schemas.ValidateCreateRequest(cal, body).value.deliveryTime).value)
    ensures reply.Fail? ==>
      sched.store.rows == old(sched.store.rows) && sched.store.writes == old(sched.store.writes) && sched.jobs == old(sched.jobs)
    ensures sched.running == old(sched.running) && sched.periodic == old(sched.periodic)
  {
    if auth.Unauthenticated? {
      return Fail(401, Text(auth.detail));
    }
    if !IsAdmin(auth.user) {
      return Fail(403, Text(Forbidden));
    }
    var req := Schemas.ValidateCreateRequest(cal, body);
    if req.Failure? {
      return Fail(422, Invalid(req.error));
    }
    Schemas.RevalidateWithOwner(cal, body, uid);
    reply := CreateFor(sched, req.value, uid, cal, now, freshId);
  }

  /**
   * `GET /users/{uid}/reminders`: a page of the newest first; a non-admin may
   * list only their own, an admin gets every user's rows whatever `uid` is;
   * an absent `limit` or `offset` takes its default.
   */
  method ListReminders(store: ReminderStore, auth: Auth, uid: string, limit: Option<int>, offset: Option<int>)
    returns (reply: Reply<seq<Reminder>>)
    requires store.Valid()
    ensures auth.Unauthenticated? ==> reply == Fail(401, Text(auth.detail))
    ensures auth.Authenticated? && QueryErrors(limit.GetOr(DefaultLimit), offset.GetOr(DefaultOffset)) != [] ==>
      reply == Fail(422, InvalidQuery(QueryErrors(limit.GetOr(DefaultLimit), offset.GetOr(DefaultOffset))))
    ensures auth.Authenticated? && QueryErrors(limit.GetOr(DefaultLimit), offset.GetOr(DefaultOffset)) == []
            && !IsAdmin(auth.user) && uid != auth.user.id ==>
      reply == Fail(403, Text(NotAuthorized))
    ensures auth.Authenticated? && QueryErrors(limit.GetOr(DefaultLimit), offset.GetOr(DefaultOffset)) == []
            && (IsAdmin(auth.user) || uid == auth.user.id) ==>
      reply.Ok?
    ensures reply.Ok? ==>
      && auth.Authenticated? && 1 <= limit.GetOr(DefaultLimit) <= MaxLimit && 0 <= offset.GetOr(DefaultOffset)
      && IsPage(reply.value, store.rows, uid, IsAdmin(auth.user), offset.GetOr(DefaultOffset), limit.GetOr(DefaultLimit))
      && |reply.value| <= limit.GetOr(DefaultLimit)
      && forall r :: r in reply.value ==> r.id in store.rows && MayAccess(auth.user, r)
  {
    if auth.Unauthenticated? {
      return Fail(401, Text(auth.detail));
    }
    var lim := limit.GetOr(DefaultLimit);
    var off := offset.GetOr(DefaultOffset);
    var errs := QueryErrors(lim, off);
    if errs != [] {
      return Fail(422, InvalidQuery(errs));
    }
    var isAdmin := IsAdmin(auth.user);
    if !isAdmin && uid != auth.user.id {
      return Fail(403, Text(NotAuthorized));
    }
    var rs := store.ListReminders(uid, lim, off, isAdmin);
    reply := Ok(rs);
  }

  /**
   * `POST /reminders/{rem_id}/cancel`: 404 before 403; then the job is
   * removed and the status set to cancelled, whatever it was. A running
   * scheduler without that job raises in `remove_job_safe`, so the status is
   * never written and the caller gets a 500.
   */
  method CancelReminder(sched: Scheduling.Scheduler, auth: Auth, id: string) returns (reply: Reply<string>)
    requires sched.Valid()
    modifies sched, sched.store
    ensures sched.Valid()
    ensures auth.Unauthenticated? ==> reply == Fail(401, Text(auth.detail))
    ensures auth.Authenticated? && id !in old(sched.store.rows) ==> reply == Fail(404, Text(NotFound))
    ensures auth.Authenticated? && id in old(sched.store.rows) && !MayAccess(auth.user, old(sched.store.rows)[id]) ==>
      reply == Fail(403, Text(NotAuthorized))
    ensures auth.Authenticated? && id in old(sched.store.rows) && MayAccess(auth.user, old(sched.store.rows)[id])
            && old(sched.running) && id !in old(sched.jobs) ==>
      reply == Fail(500, Unhandled)
    ensures reply.Ok? <==>
      && auth.Authenticated? && id in old(sched.store.rows) && MayAccess(auth.user, old(sched.store.rows)[id])
      && !(old(sched.running) && id !in old(sched.jobs))
    ensures reply.Ok? ==>
      && reply.value == CancelledMessage(id)
      && sched.store.rows == old(sched.store.rows)[id := old(sched.store.rows)[id].(status := Cancelled)]
      && sched.store.writes == old(sched.store.writes) + [StatusSet(id, Cancelled)]
      && sched.jobs == (if old(sched.running) then old(sched.jobs) - {id} else old(sched.jobs))
    ensures reply.Fail? ==> sched.store.rows == old(sched.store.rows) && sched.store.writes == old(sched.store.writes)
    ensures reply.Fail? ==> sched.jobs == old(sched.jobs)
    ensures sched.running == old(sched.running) && sched.periodic == old(sched.periodic)
  {
    if auth.Unauthenticated? {
      return Fail(401, Text(auth.detail));
    }
    var rem := sched.store.Get(id);
    if rem.None? {
      return Fail(404, Text(NotFound));
    }
    if !MayAccess(auth.user, rem.value) {
      return Fail(403, Text(NotAuthorized));
    }
    var raised := sched.RemoveJobSafe(id);
    if raised {
      return Fail(500, Unhandled);
    }
    sched.store.UpdateStatus(id, Cancelled);
    reply := Ok(CancelledMessage(id));
  }

  /**
   * `POST /webhooks/trigger_reminder`: the signature is checked before the
   * body is parsed; a body that is not a valid `ReminderCreate` is a 400; the
   * owner is then overwritten with the caller's id without validation.
   */
  method WebhookTrigger(sched: Scheduling.Scheduler, auth: Auth, signatureOk: bool, body: Option<Schemas.ReminderInput>,
                        cal: Time.Calendar, now: int, freshId: string) returns (reply: Reply<Reminder>)
    requires sched.Valid()
    modifies sched, sched.store
    ensures sched.Valid()
    ensures auth.Unauthenticated? ==> reply == Fail(401, Text(auth.detail))
    ensures auth.Authenticated? && !signatureOk ==> reply == Fail(401, Text(InvalidSignature))
    ensures auth.Authenticated? && signatureOk && (body.None? || Schemas.ValidateReminderCreate(cal, body.value).Failure?) ==>
      reply == Fail(400, Text(InvalidPayload))
    ensures auth.Authenticated? && signatureOk && body.Some? && Schemas.ValidateReminderCreate(cal, body.value).Success?
            && reply.Fail? ==>
      reply == Fail(500, Unhandled)
    ensures reply.Ok? <==>
      && auth.Authenticated? && signatureOk && body.Some?
      && Schemas.ValidateReminderCreate(cal, body.value).Success?
      && Scheduling.CreateOutcome(Schemas.ValidateReminderCreate(cal, body.value).value.(userId := Some(auth.user.id)),
                                  cal, now, freshId, old(sched.store.rows)).Success?
    ensures reply.Ok? ==>
      var owned := Schemas.ValidateReminderCreate(cal, body.value).value.(userId := Some(auth.user.id));
      && reply.value == Scheduling.CreateOutcome(owned, cal, now, freshId, old(sched.store.rows)).value
      && reply.value.userId == auth.user.id && reply.value.status == Scheduled
      && sched.store.rows == old(sched.store.rows)[freshId := reply.value]
      && sched.store.writes == old(sched.store.writes) + [Inserted(freshId)]
      && sched.jobs == Scheduling.JobsAfterCreate(old(sched.jobs), old(sched.running), freshId,
                                                  Time.ParseIsoUtc(cal, owned.request.deliveryTime).value)
    ensures reply.Fail? ==>
      sched.store.rows == old(sched.store.rows) && sched.store.writes == old(sched.store.writes) && sched.jobs == old(sched.jobs)
    ensures sched.running == old(sched.running) && sched.periodic == old(sched.periodic)
  {
    if auth.Unauthenticated? {
      return Fail(401, Text(auth.detail));
    }
    if !signatureOk {
      return Fail(401, Text(InvalidSignature));
    }
    if body.None? {
      return Fail(400, Text(InvalidPayload));
    }
    var payload := Schemas.ValidateReminderCreate(cal, body.value);
    if payload.Failure? {
      return Fail(400, Text(InvalidPayload));
    }
    var owned := payload.value.(userId := Some(auth.user.id));
    var r := sched.CreateReminder(owned, cal, now, freshId);
    if r.Failure? {
      return Fail(500, Unhandled);
    }
    reply := Ok(r.value);
  }

  /**
   * `PUT /reminders/{rem_id}`: the given fields overwrite the stored ones,
   * delivery_time included and unchecked; status and the scheduled job are
   * left as they are.
   */
  method UpdateReminder(sched: Scheduling.Scheduler, auth: Auth, id: string, body: Schemas.ReminderInput)
    returns (reply: Reply<string>)
    requires sched.Valid()
    modifies sched.store
    ensures sched.Valid()
    ensures auth.Unauthenticated? ==> reply == Fail(401, Text(auth.detail))
    ensures auth.Authenticated? && Schemas.ValidateUpdate(body).Failure? ==>
      reply == Fail(422, Invalid(Schemas.ValidateUpdate(body).error))
    ensures auth.Authenticated? && Schemas.ValidateUpdate(body).Success? && id !in old(sched.store.rows) ==>
      reply == Fail(404, Text(NotFound))
    ensures auth.Authenticated? && Schemas.ValidateUpdate(body).Success? && id in old(sched.store.rows)
            && !MayAccess(auth.user, old(sched.store.rows)[id]) ==>
      reply == Fail(403, Text(NotAuthorized))
    ensures reply.Ok? <==>
      && auth.Authenticated? && Schemas.ValidateUpdate(body).Success?
      && id in old(sched.store.rows) && MayAccess(auth.user, old(sched.store.rows)[id])
    ensures reply.Ok? ==>
      var f := FieldsOf(Schemas.ValidateUpdate(body).value);
      && reply.value == UpdatedMessage(id)
      && sched.store.rows == old(sched.store.rows)[id := ApplyFields(old(sched.store.rows)[id], f)]
      && sched.store.writes == old(sched.store.writes) + [FieldsSet(id, f)]
    ensures reply.Fail? ==> sched.store.rows == old(sched.store.rows) && sched.store.writes == old(sched.store.writes)
  {
    if auth.Unauthenticated? {
      return Fail(401, Text(auth.detail));
    }
    var patch := Schemas.ValidateUpdate(body);
    if patch.Failure? {
      return Fail(422, Invalid(patch.error));
    }
    var rem := sched.store.Get(id);
    if rem.None? {
      return Fail(404, Text(NotFound));
    }
    if !MayAccess(auth.user, rem.value) {
      return Fail(403, Text(NotAuthorized));
    }
    var _ := sched.store.UpdateReminder(id, FieldsOf(patch.value));
    reply := Ok(UpdatedMessage(id));
  }

  /** `GET /reminders/{rem_id}`: 404 before 403; an admin sees any record, anyone else only their own. */
  function GetReminder(store: ReminderStore, auth: Auth, id: string): (reply: Reply<Reminder>)
    reads store
    ensures auth.Unauthenticated? ==> reply == Fail(401, Text(auth.detail))
    ensures auth.Authenticated? && id !in store.rows ==> reply == Fail(404, Text(NotFound))
    ensures auth.Authenticated? && id in store.rows && !MayAccess(auth.user, store.rows[id]) ==>
      reply == Fail(403, Text(NotAuthorized))
    ensures reply.Ok? <==> auth.Authenticated? && id in store.rows && MayAccess(auth.user, store.rows[id])
    ensures reply.Ok? ==> reply.value == store.rows[id]
  {
    if auth.Unauthenticated? then Fail(401, Text(auth.detail))
    else match store.Get(id)
      case None => Fail(404, Text(NotFound))
      case Some(r) => if MayAccess(auth.user, r) then Ok(r) else Fail(403, Text(NotAuthorized))
  }

  /**
   * After a successful cancel, neither the reminder's own timer (had it still
   * fired) nor any later due sweep delivers it or writes its status again.
   */
  lemma CancelledIsNeverDelivered(rows: map<string, Reminder>, id: string, ids: seq<string>,
                                  outcome: Reminder -> Delivery.Outcome)
    requires id in rows
    ensures var cancelled := rows[id := rows[id].(status := Cancelled)];
      && Scheduling.DeliverStep(cancelled, id, outcome) == Scheduling.Step(cancelled, [], false)
      && id in Scheduling.Sweep(cancelled, ids, outcome).rows && Scheduling.Sweep(cancelled, ids, outcome).rows[id] == cancelled[id]
      && forall w :: w in Scheduling.Sweep(cancelled, ids, outcome).writes ==> !Scheduling.WritesTo(w, id)
  {
    var cancelled := rows[id := rows[id].(status := Cancelled)];
    Scheduling.SweepLeavesSettled(cancelled, ids, outcome, id);
  }
}
