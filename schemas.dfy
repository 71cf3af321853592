/**
 * app/schemas/reminder.py: the request bodies and their field constraints.
 *
 * A body arrives as a `ReminderInput`, where a field the client left out is
 * `None`; validation either yields the schema value, with its defaults filled
 * in, or the list of field errors, in field order, as pydantic reports them.
 */
module Schemas {
  import opened Wrappers
  import Time

  /** `Dict[str, Any]`, with values narrowed to strings. */
  type Metadata = map<string, string>

  const TitleMinLength: nat := 1
  const TitleMaxLength: nat := 120
  const MessageMinLength: nat := 1
  const MessageMaxLength: nat := 1000
  const UserIdMinLength: nat := 3
  const UserIdMaxLength: nat := 256
  const DefaultMethod: string := "email"
  const DefaultTimezone: string := "UTC"
  const IsoError: string := "delivery_time must be ISO 8601"

  /** The `Method` literal type (the field is called `method` in the source; `method` is a Dafny keyword). */
  predicate IsMethod(m: string)
  {
    m == "email" || m == "sms"
  }

  datatype Violation = Missing | TooShort | TooLong | NotAMethod | ValueError(message: string)

  datatype FieldError = FieldError(field: string, violation: Violation)

  /** A JSON body as the validator sees it. */
  datatype ReminderInput = ReminderInput(
    title: Option<string>,
    message: Option<string>,
    deliveryTime: Option<string>,
    channel: Option<string>,
    timezone: Option<string>,
    metadata: Option<Metadata>,
    userId: Option<string>)

  datatype ReminderCreateRequest = ReminderCreateRequest(
    title: string,
    message: string,
    deliveryTime: string,
    channel: string,
    timezone: string,
    metadata: Metadata)

  /** `ReminderCreate` extends the request with the optional owner. */
  datatype ReminderCreate = ReminderCreate(request: ReminderCreateRequest, userId: Option<string>)

  datatype ReminderUpdate = ReminderUpdate(
    title: Option<string>,
    message: Option<string>,
    deliveryTime: Option<string>,
    channel: Option<string>,
    timezone: Option<string>,
    metadata: Option<Metadata>)

  function LengthErrors(field: string, v: string, lo: nat, hi: nat): seq<FieldError>
  {
    if |v| < lo then [FieldError(field, TooShort)]
    else if |v| > hi then [FieldError(field, TooLong)]
    else []
  }

  function RequiredLengthErrors(field: string, v: Option<string>, lo: nat, hi: nat): seq<FieldError>
  {
    if v.None? then [FieldError(field, Missing)] else LengthErrors(field, v.value, lo, hi)
  }

  function OptionalLengthErrors(field: string, v: Option<string>, lo: nat, hi: nat): seq<FieldError>
  {
    if v.None? then [] else LengthErrors(field, v.value, lo, hi)
  }

  function MethodErrors(v: Option<string>): seq<FieldError>
  {
    if v.Some? && !IsMethod(v.value) then [FieldError("method", NotAMethod)] else []
  }

  /**
   * The `validate_iso` field validator: the normalised string when it parses,
   * the fixed message otherwise. What it returns is already normalised and
   * denotes the same instant as its input.
   */
  function ValidateIso(cal: Time.Calendar, v: string): (r: Result<string, string>)
    ensures r.Success? <==> Time.ParseIsoUtc(cal, v).Some?
    ensures r.Success? ==> Time.NormalizeZ(r.value) == r.value
    ensures r.Success? ==> Time.ParseIsoUtc(cal, r.value) == Time.ParseIsoUtc(cal, v)
    ensures r.Failure? ==> r.error == IsoError
  {
    var n := Time.NormalizeZ(v);
    Time.NormalizeZIdempotent(v);
    if cal.parse(n).Some? then Success(n) else Failure(IsoError)
  }

  function DeliveryTimeErrors(cal: Time.Calendar, v: Option<string>): seq<FieldError>
  {
    if v.None? then [FieldError("delivery_time", Missing)]
    else match ValidateIso(cal, v.value)
      case Success(_) => []
      case Failure(m) => [FieldError("delivery_time", ValueError(m))]
  }

  function RequestErrors(cal: Time.Calendar, b: ReminderInput): seq<FieldError>
  {
    RequiredLengthErrors("title", b.title, TitleMinLength, TitleMaxLength)
    + RequiredLengthErrors("message", b.message, MessageMinLength, MessageMaxLength)
    + DeliveryTimeErrors(cal, b.deliveryTime)
    + MethodErrors(b.channel)
  }

  /** `ReminderCreateRequest(**body)`. */
  function ValidateCreateRequest(cal: Time.Calendar, b: ReminderInput): (r: Result<ReminderCreateRequest, seq<FieldError>>)
    ensures r.Success? <==>
      && b.title.Some? && TitleMinLength <= |b.title.value| <= TitleMaxLength
      && b.message.Some? && MessageMinLength <= |b.message.value| <= MessageMaxLength
      && b.deliveryTime.Some? && Time.ParseIsoUtc(cal, b.deliveryTime.value).Some?
      && (b.channel.None? || IsMethod(b.channel.value))
    ensures r.Success? ==>
      && r.value.title == b.title.value
      && r.value.message == b.message.value
      && r.value.deliveryTime == Time.NormalizeZ(b.deliveryTime.value)
      && r.value.channel == b.channel.GetOr(DefaultMethod)
      && IsMethod(r.value.channel)
      && r.value.timezone == b.timezone.GetOr(DefaultTimezone)
      && r.value.metadata == b.metadata.GetOr(map[])
    ensures r.Failure? ==> r.error != []
  {
    var errors := RequestErrors(cal, b);
    if errors != [] then Failure(errors)
    else Success(ReminderCreateRequest(
      b.title.value, b.message.value, Time.NormalizeZ(b.deliveryTime.value),
      b.channel.GetOr(DefaultMethod), b.timezone.GetOr(DefaultTimezone), b.metadata.GetOr(map[])))
  }

  /** `ReminderCreate(**body)`: the request's constraints plus an optional owner of 3 to 256 characters. */
  function ValidateReminderCreate(cal: Time.Calendar, b: ReminderInput): (r: Result<ReminderCreate, seq<FieldError>>)
    ensures r.Success? <==>
      ValidateCreateRequest(cal, b).Success?
      && (b.userId.None? || UserIdMinLength <= |b.userId.value| <= UserIdMaxLength)
    ensures r.Success? ==> r.value == ReminderCreate(ValidateCreateRequest(cal, b).value, b.userId)
    ensures r.Failure? ==> r.error != []
  {
    var errors := RequestErrors(cal, b) + OptionalLengthErrors("user_id", b.userId, UserIdMinLength, UserIdMaxLength);
    if errors != [] then Failure(errors)
    else Success(ReminderCreate(ValidateCreateRequest(cal, b).value, b.userId))
  }

  /**
   * `ReminderUpdate(**body)`: every field optional; a present title, message
   * or method obeys the create bounds; delivery_time is taken as it is, with
   * neither a format check nor the "Z" rewrite.
   */
  function ValidateUpdate(b: ReminderInput): (r: Result<ReminderUpdate, seq<FieldError>>)
    ensures r.Success? <==>
      && (b.title.None? || TitleMinLength <= |b.title.value| <= TitleMaxLength)
      && (b.message.None? || MessageMinLength <= |b.message.value| <= MessageMaxLength)
      && (b.channel.None? || IsMethod(b.channel.value))
    ensures r.Success? ==>
      r.value == ReminderUpdate(b.title, b.message, b.deliveryTime, b.channel, b.timezone, b.metadata)
    ensures r.Failure? ==> r.error != []
  {
    var errors :=
      OptionalLengthErrors("title", b.title, TitleMinLength, TitleMaxLength)
      + OptionalLengthErrors("message", b.message, MessageMinLength, MessageMaxLength)
      + MethodErrors(b.channel);
    if errors != [] then Failure(errors)
    else Success(ReminderUpdate(b.title, b.message, b.deliveryTime, b.channel, b.timezone, b.metadata))
  }

  /** `model_dump()` of a validated request, fed back as keyword arguments with an owner. */
  function AsInput(req: ReminderCreateRequest, userId: Option<string>): ReminderInput
  {
    ReminderInput(Some(req.title), Some(req.message), Some(req.deliveryTime), Some(req.channel),
                  Some(req.timezone), Some(req.metadata), userId)
  }

  /**
   * Re-validating a validated request (as the create handlers do when they add
   * the owner) reproduces it unchanged, since `validate_iso` is idempotent; it
   * fails exactly when the owner's length is out of bounds.
   */
  lemma RevalidateWithOwner(cal: Time.Calendar, b: ReminderInput, owner: string)
    requires ValidateCreateRequest(cal, b).Success?
    ensures var req := ValidateCreateRequest(cal, b).value;
      (ValidateReminderCreate(cal, AsInput(req, Some(owner))).Success?
       <==> UserIdMinLength <= |owner| <= UserIdMaxLength)
    ensures var req := ValidateCreateRequest(cal, b).value;
      ValidateReminderCreate(cal, AsInput(req, Some(owner))).Success? ==>
        ValidateReminderCreate(cal, AsInput(req, Some(owner))).value == ReminderCreate(req, Some(owner))
  {
    var req := ValidateCreateRequest(cal, b).value;
    Time.ParseIsoUtcOfNormalized(cal, b.deliveryTime.value);
    Time.NormalizeZIdempotent(b.deliveryTime.value);
    assert ValidateCreateRequest(cal, AsInput(req, Some(owner))) == Success(req);
  }
}
