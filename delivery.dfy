/**
 * app/services/delivery.py: dispatch on the delivery method, the two senders,
 * and the retry policy tenacity wraps around each sender
 * (`stop_after_attempt(3)`, `wait_exponential(multiplier=1, min=1, max=10)`).
 *
 * The SMTP and Twilio calls are not modelled; what an attempt does is given by
 * an oracle `succeeds: nat -> bool`, where `succeeds(n)` says whether attempt
 * number n returned (true) or raised (false). A sender never returns False:
 * an attempt either returns True or raises.
 */
module Delivery {
  import opened Wrappers

  /** The settings the senders read (app/config.py). */
  datatype Settings = Settings(
    smtpHost: string,
    smtpUser: string,
    smtpPass: string,
    twilioAccountSid: string,
    twilioAuthToken: string,
    twilioFrom: string)

  /** The defaults of app/config.py. */
  const DefaultSettings: Settings := Settings("smtp.gmail.com", "", "", "", "", "")

  /** Python's `all` over strings: every one is truthy, that is, non-empty. */
  function AllSet(xs: seq<string>): (b: bool)
    ensures b <==> forall i :: 0 <= i < |xs| ==> xs[i] != ""
  {
    xs == [] || (xs[0] != "" && AllSet(xs[1..]))
  }

  /** `_has_smtp`: configured iff host, user and password are all non-empty. */
  function HasSmtp(s: Settings): (b: bool)
    ensures b <==> s.smtpHost != "" && s.smtpUser != "" && s.smtpPass != ""
  {
    var xs := [s.smtpHost, s.smtpUser, s.smtpPass];
    assert xs[0] == s.smtpHost && xs[1] == s.smtpUser && xs[2] == s.smtpPass;
    AllSet(xs)
  }

  /** `_has_twilio`: configured iff account SID, token and sender are all non-empty. */
  function HasTwilio(s: Settings): (b: bool)
    ensures b <==> s.twilioAccountSid != "" && s.twilioAuthToken != "" && s.twilioFrom != ""
  {
    var xs := [s.twilioAccountSid, s.twilioAuthToken, s.twilioFrom];
    assert xs[0] == s.twilioAccountSid && xs[1] == s.twilioAuthToken && xs[2] == s.twilioFrom;
    AllSet(xs)
  }

  const MaxAttempts: nat := 3
  const WaitMultiplier: nat := 1
  const WaitMin: int := 1
  const WaitMax: int := 10

  function Pow2(n: nat): (p: nat)
    ensures p >= 1
  {
    if n == 0 then 1 else 2 * Pow2(n - 1)
  }

  lemma {:induction false} Pow2Monotone(m: nat, n: nat)
    requires m <= n
    ensures Pow2(m) <= Pow2(n)
  {
    if m < n {
      Pow2Monotone(m, n - 1);
    }
  }

  function Max(a: int, b: int): int
  {
    if a >= b then a else b
  }

  function Min(a: int, b: int): int
  {
    if a <= b then a else b
  }

  /** tenacity's exponential wait after failed attempt number `attempt`, in seconds. */
  function Wait(attempt: nat): (w: int)
    requires attempt >= 1
    ensures WaitMin <= w <= WaitMax
  {
    Max(Max(0, WaitMin), Min(WaitMultiplier * Pow2(attempt - 1), WaitMax))
  }

  /** Later waits are never shorter. */
  lemma WaitMonotone(m: nat, n: nat)
    requires 1 <= m <= n
    ensures Wait(m) <= Wait(n)
  {
    Pow2Monotone(m - 1, n - 1);
  }

  /** The waits slept before attempts 2 .. k + 1. */
  function Backoff(k: nat): seq<int>
  {
    seq(k, i requires 0 <= i < k => Wait(i + 1))
  }

  /** Every wait lies in [1, 10] seconds and the waits are non-decreasing. */
  lemma BackoffShape(k: nat)
    ensures |Backoff(k)| == k
    ensures forall i :: 0 <= i < k ==> WaitMin <= Backoff(k)[i] <= WaitMax
    ensures forall i, j :: 0 <= i <= j < k ==> Backoff(k)[i] <= Backoff(k)[j]
  {
    forall i, j | 0 <= i <= j < k
      ensures Backoff(k)[i] <= Backoff(k)[j]
    {
      WaitMonotone(i + 1, j + 1);
    }
  }

  /** With three attempts the policy sleeps at most twice: 1 s, then 2 s. */
  lemma BackoffOfThreeAttempts()
    ensures Backoff(MaxAttempts - 1) == [1, 2]
  {
    assert Pow2(1) == 2;
  }

  ghost predicate SucceedsWithin(succeeds: nat -> bool, k: nat)
  {
    exists n :: 1 <= n <= k && succeeds(n)
  }

  /** The attempts one decorated call makes: whether the last returned, how many, and the waits between. */
  datatype Attempts = Attempts(ok: bool, count: nat, waits: seq<int>)

  /**
   * The retry decorator as a loop: attempt, and on a raise sleep the
   * exponential wait and try again, at most three times; the first attempt
   * that returns ends the loop.
   */
  method Retry(succeeds: nat -> bool) returns (a: Attempts)
    ensures 1 <= a.count <= MaxAttempts
    ensures a.ok == succeeds(a.count)
    ensures forall n :: 1 <= n < a.count ==> !succeeds(n)
    ensures !a.ok ==> a.count == MaxAttempts
    ensures a.ok <==> SucceedsWithin(succeeds, MaxAttempts)
    ensures a.waits == Backoff(a.count - 1)
  {
    var n: nat := 1;
    var ok := succeeds(1);
    var waits: seq<int> := [];
    while !ok && n < MaxAttempts
      invariant 1 <= n <= MaxAttempts
      invariant ok == succeeds(n)
      invariant forall j :: 1 <= j < n ==> !succeeds(j)
      invariant waits == Backoff(n - 1)
    {
      waits := waits + [Wait(n)];
      n := n + 1;
      ok := succeeds(n);
    }
    a := Attempts(ok, n, waits);
  }

  /**
   * The attempts follow the retry policy for this oracle: the last attempt's
   * result is the call's, every earlier one raised, a failing call made all
   * three, and the sleeps between them are the exponential backoff.
   */
  predicate RetriedAs(a: Attempts, succeeds: nat -> bool)
  {
    && 1 <= a.count <= MaxAttempts
    && a.ok == succeeds(a.count)
    && (forall n :: 1 <= n < a.count ==> !succeeds(n))
    && (!a.ok ==> a.count == MaxAttempts)
    && a.waits == Backoff(a.count - 1)
  }

  /** What a sender hands to its provider. */
  datatype Outgoing =
    | Mail(sender: string, to: string, subject: string, body: string)
    | Text(sender: string, to: string, body: string)

  /** The body `send_sms` gives Twilio. */
  function SmsBody(subject: string, body: string): string
  {
    subject + " - " + body
  }

  /** One decorated send: its attempts, and the message handed to the provider (None on the credential-less path). */
  datatype SendReport = SendReport(attempts: Attempts, outgoing: Option<Outgoing>)

  function AlwaysReturns(n: nat): bool
  {
    true
  }

  /**
   * `send_email`: without complete SMTP settings the first attempt returns
   * True without contacting anyone; otherwise each attempt sends the mail,
   * and the call returns True iff one of the three attempts returns.
   */
  method SendEmail(cfg: Settings, to: string, subject: string, body: string, succeeds: nat -> bool) returns (r: SendReport)
    ensures r.attempts.ok <==> !HasSmtp(cfg) || SucceedsWithin(succeeds, MaxAttempts)
    ensures !HasSmtp(cfg) ==> r.outgoing.None? && r.attempts == Attempts(true, 1, [])
    ensures HasSmtp(cfg) ==> r.outgoing == Some(Mail(cfg.smtpUser, to, subject, body))
    ensures HasSmtp(cfg) ==> RetriedAs(r.attempts, succeeds)
    ensures 1 <= r.attempts.count <= MaxAttempts && r.attempts.waits == Backoff(r.attempts.count - 1)
  {
    if !HasSmtp(cfg) {
      var a := Retry(AlwaysReturns);
      assert AlwaysReturns(1) && Backoff(0) == [];
      r := SendReport(a, None);
    } else {
      var a := Retry(succeeds);
      r := SendReport(a, Some(Mail(cfg.smtpUser, to, subject, body)));
    }
  }

  /** `send_sms`: as `send_email`, with the Twilio settings and the body "subject - body". */
  method SendSms(cfg: Settings, to: string, subject: string, body: string, succeeds: nat -> bool) returns (r: SendReport)
    ensures r.attempts.ok <==> !HasTwilio(cfg) || SucceedsWithin(succeeds, MaxAttempts)
    ensures !HasTwilio(cfg) ==> r.outgoing.None? && r.attempts == Attempts(true, 1, [])
    ensures HasTwilio(cfg) ==> r.outgoing == Some(Text(cfg.twilioFrom, to, SmsBody(subject, body)))
    ensures HasTwilio(cfg) ==> RetriedAs(r.attempts, succeeds)
    ensures 1 <= r.attempts.count <= MaxAttempts && r.attempts.waits == Backoff(r.attempts.count - 1)
  {
    if !HasTwilio(cfg) {
      var a := Retry(AlwaysReturns);
      assert AlwaysReturns(1) && Backoff(0) == [];
      r := SendReport(a, None);
    } else {
      var a := Retry(succeeds);
      r := SendReport(a, Some(Text(cfg.twilioFrom, to, SmsBody(subject, body))));
    }
  }

  /** The fields of the record dict `deliver` reads; `channel` is the optional "method" key. */
  datatype Payload = Payload(channel: Option<string>, userId: string, title: string, message: string)

  /** Where `deliver` sends a payload. */
  datatype Route =
    | ByEmail(to: string, subject: string, body: string)
    | BySms(to: string, subject: string, body: string)
    | Unsupported(channel: string)

  function Dispatch(p: Payload): (d: Route)
    ensures p.channel.None? ==> d == ByEmail(p.userId, p.title, p.message)
  {
    var m := p.channel.GetOr("email");
    if m == "email" then ByEmail(p.userId, p.title, p.message)
    else if m == "sms" then BySms(p.userId, p.title, p.message)
    else Unsupported(m)
  }

  /** The result of `deliver`: returned True, returned False, or raised (tenacity's RetryError). */
  datatype Outcome = Sent | NotSent | Raised

  /** What `deliver` yields, in terms of the dispatch, the settings and the attempt oracle. */
  ghost function DeliveryOutcome(p: Payload, cfg: Settings, succeeds: nat -> bool): Outcome
  {
    match Dispatch(p)
    case ByEmail(_, _, _) => if !HasSmtp(cfg) || SucceedsWithin(succeeds, MaxAttempts) then Sent else Raised
    case BySms(_, _, _) => if !HasTwilio(cfg) || SucceedsWithin(succeeds, MaxAttempts) then Sent else Raised
    case Unsupported(_) => NotSent
  }

  /**
   * `deliver`: "email" (also when the key is missing) goes to `send_email`,
   * "sms" to `send_sms`, with the owner as destination and title and message
   * as subject and body; any other method returns False and sends nothing.
   */
  method Deliver(p: Payload, cfg: Settings, succeeds: nat -> bool) returns (o: Outcome, report: Option<SendReport>)
    ensures o == DeliveryOutcome(p, cfg, succeeds)
    ensures report.None? <==> Dispatch(p).Unsupported?
    ensures p.channel.GetOr("email") == "email" && HasSmtp(cfg) ==>
      report.Some? && report.value.outgoing == Some(Mail(cfg.smtpUser, p.userId, p.title, p.message))
    ensures p.channel == Some("sms") && HasTwilio(cfg) ==>
      report.Some? && report.value.outgoing == Some(Text(cfg.twilioFrom, p.userId, SmsBody(p.title, p.message)))
    ensures Dispatch(p).ByEmail? && !HasSmtp(cfg) ==> report == Some(SendReport(Attempts(true, 1, []), None))
    ensures Dispatch(p).BySms? && !HasTwilio(cfg) ==> report == Some(SendReport(Attempts(true, 1, []), None))
    ensures report.Some? && report.value.outgoing.Some? ==> RetriedAs(report.value.attempts, succeeds)
    ensures report.Some? ==> report.value.attempts.count <= MaxAttempts
  {
    match Dispatch(p)
    case ByEmail(to, subject, body) =>
      var r := SendEmail(cfg, to, subject, body, succeeds);
      o := if r.attempts.ok then Sent else Raised;
      report := Some(r);
    case BySms(to, subject, body) =>
      var r := SendSms(cfg, to, subject, body, succeeds);
      o := if r.attempts.ok then Sent else Raised;
      report := Some(r);
    case Unsupported(_) =>
      o := NotSent;
      report := None;
  }

  /** `deliver` returns False only for an unsupported method; for email and sms it returns True or raises. */
  lemma NotSentOnlyWhenUnsupported(p: Payload, cfg: Settings, succeeds: nat -> bool)
    ensures DeliveryOutcome(p, cfg, succeeds) == NotSent <==> Dispatch(p).Unsupported?
    ensures Dispatch(p).Unsupported? <==> p.channel.GetOr("email") !in {"email", "sms"}
  {
  }

  /** Without credentials a supported method always counts as sent. */
  lemma NoCredentialsMeansSent(p: Payload, cfg: Settings, succeeds: nat -> bool)
    requires (Dispatch(p).ByEmail? && !HasSmtp(cfg)) || (Dispatch(p).BySms? && !HasTwilio(cfg))
    ensures DeliveryOutcome(p, cfg, succeeds) == Sent
  {
  }

  /** Out of the box (app/config.py defaults) neither provider is configured. */
  lemma DefaultsHaveNoCredentials()
    ensures !HasSmtp(DefaultSettings) && !HasTwilio(DefaultSettings)
  {
  }
}
