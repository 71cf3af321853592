/**
 * app/services/scheduler.py: the scheduler handle (running flag and job
 * table), `_deliver`, `create_reminder`, `remove_job_safe`,
 * `_check_due_fallback`, and start-up/shut-down.
 *
 * APScheduler's threads and timers are not modelled: the job table is a map
 * from reminder id to the instant its one-shot job is due, and a timer firing
 * is the explicit step `FireJob`. Runs are sequential; any interleaving of
 * these methods is a possible history.
 */
module Scheduling {
  import opened Wrappers
  import opened Db
  import Delivery
  import Schemas
  import Time

  /** The attempt oracle of each reminder's deliveries. */
  type Provider = string -> nat -> bool

  /** The two recurring jobs start-up registers. */
  datatype PeriodicJob = DueSweep(intervalMinutes: nat) | DailyCleanup(hour: nat, minute: nat)

  const StartupJobs: seq<PeriodicJob> := [DueSweep(1), DailyCleanup(0, 0)]

  /** The dict `_deliver` passes to `deliver`: a stored row always has its "method" key. */
  function PayloadOf(r: Reminder): Delivery.Payload
  {
    Delivery.Payload(Some(r.channel), r.userId, r.title, r.message)
  }

  /** Whether a statement writes the row `id` (a purge writes no single row). */
  predicate WritesTo(w: Write, id: string)
  {
    !w.Purged? && w.id == id
  }

  /** The effect of one `_deliver(id)` on the table: the new rows, the statements executed, whether it raised. */
  datatype Step = Step(rows: map<string, Reminder>, writes: seq<Write>, raised: bool)

  /** What `deliver` does with each stored record under these settings and this provider. */
  ghost function Outcomes(cfg: Delivery.Settings, provider: Provider): Reminder -> Delivery.Outcome
  {
    r => Delivery.DeliveryOutcome(PayloadOf(r), cfg, provider(r.id))
  }

  /** One `_deliver(id)`, given what delivery does with each record. */
  ghost function DeliverStep(rows: map<string, Reminder>, id: string, outcome: Reminder -> Delivery.Outcome): (st: Step)
    ensures |st.writes| <= 1 && (st.raised ==> |st.writes| == 1)
    ensures id in rows ==> id in st.rows && st.rows[id].status != Scheduled
    ensures id in rows && rows[id].status != Scheduled ==> st.rows == rows && st.writes == []
  {
    if id !in rows || rows[id].status != Scheduled then Step(rows, [], false)
    else
      var o := outcome(rows[id]);
      var status := if o == Delivery.Sent then Sent else Failed;
      Step(rows[id := rows[id].(status := status)], [StatusSet(id, status)], o == Delivery.Raised)
  }

  /**
   * `_deliver` on a missing record or one no longer scheduled does nothing;
   * on a scheduled one it performs exactly one status write: sent iff the
   * delivery returned True, failed otherwise, also when it raised.
   */
  lemma DeliverStepEffect(rows: map<string, Reminder>, id: string, outcome: Reminder -> Delivery.Outcome)
    ensures var st := DeliverStep(rows, id, outcome);
      if id !in rows || rows[id].status != Scheduled then st == Step(rows, [], false)
      else
        var o := outcome(rows[id]);
        && |st.writes| == 1
        && st.writes[0].StatusSet? && st.writes[0].id == id
        && (st.writes[0].status == Sent <==> o == Delivery.Sent)
        && (st.writes[0].status == Failed <==> o != Delivery.Sent)
        && (st.raised <==> o == Delivery.Raised)
        && st.rows == rows[id := rows[id].(status := st.writes[0].status)]
  {
  }

  /** A second `_deliver` of the same id, whatever the provider does this time, changes nothing. */
  lemma DeliverTwice(rows: map<string, Reminder>, id: string, first: Reminder -> Delivery.Outcome, second: Reminder -> Delivery.Outcome)
    ensures var st := DeliverStep(rows, id, first);
      && (id in rows ==> id in st.rows && st.rows[id].status != Scheduled)
      && DeliverStep(st.rows, id, second) == Step(st.rows, [], false)
  {
  }

  /** A terminal status never goes back to scheduled, and no other row changes. */
  lemma DeliverStepFrame(rows: map<string, Reminder>, id: string, outcome: Reminder -> Delivery.Outcome, other: string)
    ensures DeliverStep(rows, id, outcome).rows.Keys == rows.Keys
    ensures other in rows && other != id ==> DeliverStep(rows, id, outcome).rows[other] == rows[other]
    ensures other in rows && rows[other].status != Scheduled ==> DeliverStep(rows, id, outcome).rows[other] == rows[other]
  {
  }

  /** The result of one sweep over `ids`: rows, statements, how many ids were processed, whether it stopped on a raise. */
  datatype SweepResult = SweepResult(rows: map<string, Reminder>, writes: seq<Write>, processed: nat, raised: bool)

  /** `_check_due_fallback`'s loop: `_deliver` each id in order; the first raise propagates and ends the sweep. */
  ghost function Sweep(rows: map<string, Reminder>, ids: seq<string>, outcome: Reminder -> Delivery.Outcome): (r: SweepResult)
    ensures r.processed <= |ids|
    ensures !r.raised ==> r.processed == |ids|
    decreases |ids|
  {
    if ids == [] then SweepResult(rows, [], 0, false)
    else
      var st := DeliverStep(rows, ids[0], outcome);
      if st.raised then SweepResult(st.rows, st.writes, 1, true)
      else
        var rest := Sweep(st.rows, ids[1..], outcome);
        SweepResult(rest.rows, st.writes + rest.writes, 1 + rest.processed, rest.raised)
  }

  /** A sweep that did not raise, followed by another sweep. */
  function Then(a: SweepResult, b: SweepResult): SweepResult
  {
    SweepResult(b.rows, a.writes + b.writes, a.processed + b.processed, b.raised)
  }

  /** Once a sweep over `xs` has raised, whatever follows `xs` is never reached. */
  lemma {:induction false} SweepStopsAtRaise(rows: map<string, Reminder>, xs: seq<string>, ys: seq<string>, outcome: Reminder -> Delivery.Outcome)
    ensures Sweep(rows, xs, outcome).raised ==> Sweep(rows, xs + ys, outcome) == Sweep(rows, xs, outcome)
    decreases |xs|
  {
    if xs == [] {
      assert xs + ys == ys;
    } else {
      assert (xs + ys)[0] == xs[0] && (xs + ys)[1..] == xs[1..] + ys;
      var st := DeliverStep(rows, xs[0], outcome);
      if !st.raised {
        SweepStopsAtRaise(st.rows, xs[1..], ys, outcome);
      }
    }
  }

  /** `Then` is associative: a sweep's statements are one log, however its stretches are grouped. */
  lemma ThenAssociative(a: SweepResult, b: SweepResult, c: SweepResult)
    ensures Then(a, Then(b, c)) == Then(Then(a, b), c)
  {
    assert a.writes + (b.writes + c.writes) == (a.writes + b.writes) + c.writes;
  }

  /**
   * A sweep seen part-way: `done` is what has happened so far, `rest` what is
   * left. One more `_deliver` either ends it (on a raise) or leaves the rest
   * of `rest` to go.
   */
  lemma SweepResume(rows: map<string, Reminder>, rest: seq<string>, done: SweepResult, outcome: Reminder -> Delivery.Outcome)
    requires rest != []
    ensures var st := DeliverStep(rows, rest[0], outcome);
      var next := Then(done, SweepResult(st.rows, st.writes, 1, st.raised));
      && (st.raised ==> Then(done, Sweep(rows, rest, outcome)) == next)
      && (!st.raised ==> Then(done, Sweep(rows, rest, outcome)) == Then(next, Sweep(st.rows, rest[1..], outcome)))
  {
    var st := DeliverStep(rows, rest[0], outcome);
    if !st.raised {
      ThenAssociative(done, SweepResult(st.rows, st.writes, 1, st.raised), Sweep(st.rows, rest[1..], outcome));
    }
  }

  /** A sweep neither inserts nor deletes rows. */
  lemma {:induction false} SweepKeepsKeys(rows: map<string, Reminder>, ids: seq<string>, outcome: Reminder -> Delivery.Outcome)
    ensures Sweep(rows, ids, outcome).rows.Keys == rows.Keys
    decreases |ids|
  {
    if ids != [] {
      var st := DeliverStep(rows, ids[0], outcome);
      DeliverStepFrame(rows, ids[0], outcome, ids[0]);
      if !st.raised {
        SweepKeepsKeys(st.rows, ids[1..], outcome);
      }
    }
  }

  /** A row the sweep is not asked about is left as it was. */
  lemma {:induction false} SweepLeavesUnlisted(rows: map<string, Reminder>, ids: seq<string>, outcome: Reminder -> Delivery.Outcome, id: string)
    requires id in rows && id !in ids
    ensures id in Sweep(rows, ids, outcome).rows && Sweep(rows, ids, outcome).rows[id] == rows[id]
    decreases |ids|
  {
    if ids != [] {
      var st := DeliverStep(rows, ids[0], outcome);
      DeliverStepFrame(rows, ids[0], outcome, id);
      if !st.raised {
        SweepLeavesUnlisted(st.rows, ids[1..], outcome, id);
      }
    }
  }

  /** A row that is not scheduled (sent, failed, cancelled) is never delivered or written by a sweep. */
  lemma {:induction false} SweepLeavesSettled(rows: map<string, Reminder>, ids: seq<string>, outcome: Reminder -> Delivery.Outcome, id: string)
    requires id in rows && rows[id].status != Scheduled
    ensures id in Sweep(rows, ids, outcome).rows && Sweep(rows, ids, outcome).rows[id] == rows[id]
    ensures forall w :: w in Sweep(rows, ids, outcome).writes ==> !WritesTo(w, id)
    decreases |ids|
  {
    if ids != [] {
      var st := DeliverStep(rows, ids[0], outcome);
      DeliverStepFrame(rows, ids[0], outcome, id);
      if !st.raised {
        SweepLeavesSettled(st.rows, ids[1..], outcome, id);
      }
    }
  }

  /** Every id the sweep processed is no longer scheduled afterwards. */
  lemma {:induction false} SweepSettlesProcessed(rows: map<string, Reminder>, ids: seq<string>, outcome: Reminder -> Delivery.Outcome)
    ensures var r := Sweep(rows, ids, outcome);
      forall i :: 0 <= i < r.processed && ids[i] in rows ==> ids[i] in r.rows && r.rows[ids[i]].status != Scheduled
    decreases |ids|
  {
    if ids != [] {
      var st := DeliverStep(rows, ids[0], outcome);
      if !st.raised {
        var r := Sweep(rows, ids, outcome);
        SweepSettlesProcessed(st.rows, ids[1..], outcome);
        if ids[0] in rows {
          SweepLeavesSettled(st.rows, ids[1..], outcome, ids[0]);
        }
        forall i | 0 <= i < r.processed && ids[i] in rows
          ensures ids[i] in r.rows && r.rows[ids[i]].status != Scheduled
        {
          if i > 0 {
            assert ids[i] == ids[1..][i - 1];
          }
        }
      }
    }
  }

  /** Every status a sweep writes goes to a row that was scheduled before the sweep. */
  lemma {:induction false} SweepWritesScheduled(rows: map<string, Reminder>, ids: seq<string>, outcome: Reminder -> Delivery.Outcome)
    ensures forall w :: w in Sweep(rows, ids, outcome).writes ==>
      w.StatusSet? && w.id in rows && rows[w.id].status == Scheduled
    decreases |ids|
  {
    if ids != [] {
      var st := DeliverStep(rows, ids[0], outcome);
      if !st.raised {
        SweepWritesScheduled(st.rows, ids[1..], outcome);
        forall x | x in st.rows && st.rows[x].status == Scheduled
          ensures x in rows && rows[x].status == Scheduled
        {
          DeliverStepFrame(rows, ids[0], outcome, x);
        }
      }
    }
  }

  /** No row receives two status writes in `ws`. */
  ghost predicate AtMostOnePerRow(ws: seq<Write>)
  {
    forall i, j :: 0 <= i < j < |ws| && ws[i].StatusSet? ==> !WritesTo(ws[j], ws[i].id)
  }

  /** Each reminder's outcome is written at most once per sweep, even when its id is listed twice. */
  lemma {:induction false} SweepWritesOncePerReminder(rows: map<string, Reminder>, ids: seq<string>, outcome: Reminder -> Delivery.Outcome)
    ensures AtMostOnePerRow(Sweep(rows, ids, outcome).writes)
    decreases |ids|
  {
    if ids != [] {
      var st := DeliverStep(rows, ids[0], outcome);
      if !st.raised {
        var rest := Sweep(st.rows, ids[1..], outcome);
        SweepWritesOncePerReminder(st.rows, ids[1..], outcome);
        var ws := st.writes + rest.writes;
        assert Sweep(rows, ids, outcome).writes == ws;
        if st.writes != [] {
          SweepLeavesSettled(st.rows, ids[1..], outcome, ids[0]);
          assert ws[0] == StatusSet(ids[0], st.rows[ids[0]].status);
          forall i, j | 0 <= i < j < |ws| && ws[i].StatusSet?
            ensures !WritesTo(ws[j], ws[i].id)
          {
            assert ws[j] == rest.writes[j - 1];
            if i == 0 {
              assert ws[j] in rest.writes;
            } else {
              assert ws[i] == rest.writes[i - 1];
            }
          }
        } else {
          assert ws == rest.writes;
        }
      }
    }
  }

  /** A timer firing followed by a sweep that lists the same reminder: the sweep writes nothing for it. */
  lemma TimerThenSweep(rows: map<string, Reminder>, id: string, ids: seq<string>, outcome: Reminder -> Delivery.Outcome)
    requires id in rows
    ensures var st := DeliverStep(rows, id, outcome);
      forall w :: w in Sweep(st.rows, ids, outcome).writes ==> !WritesTo(w, id)
  {
    var st := DeliverStep(rows, id, outcome);
    SweepLeavesSettled(st.rows, ids, outcome, id);
  }

  function Ids(s: seq<Reminder>): (ids: seq<string>)
    ensures |ids| == |s| && forall i :: 0 <= i < |s| ==> ids[i] == s[i].id
  {
    seq(|s|, i requires 0 <= i < |s| => s[i].id)
  }

  datatype CreateError = NotIso8601 | NotInFuture | StoreRejected

  /** The record `create_reminder` builds from the validated payload. */
  function NewRecord(p: Schemas.ReminderCreate, owner: string, id: string, at: int, cal: Time.Calendar, now: int): Reminder
  {
    Reminder(id, owner, p.request.title, p.request.message, cal.render(at), p.request.timezone,
             p.request.channel, p.request.metadata, Time.NowUtcIso(cal, now), Scheduled)
  }

  /**
   * What `create_reminder` returns or raises: the unparseable time and the
   * time not strictly after `now` are rejected before anything is stored; a
   * missing owner (NOT NULL) or a taken id is refused by the insert.
   */
  function CreateOutcome(p: Schemas.ReminderCreate, cal: Time.Calendar, now: int, id: string, rows: map<string, Reminder>): (r: Result<Reminder, CreateError>)
    ensures r.Success? <==>
      && Time.ParseIsoUtc(cal, p.request.deliveryTime).Some?
      && Time.ParseIsoUtc(cal, p.request.deliveryTime).value > now
      && p.userId.Some? && id !in rows
    ensures r == Failure(NotIso8601) <==> Time.ParseIsoUtc(cal, p.request.deliveryTime).None?
    ensures r == Failure(NotInFuture) <==>
      Time.ParseIsoUtc(cal, p.request.deliveryTime).Some? && Time.ParseIsoUtc(cal, p.request.deliveryTime).value <= now
    ensures r.Success? ==>
      && Time.ParseIsoUtc(cal, p.request.deliveryTime).Some?
      && Time.ParseIsoUtc(cal, p.request.deliveryTime).value > now
      && r.value.deliveryTime == cal.render(Time.ParseIsoUtc(cal, p.request.deliveryTime).value)
      && r.value.id == id && id !in rows
      && p.userId.Some? && r.value.userId == p.userId.value
      && r.value.status == Scheduled
      && r.value.createdAt == Time.NowUtcIso(cal, now)
      && r.value.title == p.request.title && r.value.message == p.request.message
      && r.value.channel == p.request.channel && r.value.timezone == p.request.timezone
      && r.value.metadata == p.request.metadata
  {
    match Time.ParseIsoUtc(cal, p.request.deliveryTime)
    case None => Failure(NotIso8601)
    case Some(at) =>
      if at <= now then Failure(NotInFuture)
      else if p.userId.None? || id in rows then Failure(StoreRejected)
      else Success(NewRecord(p, p.userId.value, id, at, cal, now))
  }

  /**
   * The one-shot job table after `create_reminder` stored `id` to fire at
   * `at`: a job is added only while the scheduler runs, and an existing job
   * under that id is kept.
   */
  function JobsAfterCreate(jobs: map<string, int>, running: bool, id: string, at: int): (js: map<string, int>)
    ensures js.Keys == if running then jobs.Keys + {id} else jobs.Keys
    ensures forall k :: k in jobs ==> k in js && js[k] == jobs[k]
  {
    if running && id !in jobs then jobs[id := at] else jobs
  }

  /** The module-level `_scheduler` handle, with the store it drives. */
  class Scheduler {
    var running: bool
    /** One-shot date jobs: reminder id to the instant it fires. */
    var jobs: map<string, int>
    var periodic: seq<PeriodicJob>
    const store: ReminderStore

    ghost predicate Valid()
      reads store
    {
      store.Valid()
    }

    /** The handle before `scheduler_startup`: nothing running, no jobs. */
    constructor (store: ReminderStore)
      requires store.Valid()
      ensures Valid() && this.store == store
      ensures !running && jobs == map[] && periodic == []
    {
      this.store := store;
      running := false;
      jobs := map[];
      periodic := [];
    }

    /** `_deliver`: re-read the status, deliver, and write the terminal status in the `finally`. */
    method Deliver(id: string, cfg: Delivery.Settings, provider: Provider) returns (raised: bool)
      requires Valid()
      modifies store
      ensures Valid()
      ensures var st := DeliverStep(old(store.rows), id, Outcomes(cfg, provider));
        store.rows == st.rows && store.writes == old(store.writes) + st.writes && raised == st.raised
    {
      var rem := store.Get(id);
      if rem.None? || rem.value.status != Scheduled {
        raised := false;
        return;
      }
      var o, _ := Delivery.Deliver(PayloadOf(rem.value), cfg, provider(id));
      var status := if o == Delivery.Sent then Sent else Failed;
      store.UpdateStatus(id, status);
      raised := o == Delivery.Raised;
    }

    /**
     * `create_reminder`: validate the instant, insert the record, then, only
     * while running, add a one-shot job under the record's id; an existing job
     * with that id is kept (the conflict is swallowed) and the record is still
     * returned.
     */
    method CreateReminder(p: Schemas.ReminderCreate, cal: Time.Calendar, now: int, freshId: string) returns (r: Result<Reminder, CreateError>)
      requires Valid()
      modifies this, store
      ensures Valid()
      ensures r == CreateOutcome(p, cal, now, freshId, old(store.rows))
      ensures running == old(running) && periodic == old(periodic)
      ensures r.Failure? ==>
        store.rows == old(store.rows) && store.writes == old(store.writes) && jobs == old(jobs)
      ensures r.Success? ==>
        && store.rows == old(store.rows)[freshId := r.value]
        && store.writes == old(store.writes) + [Inserted(freshId)]
        && jobs == JobsAfterCreate(old(jobs), old(running), freshId, Time.ParseIsoUtc(cal, p.request.deliveryTime).value)
    {
      var parsed := Time.ParseIsoUtc(cal, p.request.deliveryTime);
      if parsed.None? {
        r := Failure(NotIso8601);
        return;
      }
      var at := parsed.value;
      if at <= now {
        r := Failure(NotInFuture);
        return;
      }
      if p.userId.None? {
        r := Failure(StoreRejected);
        return;
      }
      var rec := NewRecord(p, p.userId.value, freshId, at, cal, now);
      var inserted := store.InsertReminder(rec);
      if !inserted {
        r := Failure(StoreRejected);
        return;
      }
      if running && freshId !in jobs {
        jobs := jobs[freshId := at];
      }
      r := Success(rec);
    }

    /**
     * `remove_job_safe`: a no-op unless running; while running, the job is
     * removed, and a missing job raises APScheduler's JobLookupError, which
     * the `except` list does not name. The store is never touched.
     */
    method RemoveJobSafe(id: string) returns (raised: bool)
      modifies this
      ensures raised <==> old(running) && id !in old(jobs)
      ensures jobs == if old(running) then old(jobs) - {id} else old(jobs)
      ensures running == old(running) && periodic == old(periodic)
      ensures unchanged(store)
    {
      raised := false;
      if running {
        if id in jobs {
          jobs := jobs - {id};
        } else {
          raised := true;
        }
      }
    }

    /**
     * `_check_due_fallback`: fetch the due records as of `now` and `_deliver`
     * each in the order fetched; the first delivery that raises ends the sweep.
     */
    method CheckDueFallback(cal: Time.Calendar, now: int, cfg: Delivery.Settings, provider: Provider)
      returns (due: seq<Reminder>, processed: nat, raised: bool)
      requires Valid()
      modifies store
      ensures Valid()
      ensures Lists(due, DueRows(old(store.rows), Time.NowUtcIso(cal, now)))
      ensures var sw := Sweep(old(store.rows), Ids(due), Outcomes(cfg, provider));
        && store.rows == sw.rows && store.writes == old(store.writes) + sw.writes
        && processed == sw.processed && raised == sw.raised
    {
      due := store.FetchDue(Time.NowUtcIso(cal, now));
      processed, raised := DeliverEach(Ids(due), cfg, provider);
    }

    /** The loop of `_check_due_fallback`: `_deliver` each id in turn until one raises. */
    method DeliverEach(ids: seq<string>, cfg: Delivery.Settings, provider: Provider) returns (processed: nat, raised: bool)
      requires Valid()
      modifies store
      ensures Valid()
      ensures var sw := Sweep(old(store.rows), ids, Outcomes(cfg, provider));
        && store.rows == sw.rows && store.writes == old(store.writes) + sw.writes
        && processed == sw.processed && raised == sw.raised
    {
      ghost var outcome := Outcomes(cfg, provider);
      ghost var writes0 := store.writes;
      ghost var whole := Sweep(store.rows, ids, outcome);
      ghost var done := SweepResult(store.rows, [], 0, false);
      processed, raised := 0, false;
      assert ids[0..] == ids;
      while processed < |ids| && !raised
        invariant Valid()
        invariant processed <= |ids|
        invariant store.rows == done.rows && store.writes == writes0 + done.writes
        invariant done.processed == processed && done.raised == raised
        invariant raised ==> whole == done
        invariant !raised ==> whole == Then(done, Sweep(store.rows, ids[processed..], outcome))
        decreases |ids| - processed
      {
        ghost var rest := ids[processed..];
        assert rest[0] == ids[processed] && rest[1..] == ids[processed + 1..];
        ghost var st := DeliverStep(store.rows, ids[processed], outcome);
        ghost var step := SweepResult(st.rows, st.writes, 1, st.raised);
        SweepResume(store.rows, rest, done, outcome);
        raised := Deliver(ids[processed], cfg, provider);
        done := Then(done, step);
        processed := processed + 1;
      }
      if !raised {
        assert done.writes + [] == done.writes;
      }
    }

    /**
     * A date job firing at instant `now`: once its run date has come,
     * APScheduler drops the one-shot job and runs `_deliver`; nothing fires
     * unless running.
     */
    method FireJob(id: string, now: int, cfg: Delivery.Settings, provider: Provider) returns (fired: bool, raised: bool)
      requires Valid()
      modifies this, store
      ensures Valid()
      ensures fired <==> old(running) && id in old(jobs) && old(jobs)[id] <= now
      ensures running == old(running) && periodic == old(periodic)
      ensures fired ==>
        && jobs == old(jobs) - {id}
        && var st := DeliverStep(old(store.rows), id, Outcomes(cfg, provider));
           store.rows == st.rows && store.writes == old(store.writes) + st.writes && raised == st.raised
      ensures !fired ==>
        jobs == old(jobs) && store.rows == old(store.rows) && store.writes == old(store.writes) && !raised
    {
      fired := running && id in jobs && jobs[id] <= now;
      raised := false;
      if fired {
        jobs := jobs - {id};
        raised := Deliver(id, cfg, provider);
      }
    }

    /** `scheduler_startup`: when already running nothing happens; otherwise a fresh scheduler with only the two recurring jobs. */
    method Startup()
      modifies this
      ensures running
      ensures old(running) ==> jobs == old(jobs) && periodic == old(periodic)
      ensures !old(running) ==> jobs == map[] && periodic == StartupJobs
    {
      if running {
        return;
      }
      jobs := map[];
      periodic := StartupJobs;
      running := true;
    }

    /** `scheduler_shutdown`: stops a running scheduler; does nothing otherwise. */
    method Shutdown()
      modifies this
      ensures !running
      ensures jobs == old(jobs) && periodic == old(periodic)
    {
      if running {
        running := false;
      }
    }
  }
}
