/**
 * app/services/db.py: the `reminders` table, modelled as a map from id (the
 * primary key) to record, held by a `ReminderStore` object whose methods
 * insert, update, scan and delete rows in place.
 *
 * Text columns are compared as SQLite compares them, as strings (`LexOrder`):
 * `fetch_due` and the purge never look at instants.
 */
module Db {
  import opened Wrappers
  import opened LexOrder
  import Schemas

  type Metadata = Schemas.Metadata

  datatype Status = Scheduled | Sent | Failed | Cancelled

  /** A row of `reminders`; `channel` is the `method` column. */
  datatype Reminder = Reminder(
    id: string,
    userId: string,
    title: string,
    message: string,
    deliveryTime: string,
    timezone: string,
    channel: string,
    metadata: Metadata,
    createdAt: string,
    status: Status)

  /** The columns `update_reminder` is given; `None` leaves a column as it is. */
  datatype Fields = Fields(
    title: Option<string>,
    message: Option<string>,
    deliveryTime: Option<string>,
    channel: Option<string>,
    timezone: Option<string>,
    metadata: Option<Metadata>)

  /** One statement the store has executed (the UPDATE of a missing id is still one statement). */
  datatype Write = Inserted(id: string) | StatusSet(id: string, status: Status) | FieldsSet(id: string, fields: Fields) | Purged(cutoff: string)

  /** `UPDATE ... SET <given columns>`: the given columns overwritten, every other column kept. */
  function ApplyFields(r: Reminder, f: Fields): (u: Reminder)
    ensures u.id == r.id && u.userId == r.userId && u.createdAt == r.createdAt && u.status == r.status
    ensures f.title.Some? ==> u.title == f.title.value
    ensures f.title.None? ==> u.title == r.title
    ensures f.message.Some? ==> u.message == f.message.value
    ensures f.message.None? ==> u.message == r.message
    ensures f.deliveryTime.Some? ==> u.deliveryTime == f.deliveryTime.value
    ensures f.deliveryTime.None? ==> u.deliveryTime == r.deliveryTime
    ensures f.channel.Some? ==> u.channel == f.channel.value
    ensures f.channel.None? ==> u.channel == r.channel
    ensures f.timezone.Some? ==> u.timezone == f.timezone.value
    ensures f.timezone.None? ==> u.timezone == r.timezone
    ensures f.metadata.Some? ==> u.metadata == f.metadata.value
    ensures f.metadata.None? ==> u.metadata == r.metadata
  {
    r.(title := f.title.GetOr(r.title),
       message := f.message.GetOr(r.message),
       deliveryTime := f.deliveryTime.GetOr(r.deliveryTime),
       channel := f.channel.GetOr(r.channel),
       timezone := f.timezone.GetOr(r.timezone),
       metadata := f.metadata.GetOr(r.metadata))
  }

  /** The `fetch_due` filter: still scheduled, and due no later than `upto` as strings. */
  predicate IsDue(r: Reminder, upto: string)
  {
    r.status == Scheduled && LexLe(r.deliveryTime, upto)
  }

  /** The purge filter: created before the cutoff as strings; the status plays no part. */
  predicate IsStale(r: Reminder, cutoff: string)
  {
    LexLt(r.createdAt, cutoff)
  }

  /** The listing filter: everything for an admin, the caller's own rows otherwise. */
  predicate IsVisible(r: Reminder, userId: string, isAdmin: bool)
  {
    isAdmin || r.userId == userId
  }

  function DueRows(rows: map<string, Reminder>, upto: string): map<string, Reminder>
  {
    map k | k in rows && IsDue(rows[k], upto) :: rows[k]
  }

  function VisibleRows(rows: map<string, Reminder>, userId: string, isAdmin: bool): map<string, Reminder>
  {
    map k | k in rows && IsVisible(rows[k], userId, isAdmin) :: rows[k]
  }

  function StaleIds(rows: map<string, Reminder>, cutoff: string): set<string>
  {
    set k | k in rows && IsStale(rows[k], cutoff)
  }

  /** Every row is stored under its own id. */
  ghost predicate KeyedById(m: map<string, Reminder>)
  {
    forall k :: k in m ==> m[k].id == k
  }

  function IdsOf(s: seq<Reminder>): set<string>
  {
    set i | 0 <= i < |s| :: s[i].id
  }

  /** `s` is a result set of the rows of `m`: each row exactly once, in some order. */
  ghost predicate Lists(s: seq<Reminder>, m: map<string, Reminder>)
  {
    && (forall i :: 0 <= i < |s| ==> s[i].id in m && m[s[i].id] == s[i])
    && (forall i, j :: 0 <= i < j < |s| ==> s[i].id != s[j].id)
    && m.Keys <= IdsOf(s)
  }

  /** `ORDER BY created_at DESC`. */
  ghost predicate NewestFirst(s: seq<Reminder>)
  {
    forall i, j :: 0 <= i < j < |s| ==> LexLe(s[j].createdAt, s[i].createdAt)
  }

  /** `LIMIT limit OFFSET offset`: both ends clamped to the result set. */
  function Page(s: seq<Reminder>, offset: nat, limit: nat): seq<Reminder>
  {
    var lo := if offset <= |s| then offset else |s|;
    var hi := if offset + limit <= |s| then offset + limit else |s|;
    s[lo..hi]
  }

  /** What `list_reminders` may return: one page of an ordering, newest first, of the visible rows. */
  ghost predicate IsPage(rs: seq<Reminder>, rows: map<string, Reminder>, userId: string, isAdmin: bool, offset: nat, limit: nat)
  {
    exists all :: Lists(all, VisibleRows(rows, userId, isAdmin)) && NewestFirst(all) && rs == Page(all, offset, limit)
  }

  /** A result set holds exactly the rows of the map it lists. */
  lemma ListsMembership(s: seq<Reminder>, m: map<string, Reminder>)
    requires KeyedById(m) && Lists(s, m)
    ensures forall r :: r in s <==> r.id in m && m[r.id] == r
  {
    forall r: Reminder | r.id in m && m[r.id] == r
      ensures r in s
    {
      var i :| 0 <= i < |s| && s[i].id == r.id;
    }
  }

  predicate IsNewestIn(m: map<string, Reminder>, k: string)
    requires k in m
  {
    forall x :: x in m ==> LexLe(m[x].createdAt, m[k].createdAt)
  }

  /** A non-empty table has a newest row (the string order is total and transitive). */
  lemma {:induction false} NewestExists(m: map<string, Reminder>)
    requires m != map[]
    ensures exists k :: k in m && IsNewestIn(m, k)
    decreases m.Keys
  {
    var k :| k in m;
    LexLeReflexive(m[k].createdAt);
    var rest := m - {k};
    if rest == map[] {
      assert rest.Keys == m.Keys - {k} && rest.Keys == {};
      assert m.Keys == {k};
      assert IsNewestIn(m, k);
    } else {
      NewestExists(rest);
      var j :| j in rest && IsNewestIn(rest, j);
      LexLeTotal(m[k].createdAt, m[j].createdAt);
      if LexLe(m[k].createdAt, m[j].createdAt) {
        forall x | x in m
          ensures LexLe(m[x].createdAt, m[j].createdAt)
        {
          if x != k { assert x in rest; }
        }
        assert IsNewestIn(m, j);
      } else {
        forall x | x in m
          ensures LexLe(m[x].createdAt, m[k].createdAt)
        {
          if x != k {
            assert x in rest;
            LexLeTransitive(m[x].createdAt, m[j].createdAt, m[k].createdAt);
          }
        }
        assert IsNewestIn(m, k);
      }
    }
  }

  lemma IdsOfSnoc(s: seq<Reminder>, r: Reminder)
    ensures IdsOf(s + [r]) == IdsOf(s) + {r.id}
  {
    var t := s + [r];
    assert t[|s|].id == r.id;
    forall x | x in IdsOf(t) ensures x in IdsOf(s) + {r.id} {
      var i :| 0 <= i < |t| && t[i].id == x;
      if i < |s| { assert t[i] == s[i]; }
    }
    forall x | x in IdsOf(s) ensures x in IdsOf(t) {
      var i :| 0 <= i < |s| && s[i].id == x;
      assert t[i] == s[i];
    }
  }

  /** Draining `m` into `s`: `s` holds the drained rows, once each, and `pool` the rest. */
  ghost predicate Draining(m: map<string, Reminder>, pool: map<string, Reminder>, s: seq<Reminder>)
  {
    && (forall k :: k in pool ==> k in m && pool[k] == m[k])
    && (forall i :: 0 <= i < |s| ==> s[i].id in m && m[s[i].id] == s[i] && s[i].id !in pool)
    && (forall i, j :: 0 <= i < j < |s| ==> s[i].id != s[j].id)
    && m.Keys <= pool.Keys + IdsOf(s)
  }

  lemma DrainStep(m: map<string, Reminder>, pool: map<string, Reminder>, s: seq<Reminder>, k: string)
    requires KeyedById(m) && Draining(m, pool, s) && k in pool
    ensures Draining(m, pool - {k}, s + [pool[k]])
  {
    IdsOfSnoc(s, pool[k]);
    var s', pool' := s + [pool[k]], pool - {k};
    forall i | 0 <= i < |s'|
      ensures s'[i].id in m && m[s'[i].id] == s'[i] && s'[i].id !in pool'
    {
      if i < |s| { assert s'[i] == s[i]; }
    }
  }

  /** The rows of a (sub)table as a result set, in the order the engine happens to produce. */
  method Enumerate(m: map<string, Reminder>) returns (s: seq<Reminder>)
    requires KeyedById(m)
    ensures Lists(s, m)
  {
    var pool := m;
    s := [];
    while pool != map[]
      invariant Draining(m, pool, s)
      decreases pool.Keys
    {
      var k :| k in pool;
      DrainStep(m, pool, s, k);
      s := s + [pool[k]];
      pool := pool - {k};
    }
  }

  /** Everything still in the pool is no newer than anything already drained. */
  ghost predicate DrainedNewestFirst(pool: map<string, Reminder>, s: seq<Reminder>)
  {
    && NewestFirst(s)
    && forall i, k :: 0 <= i < |s| && k in pool ==> LexLe(pool[k].createdAt, s[i].createdAt)
  }

  lemma DrainNewestStep(pool: map<string, Reminder>, s: seq<Reminder>, k: string)
    requires DrainedNewestFirst(pool, s) && k in pool && IsNewestIn(pool, k)
    ensures DrainedNewestFirst(pool - {k}, s + [pool[k]])
  {
    var s', pool' := s + [pool[k]], pool - {k};
    forall i, j | 0 <= i < j < |s'|
      ensures LexLe(s'[j].createdAt, s'[i].createdAt)
    {
      assert s'[i] == s[i];
      if j < |s| { assert s'[j] == s[j]; }
    }
    forall i, x | 0 <= i < |s'| && x in pool'
      ensures LexLe(pool'[x].createdAt, s'[i].createdAt)
    {
      if i < |s| {
        assert s'[i] == s[i];
      }
    }
  }

  /** The rows of a (sub)table newest first; rows with equal `created_at` come in any order. */
  method OrderByNewest(m: map<string, Reminder>) returns (s: seq<Reminder>)
    requires KeyedById(m)
    ensures Lists(s, m)
    ensures NewestFirst(s)
  {
    var pool := m;
    s := [];
    while pool != map[]
      invariant Draining(m, pool, s)
      invariant DrainedNewestFirst(pool, s)
      decreases pool.Keys
    {
      NewestExists(pool);
      var k :| k in pool && IsNewestIn(pool, k);
      DrainStep(m, pool, s, k);
      DrainNewestStep(pool, s, k);
      s := s + [pool[k]];
      pool := pool - {k};
    }
  }

  class ReminderStore {
    var rows: map<string, Reminder>
    /** Every statement executed so far, oldest first. */
    ghost var writes: seq<Write>

    ghost predicate Valid()
      reads this
    {
      KeyedById(rows)
    }

    constructor ()
      ensures Valid() && rows == map[] && writes == []
    {
      rows := map[];
      writes := [];
    }

    /** `insert_reminder`: a new primary key is added; an existing one is an IntegrityError and nothing changes. */
    method InsertReminder(rec: Reminder) returns (inserted: bool)
      requires Valid()
      modifies this
      ensures Valid()
      ensures inserted <==> rec.id !in old(rows)
      ensures rows == if inserted then old(rows)[rec.id := rec] else old(rows)
      ensures writes == if inserted then old(writes) + [Inserted(rec.id)] else old(writes)
    {
      inserted := rec.id !in rows;
      if inserted {
        rows := rows[rec.id := rec];
        writes := writes + [Inserted(rec.id)];
      }
    }

    /** `update_status`: one UPDATE statement, which changes the status of the matching row, if any. */
    method UpdateStatus(id: string, status: Status)
      requires Valid()
      modifies this
      ensures Valid()
      ensures rows == if id in old(rows) then old(rows)[id := old(rows)[id].(status := status)] else old(rows)
      ensures writes == old(writes) + [StatusSet(id, status)]
    {
      if id in rows {
        rows := rows[id := rows[id].(status := status)];
      }
      writes := writes + [StatusSet(id, status)];
    }

    /** `get`: the row stored under the primary key, which carries that key, or None. */
    function Get(id: string): (r: Option<Reminder>)
      reads this
      ensures r.Some? <==> id in rows
      ensures r.Some? ==> r.value == rows[id]
      ensures Valid() && r.Some? ==> r.value.id == id
    {
      if id in rows then Some(rows[id]) else None
    }

    /** `exists` agrees with `get`. */
    function Exists(id: string): (b: bool)
      reads this
      ensures b <==> Get(id).Some?
    {
      id in rows
    }

    /** `list_reminders`: at most `limit` visible rows, newest first, after skipping `offset` of them. */
    method ListReminders(userId: string, limit: nat, offset: nat, isAdmin: bool) returns (rs: seq<Reminder>)
      requires Valid()
      ensures IsPage(rs, rows, userId, isAdmin, offset, limit)
      ensures |rs| <= limit
      ensures forall r :: r in rs ==> r.id in rows && rows[r.id] == r && IsVisible(r, userId, isAdmin)
      ensures NewestFirst(rs)
    {
      var visible := VisibleRows(rows, userId, isAdmin);
      var all := OrderByNewest(visible);
      rs := Page(all, offset, limit);
      ListsMembership(all, visible);
    }

    /** `fetch_due`: exactly the scheduled rows whose delivery_time is at most `upto` as a string, each once. */
    method FetchDue(upto: string) returns (rs: seq<Reminder>)
      requires Valid()
      ensures Lists(rs, DueRows(rows, upto))
      ensures forall r :: r in rs <==> r.id in rows && rows[r.id] == r && IsDue(r, upto)
    {
      rs := Enumerate(DueRows(rows, upto));
      ListsMembership(rs, DueRows(rows, upto));
    }

    /**
     * `cleanup_old_reminders`, given the cutoff it computes from the clock:
     * every row created before the cutoff is deleted, whatever its status,
     * every other row is kept, and the number deleted is returned.
     */
    method CleanupOldReminders(cutoff: string) returns (deleted: nat)
      requires Valid()
      modifies this
      ensures Valid()
      ensures rows.Keys == old(rows).Keys - StaleIds(old(rows), cutoff)
      ensures forall k :: k in rows ==> rows[k] == old(rows)[k]
      ensures deleted == |StaleIds(old(rows), cutoff)|
      ensures writes == old(writes) + [Purged(cutoff)]
    {
      deleted := |StaleIds(rows, cutoff)|;
      rows := map k | k in rows && !IsStale(rows[k], cutoff) :: rows[k];
      writes := writes + [Purged(cutoff)];
    }

    /** `update_reminder`: the matching row with the given columns overwritten, or None and no change. */
    method UpdateReminder(id: string, fields: Fields) returns (r: Option<Reminder>)
      requires Valid()
      modifies this
      ensures Valid()
      ensures id in old(rows) ==> r == Some(ApplyFields(old(rows)[id], fields)) && rows == old(rows)[id := r.value]
      ensures id !in old(rows) ==> r == None && rows == old(rows)
      ensures writes == old(writes) + [FieldsSet(id, fields)]
    {
      if id in rows {
        var u := ApplyFields(rows[id], fields);
        rows := rows[id := u];
        r := Some(u);
      } else {
        r := None;
      }
      writes := writes + [FieldsSet(id, fields)];
    }
  }

  /** The purge keeps no stale row, even one that is still waiting to be delivered. */
  lemma PurgeIgnoresStatus(rows: map<string, Reminder>, cutoff: string, k: string)
    requires k in rows && rows[k].status == Scheduled && IsStale(rows[k], cutoff)
    ensures k in StaleIds(rows, cutoff)
  {
  }
}
