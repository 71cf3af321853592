/**
 * app/utils/time.py: the "Z" normalisation in front of ISO 8601 parsing, and
 * the UTC clock.
 *
 * Python's `datetime.fromisoformat(...).astimezone(timezone.utc)` and
 * `datetime.isoformat()` are library date arithmetic; they are abstracted as a
 * `Calendar`: a partial parse from a string to an instant (an integer count of
 * time units since the epoch, already in UTC) and the rendering of an instant
 * back to its UTC ISO string. The clock itself is a parameter (`now`).
 */
module Time {
  import opened Wrappers

  /** The abstract date library: `parse` is fromisoformat + astimezone(UTC), `render` is isoformat of a UTC datetime. */
  datatype Calendar = Calendar(parse: string -> Option<int>, render: int -> string)

  const UtcOffset: string := "+00:00"

  predicate EndsWithZ(v: string)
  {
    |v| > 0 && v[|v| - 1] == 'Z'
  }

  /** Python's `str.replace(c, rep)`: every occurrence of `c`, left to right. */
  function ReplaceAll(s: string, c: char, rep: string): string
  {
    if s == [] then []
    else (if s[0] == c then rep else [s[0]]) + ReplaceAll(s[1..], c, rep)
  }

  /** The rewrite `parse_iso_utc` and `validate_iso` apply before parsing. */
  function NormalizeZ(v: string): string
  {
    if EndsWithZ(v) then ReplaceAll(v, 'Z', UtcOffset) else v
  }

  /**
   * `parse_iso_utc`: normalise, then parse (None stands for the ValueError
   * fromisoformat raises). A value without a trailing "Z" is parsed as
   * written; the usual "...Z" form is parsed as "...+00:00".
   */
  function ParseIsoUtc(cal: Calendar, v: string): (t: Option<int>)
    ensures !EndsWithZ(v) ==> t == cal.parse(v)
    ensures EndsWithZ(v) && 'Z' !in v[..|v| - 1] ==> t == cal.parse(v[..|v| - 1] + UtcOffset)
  {
    if EndsWithZ(v) && 'Z' !in v[..|v| - 1] then
      var head := v[..|v| - 1];
      assert v == head + "Z";
      ReplaceAllAppend(head, "Z", 'Z', UtcOffset);
      ReplaceAllAbsent(head, 'Z', UtcOffset);
      assert ReplaceAll("Z", 'Z', UtcOffset) == UtcOffset;
      cal.parse(NormalizeZ(v))
    else
      cal.parse(NormalizeZ(v))
  }

  /**
   * A calendar whose rendering is what `isoformat()` gives for a UTC instant:
   * it ends in an offset, never in "Z", and parses back to the same instant.
   */
  ghost predicate RoundTrips(cal: Calendar)
  {
    forall t :: !EndsWithZ(cal.render(t)) && cal.parse(cal.render(t)) == Some(t)
  }

  /** `now_utc_iso`: the current UTC instant, rendered; it reads back as that instant. */
  function NowUtcIso(cal: Calendar, now: int): (s: string)
    ensures RoundTrips(cal) ==> ParseIsoUtc(cal, s) == Some(now)
  {
    cal.render(now)
  }

  /** Replacing distributes over concatenation: each character is rewritten on its own. */
  lemma {:induction false} ReplaceAllAppend(a: string, b: string, c: char, rep: string)
    ensures ReplaceAll(a + b, c, rep) == ReplaceAll(a, c, rep) + ReplaceAll(b, c, rep)
  {
    if a == [] {
      assert a + b == b;
    } else {
      assert (a + b)[1..] == a[1..] + b;
      ReplaceAllAppend(a[1..], b, c, rep);
    }
  }

  /** When `c` does not occur in `rep`, no `c` survives the replacement. */
  lemma {:induction false} ReplaceAllRemoves(s: string, c: char, rep: string)
    requires c !in rep
    ensures c !in ReplaceAll(s, c, rep)
  {
    if s != [] {
      ReplaceAllRemoves(s[1..], c, rep);
    }
  }

  /** Without an occurrence of `c`, the replacement is the identity. */
  lemma {:induction false} ReplaceAllAbsent(s: string, c: char, rep: string)
    requires c !in s
    ensures ReplaceAll(s, c, rep) == s
  {
    if s != [] {
      assert c !in s[1..];
      ReplaceAllAbsent(s[1..], c, rep);
      assert s == [s[0]] + s[1..];
    }
  }

  /** A "Z"-terminated input normalises to a string that ends in the "+00:00" offset. */
  lemma NormalizeZEndsWithOffset(v: string)
    requires EndsWithZ(v)
    ensures |NormalizeZ(v)| >= |UtcOffset|
    ensures NormalizeZ(v)[|NormalizeZ(v)| - |UtcOffset|..] == UtcOffset
  {
    var init := v[..|v| - 1];
    assert v == init + ['Z'];
    ReplaceAllAppend(init, ['Z'], 'Z', UtcOffset);
    assert ReplaceAll(['Z'], 'Z', UtcOffset) == UtcOffset;
  }

  /** A normalised string contains no "Z" at all when the rewrite fired, and is the input otherwise. */
  lemma NormalizeZShape(v: string)
    ensures EndsWithZ(v) ==> 'Z' !in NormalizeZ(v)
    ensures !EndsWithZ(v) ==> NormalizeZ(v) == v
  {
    if EndsWithZ(v) {
      ReplaceAllRemoves(v, 'Z', UtcOffset);
    }
  }

  /** Normalising twice is normalising once. */
  lemma NormalizeZIdempotent(v: string)
    ensures NormalizeZ(NormalizeZ(v)) == NormalizeZ(v)
  {
    NormalizeZShape(v);
    var n := NormalizeZ(v);
    if EndsWithZ(v) {
      assert |n| > 0 ==> n[|n| - 1] in n;
    }
  }

  /** Hence parsing an already normalised string reads the same instant. */
  lemma ParseIsoUtcOfNormalized(cal: Calendar, v: string)
    ensures ParseIsoUtc(cal, NormalizeZ(v)) == ParseIsoUtc(cal, v)
  {
    NormalizeZIdempotent(v);
  }
}
