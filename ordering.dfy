/**
 * `records.sort((a, b) => new Date(b.created_at) - new Date(a.created_at))`:
 * newest first. The result is specified up to the order of records with
 * equal times, and a record without a numeric `created_at` counts as time 0.
 */
module Ordering {
  import opened Json

  /** The creation time of a record in milliseconds (0 when it has none). */
  function CreatedAt(r: Record): int {
    if "created_at" in r && r["created_at"].Num? then r["created_at"].n else 0
  }

  /** Non-increasing creation time along the sequence. */
  predicate NewestFirst(s: seq<Record>) {
    forall i, j :: 0 <= i < j < |s| ==> CreatedAt(s[i]) >= CreatedAt(s[j])
  }

  /**
   * Puts `x` in front of the first record that is not newer than it; `x` comes
   * from earlier in the input than every record of `s`, so ties keep input order.
   */
  function Insert(x: Record, s: seq<Record>): (r: seq<Record>)
    requires NewestFirst(s)
    ensures NewestFirst(r)
    ensures multiset(r) == multiset(s) + multiset{x}
    ensures |r| == |s| + 1
  {
    if s == [] || CreatedAt(s[0]) <= CreatedAt(x) then [x] + s
    else
      var t := Insert(x, s[1..]);
      assert s == [s[0]] + s[1..];
      NewerThanAll(s[0], x, s[1..], t);
      [s[0]] + t
  }

  lemma NewerThanAll(h: Record, x: Record, s: seq<Record>, t: seq<Record>)
    requires NewestFirst([h] + s) && CreatedAt(h) > CreatedAt(x)
    requires NewestFirst(t) && multiset(t) == multiset(s) + multiset{x}
    ensures NewestFirst([h] + t)
  {
    forall j | 0 <= j < |t| ensures CreatedAt(h) >= CreatedAt(t[j]) {
      assert t[j] in multiset(t);
      if t[j] != x {
        assert t[j] in multiset(s);
        var k :| 0 <= k < |s| && s[k] == t[j];
        assert ([h] + s)[0] == h && ([h] + s)[k + 1] == s[k];
      }
    }
    var r := [h] + t;
    forall i, j | 0 <= i < j < |r| ensures CreatedAt(r[i]) >= CreatedAt(r[j]) {
      if i > 0 { assert r[i] == t[i - 1] && r[j] == t[j - 1]; }
      else { assert r[j] == t[j - 1]; }
    }
  }

  /** The records of `s`, newest first. */
  function SortNewestFirst(s: seq<Record>): (r: seq<Record>)
    ensures NewestFirst(r)
    ensures multiset(r) == multiset(s)
    ensures |r| == |s|
  {
    if s == [] then []
    else
      assert s == [s[0]] + s[1..];
      Insert(s[0], SortNewestFirst(s[1..]))
  }

  /** Sorting neither adds nor drops a record. */
  lemma SortedMembers(s: seq<Record>, x: Record)
    ensures x in SortNewestFirst(s) <==> x in s
  {
    var r := SortNewestFirst(s);
    assert x in r <==> x in multiset(r);
    assert x in s <==> x in multiset(s);
  }
}
