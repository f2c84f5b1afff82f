/**
 * The list of alarm times kept by the home page, as values.
 *
 * An alarm is its fire time in milliseconds since the epoch (the value
 * `Date.getTime()` gives). The functions below stand for the library calls the
 * page makes on its list -- `sort` with the comparator `a - b`, `filter` on
 * "strictly after now", `splice(index, 1)` -- and for the delays handed to
 * `setTimeout`. The lemmas state what the page relies on them for.
 */
module AlarmList {

  /** Ascending order by time; equal times may sit in any order. */
  predicate Sorted(s: seq<int>)
  {
    forall i, j :: 0 <= i < j < |s| ==> s[i] <= s[j]
  }

  /** Every alarm of `s` lies strictly after `now`. */
  predicate AllAfter(s: seq<int>, now: int)
  {
    forall i :: 0 <= i < |s| ==> now < s[i]
  }

  // ---------------------------------------------------------------------------
  // Sorting (Array.prototype.sort with the comparator a.time - b.time)
  // ---------------------------------------------------------------------------

  /** Places `x` into the sorted list `s`. */
  function Insert(x: int, s: seq<int>): (r: seq<int>)
    requires Sorted(s)
    ensures Sorted(r)
    ensures |r| == |s| + 1
    ensures multiset(r) == multiset(s) + multiset{x}
  {
    if s == [] || x <= s[0] then
      [x] + s
    else
      TailSorted(s);
      var rest := Insert(x, s[1..]);
      assert s == [s[0]] + s[1..];
      HeadBelowInserted(s, x, rest);
      ConsSorted(s[0], rest);
      [s[0]] + rest
  }

  /** Everything in `rest`, which holds the tail of `s` and a later alarm `x`, comes at or after `s[0]`. */
  lemma HeadBelowInserted(s: seq<int>, x: int, rest: seq<int>)
    requires Sorted(s) && s != [] && s[0] < x
    requires multiset(rest) == multiset(s[1..]) + multiset{x}
    ensures forall k :: 0 <= k < |rest| ==> s[0] <= rest[k]
  {
    forall k | 0 <= k < |rest|
      ensures s[0] <= rest[k]
    {
      assert rest[k] in multiset(rest);
      if rest[k] != x {
        assert rest[k] in s[1..];
      }
    }
  }

  /** Putting an alarm no later than all of a sorted list in front keeps it sorted. */
  lemma ConsSorted(y: int, r: seq<int>)
    requires Sorted(r)
    requires forall k :: 0 <= k < |r| ==> y <= r[k]
    ensures Sorted([y] + r)
  {
  }

  /** The list in ascending order of time: a sorted permutation of `s`. */
  function SortAscending(s: seq<int>): (r: seq<int>)
    ensures Sorted(r)
    ensures |r| == |s|
    ensures multiset(r) == multiset(s)
  {
    if s == [] then
      []
    else
      assert s == [s[0]] + s[1..];
      Insert(s[0], SortAscending(s[1..]))
  }

  /**
   * A sorted permutation is unique: two sorted lists with the same elements
   * are equal. So every correct sort of alarm times (stable or not) yields
   * SortAscending's result, and the unspecified order of equal times is
   * invisible, since equal alarms are equal values.
   */
  lemma {:induction false} SortedPermutationUnique(a: seq<int>, b: seq<int>)
    requires Sorted(a) && Sorted(b)
    requires multiset(a) == multiset(b)
    ensures a == b
    decreases |a|
  {
    if a == [] {
      assert |b| == |multiset(b)| == 0;
    } else {
      assert |b| == |multiset(b)| == |multiset(a)| == |a|;
      assert a[0] in multiset(a) && b[0] in multiset(b);
      HeadIsLeast(a, b[0]);
      HeadIsLeast(b, a[0]);
      var first := a[0];
      assert b[0] == first;
      assert a == [first] + a[1..];
      assert b == [first] + b[1..];
      calc {
        multiset(a[1..]);
        multiset(a) - multiset{first};
        multiset(b) - multiset{first};
        multiset(b[1..]);
      }
      TailSorted(a);
      TailSorted(b);
      SortedPermutationUnique(a[1..], b[1..]);
    }
  }

  /** Dropping the earliest alarm of a sorted list leaves it sorted. */
  lemma TailSorted(s: seq<int>)
    requires Sorted(s) && s != []
    ensures Sorted(s[1..])
  {
    forall i, j | 0 <= i < j < |s| - 1
      ensures s[1..][i] <= s[1..][j]
    {
      assert s[1..][i] == s[i + 1] && s[1..][j] == s[j + 1];
    }
  }

  /** The head of a sorted list is its earliest alarm. */
  lemma HeadIsLeast(s: seq<int>, y: int)
    requires Sorted(s)
    requires y in multiset(s)
    ensures s[0] <= y
  {
    var i :| 0 <= i < |s| && s[i] == y;
  }

  /** Sorting a list that is already in order changes nothing. */
  lemma SortOfSorted(s: seq<int>)
    requires Sorted(s)
    ensures SortAscending(s) == s
  {
    SortedPermutationUnique(SortAscending(s), s);
  }

  // ---------------------------------------------------------------------------
  // Purging (Array.prototype.filter keeping alarm.time > now)
  // ---------------------------------------------------------------------------

  /**
   * The alarms of `s` strictly after `now`, in their original order: every
   * kept alarm is in the future, and every future alarm of `s` is kept as
   * often as it occurs in `s`.
   */
  function Upcoming(s: seq<int>, now: int): (r: seq<int>)
    ensures |r| <= |s|
    ensures AllAfter(r, now)
    ensures forall t :: multiset(r)[t] == if now < t then multiset(s)[t] else 0
  {
    if s == [] then
      []
    else
      assert s == [s[0]] + s[1..];
      (if now < s[0] then [s[0]] else []) + Upcoming(s[1..], now)
  }

  /** Purging a list whose alarms all lie in the future keeps all of it. */
  lemma {:induction false} UpcomingOfFuture(s: seq<int>, now: int)
    requires AllAfter(s, now)
    ensures Upcoming(s, now) == s
  {
    if s != [] {
      assert s == [s[0]] + s[1..];
      UpcomingOfFuture(s[1..], now);
    }
  }

  /**
   * Purging works alarm by alarm: purging two lists joined is joining the
   * two purged lists. So the purge keeps the relative order of what it keeps.
   */
  lemma {:induction false} UpcomingAppend(a: seq<int>, b: seq<int>, now: int)
    ensures Upcoming(a + b, now) == Upcoming(a, now) + Upcoming(b, now)
  {
    if a == [] {
      assert a + b == b;
    } else {
      var head := if now < a[0] then [a[0]] else [];
      assert (a + b)[0] == a[0];
      assert (a + b)[1..] == a[1..] + b;
      UpcomingAppend(a[1..], b, now);
      calc {
        Upcoming(a + b, now);
        head + Upcoming(a[1..] + b, now);
        head + (Upcoming(a[1..], now) + Upcoming(b, now));
        (head + Upcoming(a[1..], now)) + Upcoming(b, now);
        Upcoming(a, now) + Upcoming(b, now);
      }
    }
  }

  /** Purging an order-preserving filter: a sorted list stays sorted. */
  lemma {:induction false} UpcomingKeepsSorted(s: seq<int>, now: int)
    requires Sorted(s)
    ensures Sorted(Upcoming(s, now))
  {
    if s != [] {
      UpcomingKeepsSorted(s[1..], now);
      var rest := Upcoming(s[1..], now);
      forall k | 0 <= k < |rest|
        ensures s[0] <= rest[k]
      {
        assert rest[k] in multiset(rest);
        assert rest[k] in multiset(s[1..]);
      }
    }
  }

  // ---------------------------------------------------------------------------
  // Loading (ngOnInit: purge, then sort)
  // ---------------------------------------------------------------------------

  /**
   * The list the page keeps after loading `s` from storage at time `now`:
   * sorted, all in the future, and holding exactly the future alarms of `s`.
   */
  function Loaded(s: seq<int>, now: int): (r: seq<int>)
    ensures Sorted(r)
    ensures AllAfter(r, now)
    ensures forall t :: multiset(r)[t] == if now < t then multiset(s)[t] else 0
  {
    var r := SortAscending(Upcoming(s, now));
    forall i | 0 <= i < |r|
      ensures now < r[i]
    {
      assert r[i] in multiset(r);
    }
    r
  }

  /**
   * Saving then loading gives the list back: a sorted list of future alarms
   * written to storage is loaded unchanged.
   */
  lemma SaveThenLoad(s: seq<int>, now: int)
    requires Sorted(s)
    requires AllAfter(s, now)
    ensures Loaded(s, now) == s
  {
    UpcomingOfFuture(s, now);
    SortOfSorted(s);
  }

  /**
   * Loading again later purges what has expired since and nothing else;
   * loading again at the same time (`now1 == now2`) changes nothing.
   */
  lemma LoadAgainLater(s: seq<int>, now1: int, now2: int)
    requires now1 <= now2
    ensures Loaded(Loaded(s, now1), now2) == Loaded(s, now2)
  {
    var once := Loaded(s, now1);
    var twice := Loaded(once, now2);
    var direct := Loaded(s, now2);
    forall t
      ensures multiset(twice)[t] == multiset(direct)[t]
    {
      if now2 < t {
        assert multiset(twice)[t] == multiset(once)[t];
      }
    }
    assert multiset(twice) == multiset(direct);
    SortedPermutationUnique(twice, direct);
  }

  // ---------------------------------------------------------------------------
  // Arming timers (setTimeout(playAlarm, time - now))
  // ---------------------------------------------------------------------------

  /**
   * The delays handed to `setTimeout` for `s`, one per alarm and in list
   * order: each delay is `time - now`.
   */
  function Delays(s: seq<int>, now: int): (r: seq<int>)
    ensures |r| == |s|
    ensures forall i :: 0 <= i < |s| ==> now + r[i] == s[i]
  {
    if s == [] then [] else [s[0] - now] + Delays(s[1..], now)
  }

  /** Arming the timer of one more alarm appends its delay. */
  lemma DelaysExtend(s: seq<int>, i: nat, now: int)
    requires i < |s|
    ensures Delays(s[..i + 1], now) == Delays(s[..i], now) + [s[i] - now]
  {
    assert s[..i + 1][..i] == s[..i];
  }

  /** Every timer is armed for a positive delay exactly when every alarm is in the future. */
  lemma DelaysPositive(s: seq<int>, now: int)
    ensures AllAfter(Delays(s, now), 0) <==> AllAfter(s, now)
  {
  }

  // ---------------------------------------------------------------------------
  // Deleting (Array.prototype.splice(index, 1))
  // ---------------------------------------------------------------------------

  /**
   * Where `splice(index, 1)` starts on a list of length `len`: a negative index
   * counts back from the end (and stops at 0), a large one stops at `len`.
   */
  function SpliceStart(len: nat, index: int): (k: nat)
    ensures k <= len
    ensures 0 <= index <= len ==> k == index
    ensures index < 0 && 0 <= len + index ==> k == len + index
    ensures len + index < 0 ==> k == 0
    ensures len < index ==> k == len
  {
    if index < 0 then
      (if len + index < 0 then 0 else len + index)
    else
      (if index < len then index else len)
  }

  /**
   * The list after `splice(index, 1)`: at most one alarm goes, the others
   * keep their relative order.
   */
  function SpliceOne(s: seq<int>, index: int): (r: seq<int>)
    ensures 0 <= index < |s| ==> r == s[..index] + s[index + 1..]
    ensures -|s| <= index < 0 ==> r == s[..|s| + index] + s[|s| + index + 1..]
    ensures index < -|s| && s != [] ==> r == s[1..]
    ensures |s| <= index ==> r == s
    ensures |r| == if s == [] || |s| <= index then |s| else |s| - 1
  {
    var k := SpliceStart(|s|, index);
    if k < |s| then
      assert s == s[..k] + [s[k]] + s[k + 1..];
      s[..k] + s[k + 1..]
    else
      s
  }

  /** Deleting an alarm keeps the list sorted, whatever the index. */
  lemma DeleteKeepsSorted(s: seq<int>, index: int)
    requires Sorted(s)
    ensures Sorted(SpliceOne(s, index))
  {
    var k := SpliceStart(|s|, index);
    if k < |s| {
      RemoveAtKeepsSorted(s, k);
    }
  }

  /** Removing the alarm at position `k` of a sorted list leaves it sorted. */
  lemma RemoveAtKeepsSorted(s: seq<int>, k: nat)
    requires Sorted(s) && k < |s|
    ensures Sorted(s[..k] + s[k + 1..])
  {
    var r := s[..k] + s[k + 1..];
    assert forall m :: 0 <= m < k ==> r[m] == s[m];
    assert forall m :: k <= m < |r| ==> r[m] == s[m + 1];
  }
}
