/** The initiative/release defaulting rule shared by the create and update
    handlers of both screens: the calendar-month distance from "now" to the
    chosen start date selects element 0, 1 or 2 of each reference list. */
module Bucket {
  import opened Common

  /** Whole calendar months from `now` to `start`, ignoring the day of month:
      the distance between the two months counted from year 0. */
  function MonthsDiff(start: Date, now: Date): (d: int)
    ensures d == (start.year * 12 + start.month) - (now.year * 12 + now.month)
    ensures start.year == now.year ==> d == start.month - now.month
    ensures start.month == now.month ==> d == 12 * (start.year - now.year)
  {
    (start.year - now.year) * 12 + start.month - now.month
  }

  /** The date `k` months after `d` (`d.month` is 0-based), keeping the day. */
  function AddMonths(d: Date, k: int): (r: Date)
    requires 0 <= d.month < 12
    ensures 0 <= r.month < 12
  {
    Date(d.year + (d.month + k) / 12, (d.month + k) % 12, d.day)
  }

  /** Moving a date `k` months ahead puts it exactly `k` months from where it was. */
  lemma MonthsDiffAddMonths(now: Date, k: int)
    requires 0 <= now.month < 12
    ensures MonthsDiff(AddMonths(now, k), now) == k
  {
    var m := now.month + k;
    assert m == (m / 12) * 12 + m % 12;
  }

  /** The window a month distance falls in: [0,3) and the past give 0,
      [3,6) gives 1, 6 and beyond give 2. */
  function Classify(monthsDiff: int): (b: nat)
    ensures b <= 2
    ensures b == 0 <==> monthsDiff < 3
    ensures b == 1 <==> 3 <= monthsDiff < 6
    ensures b == 2 <==> 6 <= monthsDiff
  {
    if monthsDiff >= 3 && monthsDiff < 6 then 1
    else if monthsDiff >= 6 then 2
    else 0
  }

  /** A later start date never falls in an earlier window. */
  lemma ClassifyMonotone(d1: int, d2: int)
    requires d1 <= d2
    ensures Classify(d1) <= Classify(d2)
  {
  }

  /** The boundary cases: today, three and six months ahead, one month ago. */
  lemma ClassifyBoundaries(now: Date)
    requires 0 <= now.month < 12
    ensures Classify(MonthsDiff(now, now)) == 0
    ensures Classify(MonthsDiff(AddMonths(now, 3), now)) == 1
    ensures Classify(MonthsDiff(AddMonths(now, 6), now)) == 2
    ensures Classify(MonthsDiff(AddMonths(now, -1), now)) == 0
  {
    MonthsDiffAddMonths(now, 3);
    MonthsDiffAddMonths(now, 6);
    MonthsDiffAddMonths(now, -1);
  }

  /** The reference-list element the rule defaults to: the element at the
      window's index, element 0 when the list is too short, none when empty. */
  function Pick<T>(list: seq<T>, monthsDiff: int): (r: Option<T>)
    ensures r.None? <==> |list| == 0
    ensures Classify(monthsDiff) < |list| ==> r == Some(list[Classify(monthsDiff)])
    ensures 0 < |list| <= Classify(monthsDiff) ==> r == Some(list[0])
  {
    if |list| == 0 then None
    else if Classify(monthsDiff) < |list| then Some(list[Classify(monthsDiff)])
    else Some(list[0])
  }

  /** The cases of the rule, one by one. */
  lemma PickCases<T>(list: seq<T>, d: int)
    ensures |list| == 0 <==> Pick(list, d).None?
    ensures |list| > 0 && d < 3 ==> Pick(list, d) == Some(list[0])
    ensures 3 <= d < 6 && |list| > 1 ==> Pick(list, d) == Some(list[1])
    ensures 3 <= d < 6 && |list| == 1 ==> Pick(list, d) == Some(list[0])
    ensures 6 <= d && |list| > 2 ==> Pick(list, d) == Some(list[2])
    ensures 6 <= d && 0 < |list| <= 2 ==> Pick(list, d) == Some(list[0])
  {
  }

  /** Whatever the date, the default is one of the first three elements. */
  lemma PickInFirstThree<T>(list: seq<T>, d: int)
    ensures Pick(list, d).Some? ==>
      exists i :: 0 <= i < 3 && i < |list| && Pick(list, d) == Some(list[i])
  {
    if |list| > 0 {
      var i := if Classify(d) < |list| then Classify(d) else 0;
      assert Pick(list, d) == Some(list[i]);
    }
  }

  /** The block the handlers run: default both choices to element 0, then
      move them to element 1 or 2 when the start date is far enough ahead
      and the list is long enough. */
  method SelectBuckets<I, R>(initiatives: seq<I>, releases: seq<R>, startDate: Date, now: Date)
    returns (initiative: Option<I>, release: Option<R>)
    ensures initiative == Pick(initiatives, MonthsDiff(startDate, now))
    ensures release == Pick(releases, MonthsDiff(startDate, now))
  {
    var monthsDiff := (startDate.year - now.year) * 12 + startDate.month - now.month;

    initiative := if |initiatives| > 0 then Some(initiatives[0]) else None;
    release := if |releases| > 0 then Some(releases[0]) else None;

    if monthsDiff >= 3 && monthsDiff < 6 {
      initiative := if |initiatives| > 1 then Some(initiatives[1]) else initiative;
      release := if |releases| > 1 then Some(releases[1]) else release;
    } else if monthsDiff >= 6 {
      initiative := if |initiatives| > 2 then Some(initiatives[2]) else initiative;
      release := if |releases| > 2 then Some(releases[2]) else release;
    }
  }
}
