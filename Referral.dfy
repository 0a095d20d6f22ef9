/**
 * The user referral analytics page: the weekly referral figure summed from the daily series,
 * and the two-letter avatar fallback.
 */
module Referral {
  import opened JsText

  /** One point of the daily series. */
  datatype Day = Day(date: string, count: int)

  datatype Analytics = Analytics(daily_referrals: seq<Day>)

  /** `days.reduce((sum, day) => sum + day.count, acc)`, folding from the left. */
  function Reduce(days: seq<Day>, acc: int): int
    decreases |days|
  {
    if days == [] then acc else Reduce(days[1..], acc + days[0].count)
  }

  /** The total of the counts, as a reference for the fold. */
  function Total(days: seq<Day>): int
    decreases |days|
  {
    if days == [] then 0 else Total(days[..|days| - 1]) + days[|days| - 1].count
  }

  lemma {:induction false} TotalPrepend(d: Day, days: seq<Day>)
    ensures Total([d] + days) == d.count + Total(days)
    decreases |days|
  {
    if days != [] {
      assert ([d] + days)[..|[d] + days| - 1] == [d] + days[..|days| - 1];
      TotalPrepend(d, days[..|days| - 1]);
    } else {
      assert ([d] + days)[..0] == [];
    }
  }

  /** The fold adds the total of the counts to its start value. */
  lemma {:induction false} ReduceIsTotal(days: seq<Day>, acc: int)
    ensures Reduce(days, acc) == acc + Total(days)
    decreases |days|
  {
    if days != [] {
      ReduceIsTotal(days[1..], acc + days[0].count);
      TotalPrepend(days[0], days[1..]);
      assert [days[0]] + days[1..] == days;
    }
  }

  lemma {:induction false} TotalAppend(a: seq<Day>, b: seq<Day>)
    ensures Total(a + b) == Total(a) + Total(b)
    decreases |b|
  {
    if b == [] {
      assert a + b == a;
    } else {
      assert (a + b)[..|a + b| - 1] == a + b[..|b| - 1];
      TotalAppend(a, b[..|b| - 1]);
    }
  }

  lemma {:induction false} TotalNonNegative(days: seq<Day>)
    requires forall k :: 0 <= k < |days| ==> days[k].count >= 0
    ensures Total(days) >= 0
    decreases |days|
  {
    if days != [] {
      TotalNonNegative(days[..|days| - 1]);
    }
  }

  /** `getWeeklyReferrals()`: 0 without data or without days, else the sum of the last seven. */
  function WeeklyReferrals(analytics: Option<Analytics>): int {
    if analytics.None? || |analytics.value.daily_referrals| == 0 then 0
    else Reduce(Slice(analytics.value.daily_referrals, -7, |analytics.value.daily_referrals|), 0)
  }

  /** The figure is the total of the last seven days, or of all days when there are fewer; it is
      the whole total less the days before the last week. */
  lemma WeeklyIsLastSeven(a: Analytics)
    ensures var days := a.daily_referrals; var from := if |days| < 7 then 0 else |days| - 7;
      && WeeklyReferrals(Some(a)) == Total(days[from..])
      && WeeklyReferrals(Some(a)) == Total(days) - Total(days[..from])
      && (|days| <= 7 ==> WeeklyReferrals(Some(a)) == Total(days))
  {
    var days := a.daily_referrals;
    var from := if |days| < 7 then 0 else |days| - 7;
    if |days| > 0 {
      assert Slice(days, -7, |days|) == days[from..];
      ReduceIsTotal(days[from..], 0);
    }
    TotalAppend(days[..from], days[from..]);
    assert days[..from] + days[from..] == days;
    assert days[..0] == [];
  }

  /** With non-negative counts the figure lies between 0 and the total of the series. */
  lemma WeeklyBounds(a: Analytics)
    requires forall k :: 0 <= k < |a.daily_referrals| ==> a.daily_referrals[k].count >= 0
    ensures 0 <= WeeklyReferrals(Some(a)) <= Total(a.daily_referrals)
  {
    var days := a.daily_referrals;
    var from := if |days| < 7 then 0 else |days| - 7;
    WeeklyIsLastSeven(a);
    TotalNonNegative(days[from..]);
    TotalNonNegative(days[..from]);
  }

  // ----- the avatar fallback -----

  /** `s.substring(start, end)`: both bounds clamped to [0, |s|], and swapped when reversed. */
  function Substring(s: string, start: int, end: int): (r: string)
    ensures |r| <= |s|
  {
    var a := if start < 0 then 0 else if start > |s| then |s| else start;
    var b := if end < 0 then 0 else if end > |s| then |s| else end;
    if a <= b then s[a..b] else s[b..a]
  }

  /** `display_name.substring(0, 2).toUpperCase()` */
  function Initials(displayName: string): (r: string)
    ensures |r| == if |displayName| < 2 then |displayName| else 2
  {
    ToUpper(Substring(displayName, 0, 2))
  }

  /** The fallback is the first two characters upper-cased, the whole name when shorter. */
  lemma InitialsShape(displayName: string)
    ensures |displayName| >= 2 ==> Initials(displayName) == [UpperChar(displayName[0]), UpperChar(displayName[1])]
    ensures |displayName| < 2 ==> Initials(displayName) == ToUpper(displayName)
  {
    if |displayName| < 2 {
      assert displayName[0..|displayName|] == displayName;
    }
  }
}
