/**
 * Seed derivation: the calendar date packed as a decimal number
 * yyyymmdd, plus the sum of the daily contribution counts when the fetch
 * produced a list at all.
 */
module Seed {

  datatype Option<T> = None | Some(value: T)

  /** One day of the contribution calendar; only the count is used. */
  datatype ContributionDay = ContributionDay(contributionCount: int, date: string)

  /** The number of trailing days the fetch keeps. */
  const Window: nat := 30

  /** `days.slice(-30)`: the most recent (at most) 30 days, in their order. */
  function LastDays(days: seq<ContributionDay>): (w: seq<ContributionDay>)
    ensures |w| == if |days| < Window then |days| else Window
    ensures days == days[..|days| - |w|] + w
  {
    if |days| <= Window then days else days[|days| - Window..]
  }

  /** year*10000 + month*100 + day, with a 1-based month. */
  function DateValue(year: int, month: int, day: int): int
  {
    year * 10000 + month * 100 + day
  }

  /** `reduce((sum, day) => sum + day.contributionCount, 0)`, folding from the left. */
  function SumCounts(days: seq<ContributionDay>): int
  {
    if days == [] then 0
    else SumCounts(days[..|days| - 1]) + days[|days| - 1].contributionCount
  }

  /** Non-negative daily counts. */
  predicate NonNegativeCounts(days: seq<ContributionDay>)
  {
    forall k :: 0 <= k < |days| ==> days[k].contributionCount >= 0
  }

  /**
   * The seed of a run.  A present list (even an empty one) adds its sum;
   * a missing list (the fetch failed) leaves the date value alone.
   */
  function DeriveSeed(year: int, month: int, day: int, contributions: Option<seq<ContributionDay>>): (seed: int)
    ensures contributions.None? ==> seed == DateValue(year, month, day)
    ensures contributions.Some? ==> seed - DateValue(year, month, day) == SumCounts(contributions.value)
  {
    var base := DateValue(year, month, day);
    match contributions
    case None => base
    case Some(days) => base + SumCounts(days)
  }

  /** The sum of a concatenation is the sum of the parts. */
  lemma {:induction false} SumCountsAppend(a: seq<ContributionDay>, b: seq<ContributionDay>)
    ensures SumCounts(a + b) == SumCounts(a) + SumCounts(b)
    decreases |b|
  {
    if b == [] {
      assert a + b == a;
    } else {
      var b' := b[..|b| - 1];
      assert (a + b)[..|a + b| - 1] == a + b';
      assert (a + b)[|a + b| - 1] == b[|b| - 1];
      SumCountsAppend(a, b');
    }
  }

  /** With non-negative counts the sum is non-negative and at least each single count. */
  lemma {:induction false} SumCountsBounds(days: seq<ContributionDay>, k: nat)
    requires NonNegativeCounts(days)
    requires k < |days|
    ensures SumCounts(days) >= days[k].contributionCount >= 0
    decreases |days|
  {
    var init := days[..|days| - 1];
    SumCountsNonNegative(init);
    if k < |days| - 1 {
      SumCountsBounds(init, k);
    }
  }

  /** With non-negative counts the sum is non-negative. */
  lemma {:induction false} SumCountsNonNegative(days: seq<ContributionDay>)
    requires NonNegativeCounts(days)
    ensures SumCounts(days) >= 0
    decreases |days|
  {
    if days != [] {
      SumCountsNonNegative(days[..|days| - 1]);
    }
  }

  /** With non-negative counts the seed is never below the date value. */
  lemma SeedAtLeastDate(year: int, month: int, day: int, contributions: Option<seq<ContributionDay>>)
    requires contributions.Some? ==> NonNegativeCounts(contributions.value)
    ensures DeriveSeed(year, month, day, contributions) >= DateValue(year, month, day)
  {
    if contributions.Some? {
      SumCountsNonNegative(contributions.value);
    }
  }

  /** An empty list is present data that contributes nothing. */
  lemma EmptyListAddsNothing(year: int, month: int, day: int)
    ensures DeriveSeed(year, month, day, Some([])) == DeriveSeed(year, month, day, None)
  {
  }

  /** For a fixed date, the seed changes exactly when the contribution sum changes. */
  lemma SeedSensitivity(year: int, month: int, day: int, a: seq<ContributionDay>, b: seq<ContributionDay>)
    ensures DeriveSeed(year, month, day, Some(a)) == DeriveSeed(year, month, day, Some(b))
        <==> SumCounts(a) == SumCounts(b)
  {
  }

  /** The worked example: 2024-03-15 without data gives 20240315. */
  lemma DateOnlyExample()
    ensures DeriveSeed(2024, 3, 15, None) == 20240315
  {
  }

  /** Reads year, month and day back out of a yyyymmdd value. */
  function SplitDate(v: int): (int, int, int)
  {
    (v / 10000, v % 10000 / 100, v % 100)
  }

  /**
   * Distinct calendar dates give distinct date values: the packing is
   * undone by SplitDate whenever month and day have two digits.
   */
  lemma DateValueRoundTrip(year: int, month: int, day: int)
    requires 0 <= month < 100 && 0 <= day < 100
    ensures SplitDate(DateValue(year, month, day)) == (year, month, day)
  {
    var low := month * 100 + day;
    SplitLow(year, low);
    HundredsOfLow(year, low);
    SplitPair(month, day);
  }

  lemma SplitLow(q: int, r: int)
    requires 0 <= r < 10000
    ensures (q * 10000 + r) / 10000 == q && (q * 10000 + r) % 10000 == r
  {
  }

  lemma SplitPair(q: int, r: int)
    requires 0 <= r < 100
    ensures (q * 100 + r) / 100 == q && (q * 100 + r) % 100 == r
  {
  }

  lemma HundredsOfLow(q: int, r: int)
    ensures (q * 10000 + r) % 100 == r % 100
  {
    assert q * 10000 + r == (q * 100) * 100 + r;
  }
}
