/** The numbers behind `DashboardCalculator.predictUpcomingCharges`: medians, cadences and steps. */
module ChargeCadence {
  import opened Prelude
  import opened Calendar
  import opened Sorting

  datatype Cadence = Weekly | Biweekly | Monthly | Quarterly | Yearly

  const CADENCES: seq<Cadence> := [Weekly, Biweekly, Monthly, Quarterly, Yearly]

  function CadenceDays(c: Cadence): int {
    match c
    case Weekly => 7
    case Biweekly => 14
    case Monthly => 30
    case Quarterly => 91
    case Yearly => 365
  }

  // ----- median and cadence; medians are kept doubled, so halves stay whole

  function Ascending(): (int, int) -> bool {
    (a: int, b: int) => a <= b
  }

  /** Twice the middle of a sorted list; zero when it is empty. */
  function TwiceMiddle(sorted: seq<int>): int {
    var middle := |sorted| / 2;
    if sorted == [] then 0
    else if |sorted| % 2 == 1 then 2 * sorted[middle]
    else sorted[middle - 1] + sorted[middle]
  }

  function TwiceMedian(values: seq<int>): int {
    TwiceMiddle(Sort(values, Ascending()))
  }

  predicate NonDecreasing(s: seq<int>) {
    forall i, j :: 0 <= i <= j < |s| ==> s[i] <= s[j]
  }

  lemma {:induction false} SortedAscending(values: seq<int>)
    ensures NonDecreasing(Sort(values, Ascending()))
  {
    SortSorts(values, Ascending());
    var sorted := Sort(values, Ascending());
    forall i, j | 0 <= i <= j < |sorted|
      ensures sorted[i] <= sorted[j]
    {
      assert i < j ==> Ascending()(sorted[i], sorted[j]);
    }
  }

  lemma {:induction false} MiddleSplits(sorted: seq<int>, i: nat)
    requires NonDecreasing(sorted) && i < |sorted|
    ensures 2 * i < |sorted| ==> 2 * sorted[i] <= TwiceMiddle(sorted)
    ensures 2 * i >= |sorted| - 1 ==> 2 * sorted[i] >= TwiceMiddle(sorted)
  {
  }

  /** Half of the sorted values lie on either side of the median. */
  lemma {:induction false} MedianSplits(values: seq<int>, i: nat)
    requires i < |values|
    ensures 2 * i < |values| ==> 2 * Sort(values, Ascending())[i] <= TwiceMedian(values)
    ensures 2 * i >= |values| - 1 ==> 2 * Sort(values, Ascending())[i] >= TwiceMedian(values)
  {
    SortedAscending(values);
    MiddleSplits(Sort(values, Ascending()), i);
  }

  /** |median - days| <= max(2, 12% of days), scaled by 50 over a doubled median. */
  predicate Matches(c: Cadence, twiceMedian: int) {
    25 * Abs(twiceMedian - 2 * CadenceDays(c)) <= Max(100, 6 * CadenceDays(c))
  }

  /** The first entry with the smallest score among the matching ones. */
  function BestMatch(cadences: seq<Cadence>, twiceMedian: int): Option<Cadence> {
    if cadences == [] then None
    else
      var rest := BestMatch(cadences[1..], twiceMedian);
      var score := (c: Cadence) => Abs(twiceMedian - 2 * CadenceDays(c));
      if Matches(cadences[0], twiceMedian) && (rest.None? || score(cadences[0]) <= score(rest.value))
      then Some(cadences[0]) else rest
  }

  function MatchCadence(twiceMedian: int): Option<Cadence> {
    BestMatch(CADENCES, twiceMedian)
  }

  lemma {:induction false} BestMatchIsAMatch(cadences: seq<Cadence>, twiceMedian: int)
    ensures var best := BestMatch(cadences, twiceMedian);
            && (best.Some? ==> best.value in cadences && Matches(best.value, twiceMedian))
            && (best.None? ==> forall c :: c in cadences ==> !Matches(c, twiceMedian))
  {
    if cadences != [] {
      BestMatchIsAMatch(cadences[1..], twiceMedian);
      assert forall c :: c in cadences ==> c == cadences[0] || c in cadences[1..];
    }
  }

  /** The tolerance bands do not overlap, so the score never decides: a cadence is found exactly when
      the median lies in its band. */
  lemma {:induction false} CadenceIsDetermined(twiceMedian: int, c: Cadence)
    ensures MatchCadence(twiceMedian) == Some(c) <==> Matches(c, twiceMedian)
  {
    BestMatchIsAMatch(CADENCES, twiceMedian);
    assert c in CADENCES by {
      assert CADENCES[0] == Weekly && CADENCES[1] == Biweekly && CADENCES[2] == Monthly
          && CADENCES[3] == Quarterly && CADENCES[4] == Yearly;
    }
  }

  // ----- stepping from the latest charge

  function Step(c: Cadence, d: Date): (r: Date)
    requires Valid(d)
    ensures Valid(r)
  {
    if c == Monthly then AddMonthsClamped(d, 1) else AddDays(d, CadenceDays(c))
  }

  lemma {:induction false} StepAdvances(c: Cadence, d: Date)
    requires Valid(d)
    ensures DayNumber(Step(c, d)) >= DayNumber(d) + 7
  {
    MonthStep(d);
    AddDaysNumber(d, CadenceDays(c));
  }

  function Iterate(c: Cadence, d: Date, k: nat): (r: Date)
    requires Valid(d)
    ensures Valid(r)
  {
    if k == 0 then d else Step(c, Iterate(c, d, k - 1))
  }

  lemma {:induction false} IteratesAdvance(c: Cadence, d: Date, j: nat, k: nat)
    requires Valid(d) && j <= k
    ensures DayNumber(Iterate(c, d, j)) <= DayNumber(Iterate(c, d, k))
  {
    if j < k {
      IteratesAdvance(c, d, j, k - 1);
      var before := Iterate(c, d, k - 1);
      StepAdvances(c, before);
      assert Iterate(c, d, k) == Step(c, before);
    }
  }

  /** The date loop of the prediction: step once, then on until the date is after today. */
  method NextCharge(c: Cadence, latest: Date, today: Date) returns (next: Date, ghost k: nat)
    requires Valid(latest) && Valid(today)
    ensures k >= 1 && next == Iterate(c, latest, k)
    ensures Valid(next) && Before(today, next)
    ensures forall j: nat :: 1 <= j < k ==> !Before(today, Iterate(c, latest, j))
  {
    next := Step(c, latest);
    k := 1;
    while !Before(today, next)
      invariant k >= 1 && Valid(next) && next == Iterate(c, latest, k)
      invariant forall j: nat :: 1 <= j < k ==> !Before(today, Iterate(c, latest, j))
      decreases DayNumber(today) + 1 - DayNumber(next)
    {
      StepAdvances(c, next);
      OrderIsDayOrder(today, next);
      next := Step(c, next);
      k := k + 1;
    }
  }

  /** `next` is the earliest date strictly after `today` among the dates after `latest` in the sequence. */
  ghost predicate EarliestAfter(c: Cadence, latest: Date, today: Date, next: Date)
    requires Valid(latest) && Valid(today)
  {
    && Valid(next) && Before(today, next)
    && (exists k: nat :: k >= 1 && next == Iterate(c, latest, k))
    && (forall j: nat :: j >= 1 && Before(today, Iterate(c, latest, j)) ==> DayNumber(next) <= DayNumber(Iterate(c, latest, j)))
  }

  lemma {:induction false} FirstIsEarliest(c: Cadence, latest: Date, today: Date, next: Date, k: nat)
    requires Valid(latest) && Valid(today) && k >= 1 && next == Iterate(c, latest, k) && Before(today, next)
    requires forall j: nat :: 1 <= j < k ==> !Before(today, Iterate(c, latest, j))
    ensures EarliestAfter(c, latest, today, next)
  {
    forall j: nat | j >= 1 && Before(today, Iterate(c, latest, j))
      ensures DayNumber(next) <= DayNumber(Iterate(c, latest, j))
    {
      IteratesAdvance(c, latest, k, Max(j, k));
    }
  }

  lemma {:induction false} EarliestIsUnique(c: Cadence, latest: Date, today: Date, a: Date, b: Date)
    requires Valid(latest) && Valid(today)
    requires EarliestAfter(c, latest, today, a) && EarliestAfter(c, latest, today, b)
    ensures a == b
  {
    OrderIsDayOrder(a, b);
  }

  // ----- monthly steps lose the day of the month

  /** The old day of the month, cut down by every month entered on the way. */
  function ClampedDay(day: int, index: int, k: nat): int {
    if k == 0 then day else Min(ClampedDay(day, index, k - 1), MonthLength(index + k))
  }

  /** The k-th monthly date lies k months later, on the day left over by the shortest month entered. */
  lemma {:induction false} MonthlyIterate(d: Date, k: nat)
    requires Valid(d)
    ensures MonthIndex(Iterate(Monthly, d, k)) == MonthIndex(d) + k
    ensures Iterate(Monthly, d, k).day == ClampedDay(d.day, MonthIndex(d), k)
  {
    if k > 0 {
      MonthlyIterate(d, k - 1);
      MonthStep(Iterate(Monthly, d, k - 1));
    }
  }

  lemma {:induction false} ClampedDayIsMinimum(day: int, index: int, k: nat, bound: int)
    ensures ClampedDay(day, index, k) >= bound
       <==> day >= bound && forall i :: index < i <= index + k ==> MonthLength(i) >= bound
  {
    if k > 0 {
      ClampedDayIsMinimum(day, index, k - 1, bound);
    }
  }

  lemma {:induction false} SameMonth(a: Date, b: Date)
    requires Valid(a) && Valid(b) && MonthIndex(a) == MonthIndex(b)
    ensures a == b <==> a.day == b.day
  {
  }

  lemma {:induction false} ClampedDayBound(day: int, index: int, k: nat)
    ensures ClampedDay(day, index, k) <= day
    ensures k > 0 ==> ClampedDay(day, index, k) <= MonthLength(index + k)
  {
    if k > 0 {
      ClampedDayBound(day, index, k - 1);
    }
  }

  lemma {:induction false} JumpOf(d: Date, k: nat)
    requires Valid(d)
    ensures MonthIndex(AddMonthsClamped(d, k)) == MonthIndex(d) + k
    ensures AddMonthsClamped(d, k).day == Min(d.day, MonthLength(MonthIndex(d) + k))
    ensures k == 0 ==> AddMonthsClamped(d, k).day == d.day
  {
  }

  /** Iterating the monthly step agrees with one jump of k months if and only if no month on the way is
      too short for the day the jump lands on: a charge on the 31st is predicted for the 28th ever after
      its first February. */
  lemma {:induction false} MonthlyDrift(d: Date, k: nat)
    requires Valid(d)
    ensures Iterate(Monthly, d, k) == AddMonthsClamped(d, k)
       <==> forall i :: MonthIndex(d) < i <= MonthIndex(d) + k ==> MonthLength(i) >= Min(d.day, MonthLength(MonthIndex(d) + k))
  {
    var index := MonthIndex(d);
    var stepped, direct := Iterate(Monthly, d, k), AddMonthsClamped(d, k);
    MonthlyIterate(d, k);
    JumpOf(d, k);
    SameMonth(stepped, direct);
    ClampedDayBound(d.day, index, k);
    ClampedDayIsMinimum(d.day, index, k, direct.day);
  }

  /** From 31 January 2023, two steps lead to 28 March and one jump of two months to 31 March. */
  lemma {:induction false} JanuaryDriftsToMarch28()
    ensures Iterate(Monthly, Date(2023, 1, 31), 2) == Date(2023, 3, 28)
    ensures AddMonthsClamped(Date(2023, 1, 31), 2) == Date(2023, 3, 31)
  {
    assert Iterate(Monthly, Date(2023, 1, 31), 1) == Step(Monthly, Date(2023, 1, 31)) == Date(2023, 2, 28);
  }
}
