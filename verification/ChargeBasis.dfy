/** Which charges of a group decide what is announced: amounts, gaps and cadence, from the charges alone. */
module ChargeBasis {
  import opened Prelude
  import opened Text
  import opened Calendar
  import opened Sorting
  import opened ChargeCadence
  import opened ChargePrediction

  // ----- the median by counting

  function CountBelow(values: seq<int>, bound: int): nat {
    if values == [] then 0 else (if values[0] < bound then 1 else 0) + CountBelow(values[1..], bound)
  }

  /** `v` is the k-th smallest: fewer than k values are below it, and k or more are not above it. */
  predicate IsKth(values: seq<int>, k: int, v: int) {
    CountBelow(values, v) < k <= CountBelow(values, v + 1)
  }

  lemma {:induction false} CountOfConcat(a: seq<int>, b: seq<int>, bound: int)
    ensures CountBelow(a + b, bound) == CountBelow(a, bound) + CountBelow(b, bound)
  {
    if a == [] {
      assert a + b == b;
    } else {
      assert (a + b)[1..] == a[1..] + b;
      CountOfConcat(a[1..], b, bound);
    }
  }

  lemma {:induction false} CountOfInsert(s: seq<int>, x: int, bound: int)
    ensures CountBelow(Insert(s, x, Ascending()), bound) == CountBelow(s, bound) + (if x < bound then 1 else 0)
  {
    if s != [] && s[0] <= x {
      CountOfInsert(s[1..], x, bound);
    }
  }

  lemma {:induction false} CountOfSort(s: seq<int>, bound: int)
    ensures CountBelow(Sort(s, Ascending()), bound) == CountBelow(s, bound)
  {
    if s != [] {
      var n := |s| - 1;
      CountOfSort(s[..n], bound);
      CountOfInsert(Sort(s[..n], Ascending()), s[n], bound);
      CountAtTheEnd(s, bound);
    }
  }

  lemma {:induction false} CountAtTheEnd(s: seq<int>, bound: int)
    requires s != []
    ensures CountBelow(s, bound) == CountBelow(s[..|s| - 1], bound) + (if s[|s| - 1] < bound then 1 else 0)
  {
    CountOfConcat(s[..|s| - 1], [s[|s| - 1]], bound);
    assert s == s[..|s| - 1] + [s[|s| - 1]];
  }

  /** In a sorted list what is below a bound comes first. */
  lemma {:induction false} CountInOrder(s: seq<int>, bound: int, i: nat)
    requires NonDecreasing(s) && i < |s|
    ensures CountBelow(s, bound) <= i <==> s[i] >= bound
    decreases s
  {
    if s[0] >= bound {
      NoneBelow(s, bound);
    } else if i > 0 {
      CountInOrder(s[1..], bound, i - 1);
    }
  }

  lemma {:induction false} NoneBelow(s: seq<int>, bound: int)
    requires forall j :: 0 <= j < |s| ==> s[j] >= bound
    ensures CountBelow(s, bound) == 0
  {
    if s != [] {
      NoneBelow(s[1..], bound);
    }
  }

  lemma {:induction false} KthInOrder(s: seq<int>, i: nat)
    requires NonDecreasing(s) && i < |s|
    ensures IsKth(s, i + 1, s[i])
  {
    CountInOrder(s, s[i], i);
    CountInOrder(s, s[i] + 1, i);
  }

  lemma {:induction false} SameKth(a: seq<int>, b: seq<int>, k: int, v: int)
    requires IsKth(a, k, v) && CountBelow(a, v) == CountBelow(b, v) && CountBelow(a, v + 1) == CountBelow(b, v + 1)
    ensures IsKth(b, k, v)
  {
  }

  lemma {:induction false} CountsAgree(values: seq<int>, sorted: seq<int>, v: int)
    requires sorted == Sort(values, Ascending())
    ensures CountBelow(sorted, v) == CountBelow(values, v)
  {
    CountOfSort(values, v);
  }

  lemma {:induction false} OrderedSort(values: seq<int>, sorted: seq<int>)
    requires sorted == Sort(values, Ascending())
    ensures NonDecreasing(sorted) && |sorted| == |values|
  {
    SortedAscending(values);
  }

  lemma {:induction false} KthOfSort(values: seq<int>, sorted: seq<int>, i: nat, v: int)
    requires sorted == Sort(values, Ascending()) && i < |sorted| && v == sorted[i]
    ensures IsKth(values, i + 1, v)
  {
    OrderedSort(values, sorted);
    KthInOrder(sorted, i);
    CountsAgree(values, sorted, v);
    CountsAgree(values, sorted, v + 1);
    SameKth(sorted, values, i + 1, v);
  }

  /** The median is the middle value, or half-way between the two middle ones. */
  lemma {:induction false} MedianByCounting(values: seq<int>) returns (lo: int, hi: int)
    requires values != []
    ensures IsKth(values, (|values| + 1) / 2, lo) && IsKth(values, |values| / 2 + 1, hi)
    ensures lo <= hi && TwiceMedian(values) == lo + hi
  {
    var sorted := Sort(values, Ascending());
    var i, j := (|values| - 1) / 2, |values| / 2;
    lo, hi := sorted[i], sorted[j];
    OrderedSort(values, sorted);
    KthOfSort(values, sorted, i, lo);
    KthOfSort(values, sorted, j, hi);
    assert (|values| + 1) / 2 == i + 1;
  }

  // ----- the latest charges

  ghost predicate DistinctDates(charges: seq<Charge>) {
    forall i, j :: 0 <= i < j < |charges| ==> charges[i].date != charges[j].date
  }

  function Later(charges: seq<Charge>, t: Charge): set<Charge> {
    set u | u in charges && Before(t.date, u.date)
  }

  /** The charges that at most three others are later than. */
  function Latest(charges: seq<Charge>): set<Charge> {
    set t | t in charges && |Later(charges, t)| <= 3
  }

  /** How many of the charges are of less than `bound`. */
  function Below(charges: set<Charge>, bound: int): nat {
    |set t | t in charges && Abs(t.amount) < bound|
  }

  predicate IsKthOf(charges: set<Charge>, k: int, v: int) {
    Below(charges, v) < k <= Below(charges, v + 1)
  }

  predicate AscendingDates(charges: seq<Charge>) {
    forall i, j :: 0 <= i < j < |charges| ==> Before(charges[i].date, charges[j].date)
  }

  lemma {:induction false} InsertKeepsDistinctDates(s: seq<Charge>, x: Charge)
    requires DistinctDates(s) && forall i :: 0 <= i < |s| ==> s[i].date != x.date
    ensures DistinctDates(Insert(s, x, ByDate()))
  {
    if s != [] && ByDate()(s[0], x) {
      var rest := Insert(s[1..], x, ByDate());
      InsertKeepsDistinctDates(s[1..], x);
      forall j | 0 <= j < |rest|
        ensures rest[j].date != s[0].date
      {
        assert rest[j] in multiset(rest);
        assert rest[j] in s[1..] || rest[j] == x;
      }
    }
  }

  lemma {:induction false} SortKeepsDistinctDates(charges: seq<Charge>)
    requires DistinctDates(charges)
    ensures DistinctDates(Sort(charges, ByDate()))
  {
    if charges != [] {
      var n := |charges| - 1;
      var front := Sort(charges[..n], ByDate());
      SortKeepsDistinctDates(charges[..n]);
      forall i | 0 <= i < |front|
        ensures front[i].date != charges[n].date
      {
        SortMembers(charges[..n], ByDate(), front[i]);
        assert front[i] in front;
      }
      InsertKeepsDistinctDates(front, charges[n]);
    }
  }

  lemma {:induction false} SortedDatesAscend(charges: seq<Charge>)
    requires DistinctDates(charges)
    ensures AscendingDates(Sort(charges, ByDate()))
  {
    var sorted := Sort(charges, ByDate());
    SortKeepsDistinctDates(charges);
    ByDateSorts(charges);
    forall i, j | 0 <= i < j < |sorted|
      ensures Before(sorted[i].date, sorted[j].date)
    {
      assert ByDate()(sorted[i], sorted[j]);
    }
  }

  function Members(s: seq<Charge>): set<Charge> {
    set t | t in s
  }

  lemma {:induction false} DistinctSize(s: seq<Charge>)
    requires forall i, j :: 0 <= i < j < |s| ==> s[i] != s[j]
    ensures |Members(s)| == |s|
  {
    if s != [] {
      DistinctSize(s[1..]);
      assert Members(s) == {s[0]} + Members(s[1..]);
    }
  }

  lemma {:induction false} AscendingAreDistinct(s: seq<Charge>)
    requires AscendingDates(s)
    ensures forall i, j :: 0 <= i < j < |s| ==> s[i] != s[j]
  {
  }

  lemma {:induction false} LaterInOrder(s: seq<Charge>, i: nat)
    requires AscendingDates(s) && i < |s|
    ensures |Later(s, s[i])| == |s| - 1 - i
  {
    AscendingAreDistinct(s);
    DistinctSize(s[i + 1..]);
    forall u
      ensures u in Later(s, s[i]) <==> u in s[i + 1..]
    {
      if u in Later(s, s[i]) {
        var j :| 0 <= j < |s| && s[j] == u;
        assert j > i;
        assert s[i + 1..][j - i - 1] == u;
      }
      if u in s[i + 1..] {
        var j :| 0 <= j < |s[i + 1..]| && s[i + 1..][j] == u;
        assert s[i + 1 + j] == u;
      }
    }
    assert Later(s, s[i]) == Members(s[i + 1..]);
  }

  /** In order, the latest charges are the last four, or all when there are no more. */
  function LastFour(s: seq<Charge>): seq<Charge> {
    if |s| <= 4 then s else s[|s| - 4..]
  }

  lemma {:induction false} LatestInOrder(s: seq<Charge>, t: Charge)
    requires AscendingDates(s)
    ensures t in Latest(s) <==> t in LastFour(s)
  {
    var last := LastFour(s);
    var skipped := |s| - |last|;
    if t in Latest(s) {
      var i :| 0 <= i < |s| && s[i] == t;
      LaterInOrder(s, i);
      assert last[i - skipped] == t;
    }
    if t in last {
      var i :| 0 <= i < |last| && last[i] == t;
      assert s[skipped + i] == t;
      LaterInOrder(s, skipped + i);
    }
  }

  lemma {:induction false} SameMembersSameLatest(a: seq<Charge>, b: seq<Charge>)
    requires forall t :: t in a <==> t in b
    ensures Latest(a) == Latest(b)
  {
    forall t
      ensures Later(a, t) == Later(b, t)
    {
    }
  }

  function Amounts(s: seq<Charge>): seq<int> {
    seq(|s|, i requires 0 <= i < |s| => Abs(s[i].amount))
  }

  lemma {:induction false} BelowByCounting(s: seq<Charge>, bound: int)
    requires forall i, j :: 0 <= i < j < |s| ==> s[i] != s[j]
    ensures Below(Members(s), bound) == CountBelow(Amounts(s), bound)
  {
    if s != [] {
      BelowByCounting(s[1..], bound);
      assert Amounts(s)[1..] == Amounts(s[1..]);
      OneMoreBelow(Members(s[1..]), s[0], bound);
      assert s[0] !in s[1..];
      assert Members(s) == Members(s[1..]) + {s[0]};
    }
  }

  lemma {:induction false} OneMoreBelow(charges: set<Charge>, t: Charge, bound: int)
    requires t !in charges
    ensures Below(charges + {t}, bound) == Below(charges, bound) + (if Abs(t.amount) < bound then 1 else 0)
  {
    var before := set u | u in charges && Abs(u.amount) < bound;
    var after := set u | u in charges + {t} && Abs(u.amount) < bound;
    assert after == if Abs(t.amount) < bound then before + {t} else before;
  }

  lemma {:induction false} RecentAreLastFour(sorted: seq<Charge>)
    ensures RecentAmounts(sorted) == Amounts(LastFour(sorted))
  {
    var recent, amounts := RecentAmounts(sorted), Amounts(LastFour(sorted));
    assert |recent| == |amounts|;
    assert forall i :: 0 <= i < |recent| ==> recent[i] == amounts[i];
  }

  /** The median of the latest charges, in terms of the set of them. */
  lemma {:induction false} RecentMedian(charges: seq<Charge>) returns (lo: int, hi: int)
    requires DistinctDates(charges) && charges != []
    ensures var latest := Latest(charges);
            && |latest| == Min(4, |charges|)
            && IsKthOf(latest, (|latest| + 1) / 2, lo) && IsKthOf(latest, |latest| / 2 + 1, hi) && lo <= hi
            && TwiceMedian(RecentAmounts(Sort(charges, ByDate()))) == lo + hi
  {
    var sorted := Sort(charges, ByDate());
    SortedDatesAscend(charges);
    RecentAreLastFour(sorted);
    LatestIsSetOfLastFour(charges);
    var last := LastFour(sorted);
    AscendingAreDistinct(last);
    DistinctSize(last);
    lo, hi := MedianByCounting(Amounts(last));
    BelowByCounting(last, lo);
    BelowByCounting(last, lo + 1);
    BelowByCounting(last, hi);
    BelowByCounting(last, hi + 1);
  }

  lemma {:induction false} LatestIsSetOfLastFour(charges: seq<Charge>)
    requires DistinctDates(charges)
    ensures Latest(charges) == Members(LastFour(Sort(charges, ByDate())))
  {
    var sorted := Sort(charges, ByDate());
    SortedDatesAscend(charges);
    forall t
      ensures t in sorted <==> t in charges
    {
      SortMembers(charges, ByDate(), t);
    }
    SameMembersSameLatest(charges, sorted);
    forall t
      ensures t in Latest(sorted) <==> t in LastFour(sorted)
    {
      LatestInOrder(sorted, t);
    }
  }

  lemma {:induction false} BelowGrows(charges: set<Charge>, a: int, b: int)
    requires a <= b
    ensures Below(charges, a) <= Below(charges, b) <= |charges|
  {
    var less, more := set t | t in charges && Abs(t.amount) < a, set t | t in charges && Abs(t.amount) < b;
    SubsetSize(less, more);
    SubsetSize(more, charges);
  }

  lemma {:induction false} SubsetSize(a: set<Charge>, b: set<Charge>)
    requires a <= b
    ensures |a| <= |b|
  {
    assert b == a + (b - a);
  }

  /** The amount announced is the median of the latest charges, those at most three others are later than: half
      the sum of the middle two, which may be one and the same. */
  lemma {:induction false} AmountOfLatest(
    g: Group, today: ValidDate, horizonDays: int, p: Prediction)
    returns (lo: int, hi: int)
    requires Predicts(g, today, horizonDays, p) && DistinctDates(g.charges)
    ensures var latest := Latest(g.charges);
            IsKthOf(latest, (|latest| + 1) / 2, lo) && IsKthOf(latest, |latest| / 2 + 1, hi) && lo <= hi
    ensures p.twiceAmount == lo + hi
  {
    lo, hi := RecentMedian(g.charges);
  }

  /** So at most half of them are lower, and at most half are higher. */
  lemma {:induction false} AmountIsInTheMiddle(g: Group, today: ValidDate, horizonDays: int, p: Prediction)
    requires Predicts(g, today, horizonDays, p) && DistinctDates(g.charges)
    ensures var latest := Latest(g.charges);
            && 2 * |set t | t in latest && 2 * Abs(t.amount) < p.twiceAmount| <= |latest|
            && 2 * |set t | t in latest && 2 * Abs(t.amount) > p.twiceAmount| <= |latest|
  {
    var latest := Latest(g.charges);
    var lo, hi := AmountOfLatest(g, today, horizonDays, p);
    var low, high := set t | t in latest && Abs(t.amount) < hi, set t | t in latest && Abs(t.amount) < lo + 1;
    SubsetSize((set t | t in latest && 2 * Abs(t.amount) < p.twiceAmount), low);
    SubsetSize((set t | t in latest && 2 * Abs(t.amount) > p.twiceAmount), latest - high);
    assert |latest - high| == |latest| - |high|;
  }

  lemma {:induction false} KthIsUnique(charges: set<Charge>, k: int, v: int, w: int)
    requires IsKthOf(charges, k, v) && IsKthOf(charges, k, w)
    ensures v == w
  {
    if v < w {
      BelowGrows(charges, v + 1, w);
    } else if w < v {
      BelowGrows(charges, w + 1, v);
    }
  }

  /** Older charges do not change it. */
  lemma {:induction false} OlderChargesDoNotMatter(
    g: Group, h: Group, today: ValidDate, horizonDays: int, p: Prediction, q: Prediction)
    requires Predicts(g, today, horizonDays, p) && DistinctDates(g.charges)
    requires Predicts(h, today, horizonDays, q) && DistinctDates(h.charges)
    requires Latest(g.charges) == Latest(h.charges)
    ensures p.twiceAmount == q.twiceAmount
  {
    var latest := Latest(g.charges);
    var lo, hi := AmountOfLatest(g, today, horizonDays, p);
    var lo', hi' := AmountOfLatest(h, today, horizonDays, q);
    KthIsUnique(latest, (|latest| + 1) / 2, lo, lo');
    KthIsUnique(latest, |latest| / 2 + 1, hi, hi');
  }

  // ----- the gaps between charges

  /** The charges by day; with distinct dates there is one such order. */
  ghost predicate InOrder(charges: seq<Charge>, s: seq<Charge>) {
    AscendingDates(s) && multiset(s) == multiset(charges)
  }

  lemma {:induction false} OrderIsUnique(a: seq<Charge>, b: seq<Charge>)
    requires AscendingDates(a) && AscendingDates(b) && multiset(a) == multiset(b)
    ensures a == b
  {
    assert |a| == |multiset(a)| == |multiset(b)| == |b|;
    if a != [] {
      var n := |a| - 1;
      LastIsShared(a, b);
      FrontsAgree(a, b);
      OrderIsUnique(a[..n], b[..n]);
      assert a == a[..n] + [a[n]] && b == b[..n] + [b[n]];
    }
  }

  lemma {:induction false} FrontsAgree(a: seq<Charge>, b: seq<Charge>)
    requires AscendingDates(a) && AscendingDates(b) && multiset(a) == multiset(b)
    requires |a| == |b| > 0 && a[|a| - 1] == b[|b| - 1]
    ensures var n := |a| - 1;
            AscendingDates(a[..n]) && AscendingDates(b[..n]) && multiset(a[..n]) == multiset(b[..n])
  {
    WithoutLast(a);
    WithoutLast(b);
  }

  lemma {:induction false} WithoutLast(s: seq<Charge>)
    requires s != [] && AscendingDates(s)
    ensures AscendingDates(s[..|s| - 1]) && multiset(s[..|s| - 1]) == multiset(s) - multiset{s[|s| - 1]}
  {
    assert s == s[..|s| - 1] + [s[|s| - 1]];
  }

  lemma {:induction false} LastIsShared(a: seq<Charge>, b: seq<Charge>)
    requires AscendingDates(a) && AscendingDates(b) && multiset(a) == multiset(b) && |a| == |b| > 0
    ensures a[|a| - 1] == b[|b| - 1]
  {
    var n := |a| - 1;
    assert a[n] in multiset(a) && b[n] in multiset(b);
    var i :| 0 <= i < |b| && b[i] == a[n];
    var j :| 0 <= j < |a| && a[j] == b[n];
    if i < n && j < n {
      assert Before(b[i].date, b[n].date) && Before(a[j].date, a[n].date);
      OrderIsDayOrder(a[n].date, b[n].date);
      OrderIsDayOrder(b[n].date, a[n].date);
      assert false;
    }
  }

  lemma {:induction false} OrderIsSorted(charges: seq<Charge>, s: seq<Charge>)
    requires InOrder(charges, s)
    ensures Sort(charges, ByDate()) == s
  {
    assert DistinctDates(charges) by {
      forall i, j | 0 <= i < j < |charges|
        ensures charges[i].date != charges[j].date
      {
        DistinctInAnyOrder(charges, s, i, j);
      }
    }
    SortedDatesAscend(charges);
    OrderIsUnique(Sort(charges, ByDate()), s);
  }

  lemma {:induction false} DistinctInAnyOrder(charges: seq<Charge>, s: seq<Charge>, i: nat, j: nat)
    requires InOrder(charges, s) && i < j < |charges|
    ensures charges[i].date != charges[j].date
  {
    AscendingAreDistinct(s);
    assert charges == charges[..i] + [charges[i]] + charges[i + 1..j] + [charges[j]] + charges[j + 1..];
    assert charges[i] in multiset(s) && charges[j] in multiset(s);
    var k :| 0 <= k < |s| && s[k] == charges[i];
    var l :| 0 <= l < |s| && s[l] == charges[j];
    if k == l {
      assert multiset(charges)[charges[i]] >= 2;
      OnceInOrder(s, k);
      assert false;
    }
    assert k < l ==> Before(s[k].date, s[l].date);
    assert l < k ==> Before(s[l].date, s[k].date);
  }

  lemma {:induction false} OnceInOrder(s: seq<Charge>, k: nat)
    requires AscendingDates(s) && k < |s|
    ensures multiset(s)[s[k]] == 1
  {
    assert s == s[..k] + [s[k]] + s[k + 1..];
    assert s[k] !in s[..k] && s[k] !in s[k + 1..];
  }

  /** Days from each charge to the next. */
  function Gaps(s: seq<Charge>): (r: seq<int>)
    ensures s != [] ==> |r| == |s| - 1
  {
    if s == [] then []
    else seq(|s| - 1, i requires 0 <= i < |s| - 1 => Between(s[i], s[i + 1]))
  }

  lemma {:induction false} NextDayIsLater(a: Charge, b: Charge)
    requires Before(a.date, b.date)
    ensures DayNumber(b.date) - DayNumber(a.date) > 0
  {
    OrderIsDayOrder(a.date, b.date);
  }

  function Between(a: Charge, b: Charge): int {
    DayNumber(b.date) - DayNumber(a.date)
  }

  lemma {:induction false} GapsAtTheEnd(s: seq<Charge>)
    requires |s| >= 2
    ensures Gaps(s) == Gaps(s[..|s| - 1]) + [Between(s[|s| - 2], s[|s| - 1])]
  {
  }

  lemma {:induction false} IntervalsAtTheEnd(s: seq<Charge>)
    requires |s| >= 2 && Between(s[|s| - 2], s[|s| - 1]) > 0
    ensures Intervals(s) == Intervals(s[..|s| - 1]) + [Between(s[|s| - 2], s[|s| - 1])]
  {
  }

  lemma {:induction false} IntervalsAreGaps(s: seq<Charge>)
    requires AscendingDates(s)
    ensures Intervals(s) == Gaps(s)
  {
    if |s| >= 2 {
      IntervalsAreGaps(s[..|s| - 1]);
      NextDayIsLater(s[|s| - 2], s[|s| - 1]);
      GapsAtTheEnd(s);
      IntervalsAtTheEnd(s);
    }
  }

  function Days(c: Cadence): int {
    match c
    case Weekly => 7
    case Biweekly => 14
    case Monthly => 30
    case Quarterly => 91
    case Yearly => 365
  }

  /** A gap is steady within two days or 18% of the cadence. */
  predicate Steady(c: Cadence, gap: int) {
    100 * Abs(gap - Days(c)) <= Max(200, 18 * Days(c))
  }

  /** The median gap lies within two days or 12% of the cadence. */
  predicate Keeps(c: Cadence, twiceMedian: int) {
    100 * Abs(twiceMedian - 2 * Days(c)) <= Max(400, 24 * Days(c))
  }

  lemma {:induction false} KeepsIsMatch(c: Cadence, twiceMedian: int)
    ensures Keeps(c, twiceMedian) <==> MatchCadence(twiceMedian) == Some(c)
  {
    CadenceIsDetermined(twiceMedian, c);
  }

  predicate AllSteady(c: Cadence, gaps: seq<int>) {
    forall i :: 0 <= i < |gaps| ==> Steady(c, gaps[i])
  }

  /** All gaps but one at most. */
  predicate NearlyAllSteady(c: Cadence, gaps: seq<int>) {
    forall i, j :: 0 <= i < j < |gaps| ==> Steady(c, gaps[i]) || Steady(c, gaps[j])
  }

  predicate SomeSteady(c: Cadence, gaps: seq<int>) {
    exists i :: 0 <= i < |gaps| && Steady(c, gaps[i])
  }

  lemma {:induction false} AllSteadyAtTheEnd(c: Cadence, front: seq<int>, last: int)
    ensures AllSteady(c, front + [last]) <==> AllSteady(c, front) && Steady(c, last)
    ensures SomeSteady(c, front + [last]) <==> SomeSteady(c, front) || Steady(c, last)
  {
    var gaps := front + [last];
    assert gaps[|front|] == last && forall i :: 0 <= i < |front| ==> gaps[i] == front[i];
    if i :| 0 <= i < |front| && Steady(c, front[i]) {
      assert Steady(c, gaps[i]);
    }
  }

  lemma {:induction false} NearlyAllSteadyAtTheEnd(c: Cadence, front: seq<int>, last: int)
    ensures NearlyAllSteady(c, front + [last]) <==> if Steady(c, last) then NearlyAllSteady(c, front) else AllSteady(c, front)
  {
    var gaps := front + [last];
    assert gaps[|front|] == last && forall i :: 0 <= i < |front| ==> gaps[i] == front[i];
  }

  lemma {:induction false} StableBySteady(gaps: seq<int>, c: Cadence)
    ensures |Stable(gaps, c)| == |gaps| <==> AllSteady(c, gaps)
    ensures |Stable(gaps, c)| + 1 >= |gaps| <==> NearlyAllSteady(c, gaps)
    ensures Stable(gaps, c) != [] <==> SomeSteady(c, gaps)
    ensures |Stable(gaps, c)| <= |gaps|
  {
    if gaps != [] {
      var n := |gaps| - 1;
      StableBySteady(gaps[..n], c);
      AllSteadyAtTheEnd(c, gaps[..n], gaps[n]);
      NearlyAllSteadyAtTheEnd(c, gaps[..n], gaps[n]);
      assert gaps == gaps[..n] + [gaps[n]];
    }
  }

  /** None of the latest amounts, whose sum is `sum`, is more than a fifth off their average. */
  predicate LittleDrift(amounts: seq<int>) {
    var sum := SumOf(amounts);
    forall i :: 0 <= i < |amounts| ==> sum <= 0 || 5 * Abs(|amounts| * amounts[i] - sum) <= sum
  }

  /** What decides whether and how a group is announced, for charges in order of distinct days. */
  predicate Rhythmic(s: seq<Charge>, c: Cadence) {
    && |s| >= 2 && Keeps(c, TwiceMedian(Gaps(s))) && SomeSteady(c, Gaps(s))
    && TwiceMedian(Amounts(LastFour(s))) >= 200
  }

  predicate Trusted(s: seq<Charge>, c: Cadence) {
    |s| >= 3 && NearlyAllSteady(c, Gaps(s)) && LittleDrift(Amounts(LastFour(s)))
  }

  lemma {:induction false} BasisByCadence(s: seq<Charge>)
    requires Intervals(s) == Gaps(s)
    ensures var matched := MatchCadence(TwiceMedian(Gaps(s)));
            BasisOfSorted(s) == if |s| < 2 || matched.None? then None
                                else BasisWith(s, Gaps(s), matched.value, RecentAmounts(s))
  {
  }

  /** The remaining guards, from gaps and amounts. */
  lemma {:induction false} BasisWithIff(s: seq<Charge>, gaps: seq<int>, c: Cadence, amounts: seq<int>)
    requires |s| >= 2 && |gaps| == |s| - 1
    ensures BasisWith(s, gaps, c, amounts)
         == if !SomeSteady(c, gaps) || TwiceMedian(amounts) < 200 then None
            else Some(Basis(c, s[|s| - 1].date, TwiceMedian(amounts), |s| >= 3 && NearlyAllSteady(c, gaps) && LittleDrift(amounts)))
  {
    StableBySteady(gaps, c);
  }

  lemma {:induction false} BasisIsDecided(
    s: seq<Charge>, gaps: seq<int>, amounts: seq<int>, c: Cadence, matched: Option<Cadence>, b: Option<Basis>)
    requires |s| >= 2 ==> |gaps| == |s| - 1
    requires Keeps(c, TwiceMedian(gaps)) <==> matched == Some(c)
    requires b == if |s| < 2 || matched.None? then None else BasisWith(s, gaps, matched.value, amounts)
    ensures b.Some? && b.value.cadence == c <==>
            |s| >= 2 && Keeps(c, TwiceMedian(gaps)) && SomeSteady(c, gaps) && TwiceMedian(amounts) >= 200
    ensures b.Some? && b.value.cadence == c ==>
              b.value == Basis(c, s[|s| - 1].date, TwiceMedian(amounts), |s| >= 3 && NearlyAllSteady(c, gaps) && LittleDrift(amounts))
  {
    if |s| >= 2 && matched.Some? {
      BasisWithIff(s, gaps, matched.value, amounts);
    }
  }

  lemma {:induction false} BasisOfOrdered(s: seq<Charge>, c: Cadence)
    requires AscendingDates(s)
    ensures BasisOfSorted(s).Some? && BasisOfSorted(s).value.cadence == c <==> Rhythmic(s, c)
    ensures Rhythmic(s, c) ==>
              BasisOfSorted(s).value == Basis(c, s[|s| - 1].date, TwiceMedian(Amounts(LastFour(s))), Trusted(s, c))
  {
    IntervalsAreGaps(s);
    RecentAreLastFour(s);
    BasisByCadence(s);
    KeepsIsMatch(c, TwiceMedian(Gaps(s)));
    BasisIsDecided(s, Gaps(s), Amounts(LastFour(s)), c, MatchCadence(TwiceMedian(Gaps(s))), BasisOfSorted(s));
  }

  /** A group has a basis exactly when its median gap keeps a cadence, some gap is steady and its median amount
      is 1.00 or more; it is confident when there are three charges or more, all gaps but one are steady and the
      amounts drift little. */
  lemma {:induction false} BasisOfGaps(charges: seq<Charge>, s: seq<Charge>, c: Cadence)
    requires InOrder(charges, s)
    ensures BasisOf(charges).Some? && BasisOf(charges).value.cadence == c <==> Rhythmic(s, c)
    ensures Rhythmic(s, c) ==>
              BasisOf(charges).value == Basis(c, s[|s| - 1].date, TwiceMedian(Amounts(LastFour(s))), Trusted(s, c))
  {
    OrderIsSorted(charges, s);
    BasisOfOrdered(s, c);
  }

  // ----- regular charges

  predicate Constant(values: seq<int>, v: int) {
    forall i :: 0 <= i < |values| ==> values[i] == v
  }

  lemma {:induction false} CountOfConstant(values: seq<int>, v: int, bound: int)
    requires Constant(values, v)
    ensures CountBelow(values, bound) == if v < bound then |values| else 0
  {
    if values != [] {
      CountOfConstant(values[1..], v, bound);
    }
  }

  lemma {:induction false} MedianOfConstant(values: seq<int>, v: int)
    requires Constant(values, v) && values != []
    ensures TwiceMedian(values) == 2 * v
  {
    var lo, hi := MedianByCounting(values);
    CountOfConstant(values, v, lo);
    CountOfConstant(values, v, lo + 1);
    CountOfConstant(values, v, hi);
    CountOfConstant(values, v, hi + 1);
  }

  lemma {:induction false} SumOfConstant(values: seq<int>, v: int)
    requires Constant(values, v)
    ensures SumOf(values) == |values| * v
  {
    if values != [] {
      SumOfConstant(values[1..], v);
    }
  }

  lemma {:induction false} ConstantDoesNotDrift(values: seq<int>, v: int)
    requires Constant(values, v)
    ensures LittleDrift(values)
  {
    SumOfConstant(values, v);
  }

  /** Charges exactly one cadence apart: whatever the price was before, the price of the last four charges is
      announced, and with confidence from the third charge on. */
  lemma {:induction false} RegularChargesAnnounced(charges: seq<Charge>, s: seq<Charge>, c: Cadence, price: int)
    requires InOrder(charges, s) && |s| >= 2 && price >= 100
    requires Constant(Gaps(s), Days(c)) && Constant(Amounts(LastFour(s)), price)
    ensures BasisOf(charges) == Some(Basis(c, s[|s| - 1].date, 2 * price, |s| >= 3))
  {
    RegularIsRhythmic(s, c, Gaps(s), Amounts(LastFour(s)), price);
    BasisOfGaps(charges, s, c);
  }

  lemma {:induction false} RegularIsRhythmic(s: seq<Charge>, c: Cadence, gaps: seq<int>, amounts: seq<int>, price: int)
    requires |s| >= 2 && price >= 100 && gaps == Gaps(s) && amounts == Amounts(LastFour(s))
    requires Constant(gaps, Days(c)) && Constant(amounts, price)
    ensures Rhythmic(s, c) && TwiceMedian(amounts) == 2 * price && (Trusted(s, c) <==> |s| >= 3)
  {
    MedianOfConstant(gaps, Days(c));
    MedianOfConstant(amounts, price);
    ConstantDoesNotDrift(amounts, price);
    assert Steady(c, gaps[0]);
  }

  function Paid(month: int, day: int, amount: int): Charge
    requires 1 <= month <= 12 && 1 <= day <= 28
  {
    Charge(Date(2023, month, day), amount, "checking", None, "account", "shop")
  }

  lemma {:induction false} LaterByGap(a: Charge, b: Charge)
    requires Between(a, b) > 0
    ensures Before(a.date, b.date)
  {
    OrderIsDayOrder(a.date, b.date);
  }

  lemma {:induction false} AscendByNeighbours(s: seq<Charge>)
    requires forall i :: 0 <= i < |s| - 1 ==> Before(s[i].date, s[i + 1].date)
    ensures AscendingDates(s)
  {
    if |s| >= 2 {
      var n := |s| - 1;
      var front := s[..n];
      AscendByNeighbours(front);
      forall i | 0 <= i < n
        ensures Before(s[i].date, s[n].date)
      {
        assert i < n - 1 ==> Before(front[i].date, front[n - 1].date);
        assert Before(s[n - 1].date, s[n - 1 + 1].date);
      }
      assert forall i, j :: 0 <= i < j < n ==> front[i] == s[i] && front[j] == s[j];
    }
  }

  lemma {:induction false} EvenGaps(s: seq<Charge>, d: int)
    requires d > 0 && forall i :: 0 <= i < |s| - 1 ==> Between(s[i], s[i + 1]) == d
    ensures Constant(Gaps(s), d) && AscendingDates(s)
  {
    forall i | 0 <= i < |s| - 1
      ensures Before(s[i].date, s[i + 1].date)
    {
      LaterByGap(s[i], s[i + 1]);
    }
    AscendByNeighbours(s);
  }

  function WeeklyCharge(i: nat): Charge
    requires i < 8
  {
    if i < 4 then Paid(2, 7 * i + 1, 1000) else Paid(3, 7 * (i - 4) + 1, 1500)
  }

  /** Eight weekly charges, four of 10.00 and then four of 15.00. */
  function PriceRise(): (s: seq<Charge>)
    ensures |s| == 8 && forall i :: 0 <= i < 8 ==> s[i] == WeeklyCharge(i)
  {
    seq(8, i requires 0 <= i < 8 => WeeklyCharge(i))
  }

  lemma {:induction false} PaidAWeekLater(month: int, day: int, amount: int)
    requires month == 2 || month == 3
    requires 1 <= day <= 21
    ensures Between(Paid(month, day, amount), Paid(month, day + 7, amount)) == 7
  {
  }

  lemma {:induction false} FebruaryHasFourWeeks(amount: int, later: int)
    ensures Between(Paid(2, 22, amount), Paid(3, 1, later)) == 7
  {
    assert DaysBeforeMonth(2023, 3) == DaysBeforeMonth(2023, 2) + 28;
  }

  lemma {:induction false} PriceRiseIsWeekly(i: nat)
    requires i < 7
    ensures Between(WeeklyCharge(i), WeeklyCharge(i + 1)) == 7
  {
    if i < 3 {
      PaidAWeekLater(2, 7 * i + 1, 1000);
    } else if i == 3 {
      FebruaryHasFourWeeks(1000, 1500);
    } else {
      PaidAWeekLater(3, 7 * (i - 4) + 1, 1500);
    }
  }

  lemma {:induction false} AnnouncedAtPrice(s: seq<Charge>, c: Cadence, price: int)
    requires |s| >= 3 && price >= 100 && forall i :: 0 <= i < |s| - 1 ==> Between(s[i], s[i + 1]) == Days(c)
    requires forall i :: 0 <= i < |s| && |s| - 4 <= i ==> Abs(s[i].amount) == price
    ensures BasisOf(s) == Some(Basis(c, s[|s| - 1].date, 2 * price, true))
  {
    EvenGaps(s, Days(c));
    RegularChargesAnnounced(s, s, c, price);
  }

  /** The new price is announced. */
  lemma {:induction false} NewPriceAnnounced()
    ensures BasisOf(PriceRise()) == Some(Basis(Weekly, Date(2023, 3, 22), 3000, true))
  {
    forall i | 0 <= i < |PriceRise()| - 1
      ensures Between(PriceRise()[i], PriceRise()[i + 1]) == Days(Weekly)
    {
      PriceRiseIsWeekly(i);
    }
    AnnouncedAtPrice(PriceRise(), Weekly, 1500);
  }

  // ----- which charges make a group

  /** Money left the account. */
  predicate Outgoing(t: Charge) {
    if t.provider == Some("teller") && Lower(t.accountType) in ["credit", "credit card"] then t.amount < 0 else t.amount > 0
  }

  lemma {:induction false} GroupMembers(normalize: string -> string, charges: seq<Charge>, key: string, t: Charge)
    ensures t in OfKey(normalize, charges, key) <==> t in charges && KeyOf(normalize, t) == Some(key)
  {
    if charges != [] {
      var n := |charges| - 1;
      GroupMembers(normalize, charges[..n], key, t);
      assert t in charges <==> t in charges[..n] || t == charges[n];
    }
  }

  lemma {:induction false} KeyParts(m: string, a: string, n: string, b: string)
    requires ':' !in a && ':' !in b && m + ":" + a == n + ":" + b
    ensures m == n && a == b
  {
    var s := m + ":" + a;
    assert s[|m|] == ':' && s[|n|] == ':';
    assert s[..|m|] == m && s[..|n|] == n;
    assert s[|m| + 1..] == a && s[|n| + 1..] == b;
  }

  /** No account is called "all", or by a name with a colon. */
  predicate PlainAccount(t: Charge) {
    t.account != "all" && ':' !in t.account
  }

  lemma {:induction false} SameKeyIff(normalize: string -> string, t: Charge, u: Charge)
    requires PlainAccount(t) && PlainAccount(u)
    ensures KeyOf(normalize, t).Some? && KeyOf(normalize, t) == KeyOf(normalize, u) <==>
            && Outgoing(t) && Outgoing(u) && normalize(t.merchant) == normalize(u.merchant) != "" && t.account == u.account
  {
    if KeyOf(normalize, t).Some? && KeyOf(normalize, t) == KeyOf(normalize, u) {
      KeyParts(
        normalize(t.merchant), if t.account == "" then "all" else t.account,
        normalize(u.merchant), if u.account == "" then "all" else u.account);
    }
  }

  /** Two charges are in one group exactly when both left one account for one merchant. */
  lemma {:induction false} SharedGroupIff(
    normalize: string -> string, charges: seq<Charge>, groups: seq<Group>, t: Charge, u: Charge)
    requires Grouped(normalize, charges, groups) && t in charges && u in charges && PlainAccount(t) && PlainAccount(u)
    ensures (exists i :: 0 <= i < |groups| && t in groups[i].charges && u in groups[i].charges) <==>
            && Outgoing(t) && Outgoing(u) && normalize(t.merchant) == normalize(u.merchant) != "" && t.account == u.account
  {
    SameKeyIff(normalize, t, u);
    forall i | 0 <= i < |groups|
      ensures t in groups[i].charges <==> KeyOf(normalize, t) == Some(groups[i].key)
      ensures u in groups[i].charges <==> KeyOf(normalize, u) == Some(groups[i].key)
    {
      GroupMembers(normalize, charges, groups[i].key, t);
      GroupMembers(normalize, charges, groups[i].key, u);
    }
    if KeyOf(normalize, t).Some? {
      assert Listed(groups, KeyOf(normalize, t).value);
    }
  }
}
