/** `DashboardCalculator.predictUpcomingCharges`: grouping past charges and predicting the next ones. */
module ChargePrediction {
  import opened Prelude
  import opened Text
  import opened Calendar
  import opened Sorting
  import opened ChargeCadence

  /** Amounts in cents; `merchant` is the merchant of the transaction or, failing that, its name. */
  datatype Charge = Charge(
    date: ValidDate, amount: int, accountType: string, provider: Option<string>, account: string, merchant: string)

  datatype Group = Group(key: string, merchant: string, charges: seq<Charge>)

  /** The amount is kept doubled, like every median. */
  datatype Prediction = Prediction(
    merchant: string, twiceAmount: int, nextDate: ValidDate, daysUntil: int, cadence: Cadence, confident: bool, count: nat)

  const MAX_PREDICTIONS := 8
  const RECENT := 4
  const MINIMUM_CENTS := 100

  function DisplayAmount(t: Charge): int {
    var kind := Lower(t.accountType);
    if t.provider == Some("teller") && (kind == "credit" || kind == "credit card") then t.amount else -t.amount
  }

  // ----- grouping

  /** The group a transaction belongs to, if it is a charge of a named merchant. */
  function KeyOf(normalize: string -> string, t: Charge): Option<string> {
    if DisplayAmount(t) >= 0 || normalize(t.merchant) == "" then None
    else Some(normalize(t.merchant) + ":" + (if t.account == "" then "all" else t.account))
  }

  function OfKey(normalize: string -> string, charges: seq<Charge>, key: string): seq<Charge> {
    if charges == [] then []
    else
      var n := |charges| - 1;
      OfKey(normalize, charges[..n], key) + (if KeyOf(normalize, charges[n]) == Some(key) then [charges[n]] else [])
  }

  /** The group holds exactly the charges of its key, in order. */
  ghost predicate Complete(normalize: string -> string, charges: seq<Charge>, g: Group) {
    && g.charges != [] && g.charges == OfKey(normalize, charges, g.key)
    && g.merchant == normalize(g.charges[0].merchant)
  }

  ghost predicate Listed(groups: seq<Group>, key: string) {
    exists i :: 0 <= i < |groups| && groups[i].key == key
  }

  ghost predicate Grouped(normalize: string -> string, charges: seq<Charge>, groups: seq<Group>) {
    && (forall i, j :: 0 <= i < j < |groups| ==> groups[i].key != groups[j].key)
    && (forall i :: 0 <= i < |groups| ==> Complete(normalize, charges, groups[i]))
    && (forall t :: t in charges && KeyOf(normalize, t).Some? ==> Listed(groups, KeyOf(normalize, t).value))
  }

  method FindGroup(groups: seq<Group>, key: string) returns (i: nat)
    ensures i <= |groups|
    ensures i < |groups| ==> groups[i].key == key
    ensures i == |groups| ==> forall j :: 0 <= j < |groups| ==> groups[j].key != key
  {
    i := 0;
    while i < |groups| && groups[i].key != key
      invariant i <= |groups| && forall j :: 0 <= j < i ==> groups[j].key != key
    {
      i := i + 1;
    }
  }

  lemma {:induction false} NoCharges(normalize: string -> string, charges: seq<Charge>, key: string)
    requires forall t :: t in charges ==> KeyOf(normalize, t) != Some(key)
    ensures OfKey(normalize, charges, key) == []
  {
    if charges != [] {
      NoCharges(normalize, charges[..|charges| - 1], key);
    }
  }

  lemma {:induction false} OneMore(normalize: string -> string, charges: seq<Charge>, t: Charge, key: string)
    ensures OfKey(normalize, charges + [t], key)
         == OfKey(normalize, charges, key) + (if KeyOf(normalize, t) == Some(key) then [t] else [])
  {
  }

  /** A group of another key stays as it is. */
  lemma {:induction false} OtherGroup(normalize: string -> string, charges: seq<Charge>, g: Group, t: Charge)
    requires Complete(normalize, charges, g) && KeyOf(normalize, t) != Some(g.key)
    ensures Complete(normalize, charges + [t], g)
  {
    OneMore(normalize, charges, t, g.key);
  }

  lemma {:induction false} Unrelated(normalize: string -> string, charges: seq<Charge>, groups: seq<Group>, t: Charge)
    requires Grouped(normalize, charges, groups) && KeyOf(normalize, t).None?
    ensures Grouped(normalize, charges + [t], groups)
  {
    forall i | 0 <= i < |groups|
      ensures Complete(normalize, charges + [t], groups[i])
    {
      OtherGroup(normalize, charges, groups[i], t);
    }
  }

  lemma {:induction false} StillListed(groups: seq<Group>, more: seq<Group>, key: string)
    requires |groups| <= |more| && forall j :: 0 <= j < |groups| ==> more[j].key == groups[j].key
    ensures Listed(groups, key) ==> Listed(more, key)
  {
  }

  lemma {:induction false} Joining(
    normalize: string -> string, charges: seq<Charge>, groups: seq<Group>, t: Charge, i: nat)
    requires Grouped(normalize, charges, groups) && i < |groups| && KeyOf(normalize, t) == Some(groups[i].key)
    ensures Grouped(normalize, charges + [t], groups[i := groups[i].(charges := groups[i].charges + [t])])
  {
    var more := groups[i := groups[i].(charges := groups[i].charges + [t])];
    forall j | 0 <= j < |more|
      ensures Complete(normalize, charges + [t], more[j])
    {
      if j == i {
        OneMore(normalize, charges, t, groups[i].key);
      } else {
        OtherGroup(normalize, charges, groups[j], t);
      }
    }
    forall u | u in charges + [t] && KeyOf(normalize, u).Some?
      ensures Listed(more, KeyOf(normalize, u).value)
    {
      assert u == t ==> Listed(groups, KeyOf(normalize, u).value);
      StillListed(groups, more, KeyOf(normalize, u).value);
    }
  }

  lemma {:induction false} Opening(
    normalize: string -> string, charges: seq<Charge>, groups: seq<Group>, t: Charge, key: string)
    requires Grouped(normalize, charges, groups) && KeyOf(normalize, t) == Some(key)
    requires forall j :: 0 <= j < |groups| ==> groups[j].key != key
    ensures Grouped(normalize, charges + [t], groups + [Group(key, normalize(t.merchant), [t])])
  {
    var more := groups + [Group(key, normalize(t.merchant), [t])];
    forall j | 0 <= j < |more|
      ensures Complete(normalize, charges + [t], more[j])
    {
      if j < |groups| {
        OtherGroup(normalize, charges, groups[j], t);
      } else {
        FirstOfGroup(normalize, charges, groups, t, key);
      }
    }
    forall u | u in charges + [t] && KeyOf(normalize, u).Some?
      ensures Listed(more, KeyOf(normalize, u).value)
    {
      if u == t {
        assert more[|groups|].key == key;
      } else {
        StillListed(groups, more, KeyOf(normalize, u).value);
      }
    }
  }

  lemma {:induction false} FirstOfGroup(
    normalize: string -> string, charges: seq<Charge>, groups: seq<Group>, t: Charge, key: string)
    requires Grouped(normalize, charges, groups) && KeyOf(normalize, t) == Some(key)
    requires forall j :: 0 <= j < |groups| ==> groups[j].key != key
    ensures Complete(normalize, charges + [t], Group(key, normalize(t.merchant), [t]))
  {
    forall u | u in charges
      ensures KeyOf(normalize, u) != Some(key)
    {
      assert KeyOf(normalize, u).Some? ==> Listed(groups, KeyOf(normalize, u).value);
    }
    NoCharges(normalize, charges, key);
    OneMore(normalize, charges, t, key);
  }

  /** Every charge of a named merchant lands in exactly one group, in order. */
  method GroupChargeTransactions(normalize: string -> string, charges: seq<Charge>) returns (groups: seq<Group>)
    ensures Grouped(normalize, charges, groups)
  {
    groups := [];
    for n := 0 to |charges|
      invariant Grouped(normalize, charges[..n], groups)
    {
      var t := charges[n];
      assert charges[..n + 1] == charges[..n] + [t];
      match KeyOf(normalize, t)
      case None =>
        Unrelated(normalize, charges[..n], groups, t);
      case Some(key) =>
        var i := FindGroup(groups, key);
        if i < |groups| {
          Joining(normalize, charges[..n], groups, t, i);
          groups := groups[i := groups[i].(charges := groups[i].charges + [t])];
        } else {
          Opening(normalize, charges[..n], groups, t, key);
          groups := groups + [Group(key, normalize(t.merchant), [t])];
        }
    }
    assert charges[..|charges|] == charges;
  }

  // ----- one group

  function ByDate(): (Charge, Charge) -> bool {
    (a: Charge, b: Charge) => !Before(b.date, a.date)
  }

  /** Positive gaps between consecutive dates. */
  function Intervals(sorted: seq<Charge>): (r: seq<int>)
    ensures forall i :: 0 <= i < |r| ==> r[i] > 0
  {
    if |sorted| < 2 then []
    else
      var n := |sorted| - 1;
      var gap := DayNumber(sorted[n].date) - DayNumber(sorted[n - 1].date);
      Intervals(sorted[..n]) + (if gap > 0 then [gap] else [])
  }

  /** Gaps within max(2, 18% of the cadence). */
  function Stable(intervals: seq<int>, c: Cadence): seq<int> {
    if intervals == [] then []
    else
      var n := |intervals| - 1;
      Stable(intervals[..n], c) +
        (if 50 * Abs(intervals[n] - CadenceDays(c)) <= Max(100, 9 * CadenceDays(c)) then [intervals[n]] else [])
  }

  function RecentAmounts(sorted: seq<Charge>): seq<int> {
    var amounts := seq(|sorted|, i requires 0 <= i < |sorted| => Abs(DisplayAmount(sorted[i])));
    if |amounts| <= RECENT then amounts else amounts[|amounts| - RECENT..]
  }

  function SumOf(values: seq<int>): int {
    if values == [] then 0 else values[0] + SumOf(values[1..])
  }

  /** No recent amount is more than 20% off the average. */
  predicate SmallDrift(recent: seq<int>) {
    var sum := SumOf(recent);
    sum <= 0 || forall i :: 0 <= i < |recent| ==> 5 * Abs(|recent| * recent[i] - sum) <= sum
  }

  /** What a group of charges says about the next one, before any date is computed. */
  datatype Basis = Basis(cadence: Cadence, latest: ValidDate, twiceAmount: int, confident: bool)

  /** The guards that follow once the cadence is known. */
  function BasisWith(sorted: seq<Charge>, intervals: seq<int>, cadence: Cadence, recent: seq<int>): Option<Basis>
    requires sorted != []
  {
    var stable := Stable(intervals, cadence);
    if stable == [] || TwiceMedian(recent) < 2 * MINIMUM_CENTS then None
    else
      var confident := |sorted| >= 3 && |stable| >= Max(1, |intervals| - 1) && SmallDrift(recent);
      Some(Basis(cadence, sorted[|sorted| - 1].date, TwiceMedian(recent), confident))
  }

  /** The guards of the prediction loop: each `continue` before the date is computed yields None. */
  function BasisOfSorted(sorted: seq<Charge>): Option<Basis> {
    if |sorted| < 2 then None
    else
      var intervals := Intervals(sorted);
      var matched := MatchCadence(TwiceMedian(intervals));
      if intervals == [] || matched.None? then None
      else BasisWith(sorted, intervals, matched.value, RecentAmounts(sorted))
  }

  function BasisOf(charges: seq<Charge>): Option<Basis> {
    BasisOfSorted(Sort(charges, ByDate()))
  }

  /** `p` is what the dashboard announces on that basis. */
  ghost predicate Announces(b: Basis, today: ValidDate, horizonDays: int, p: Prediction) {
    && EarliestAfter(b.cadence, b.latest, today, p.nextDate)
    && p.daysUntil == DayNumber(p.nextDate) - DayNumber(today) <= horizonDays
    && p.cadence == b.cadence && p.twiceAmount == b.twiceAmount && p.confident == b.confident
  }

  /** `p` is the prediction the dashboard makes for a group. */
  ghost predicate Predicts(g: Group, today: ValidDate, horizonDays: int, p: Prediction) {
    && BasisOf(g.charges).Some? && Announces(BasisOf(g.charges).value, today, horizonDays, p)
    && p.merchant == g.merchant && p.count == |g.charges|
  }

  /** The horizon test on date strings is a bound on the number of days. */
  lemma {:induction false} WithinHorizon(today: ValidDate, horizonDays: int, next: ValidDate)
    ensures Before(AddDays(today, horizonDays), next) <==> DayNumber(next) - DayNumber(today) > horizonDays
  {
    AddDaysNumber(today, horizonDays);
    OrderIsDayOrder(AddDays(today, horizonDays), next);
  }

  lemma {:induction false} AnnouncementIsUnique(
    b: Basis, today: ValidDate, horizonDays: int, p: Prediction, q: Prediction)
    requires Announces(b, today, horizonDays, p) && Announces(b, today, horizonDays, q)
    ensures p.nextDate == q.nextDate && p.(merchant := q.merchant, count := q.count) == q
  {
    EarliestIsUnique(b.cadence, b.latest, today, p.nextDate, q.nextDate);
  }

  method Announce(b: Basis, merchant: string, count: nat, today: ValidDate, horizonDays: int)
    returns (r: Option<Prediction>)
    ensures r.Some? ==> Announces(b, today, horizonDays, r.value) && r.value.merchant == merchant && r.value.count == count
    ensures r.None? ==> forall p :: !Announces(b, today, horizonDays, p)
  {
    var next, k := NextCharge(b.cadence, b.latest, today);
    FirstIsEarliest(b.cadence, b.latest, today, next, k);
    WithinHorizon(today, horizonDays, next);
    if Before(AddDays(today, horizonDays), next) {
      forall p
        ensures !Announces(b, today, horizonDays, p)
      {
        if Announces(b, today, horizonDays, p) {
          EarliestIsUnique(b.cadence, b.latest, today, next, p.nextDate);
        }
      }
      return None;
    }
    r := Some(Prediction(
      merchant, b.twiceAmount, next, DayNumber(next) - DayNumber(today), b.cadence, b.confident, count));
  }

  /** The result for one group: its prediction, or proof that there is none. */
  ghost predicate Outcome(g: Group, today: ValidDate, horizonDays: int, r: Option<Prediction>) {
    match r
    case Some(p) => Predicts(g, today, horizonDays, p) && forall q :: Predicts(g, today, horizonDays, q) ==> q == p
    case None => forall q :: !Predicts(g, today, horizonDays, q)
  }

  method PredictGroup(g: Group, today: ValidDate, horizonDays: int) returns (r: Option<Prediction>)
    ensures Outcome(g, today, horizonDays, r)
  {
    var basis := BasisOf(g.charges);
    if basis.None? {
      return None;
    }
    r := Announce(basis.value, g.merchant, |g.charges|, today, horizonDays);
    if r.Some? {
      forall q | Predicts(g, today, horizonDays, q)
        ensures q == r.value
      {
        AnnouncementIsUnique(basis.value, today, horizonDays, q, r.value);
      }
    }
  }

  /** Every announced date lies 1 to `horizonDays` days ahead and is reached from the latest charge by
      whole cadence steps. */
  lemma {:induction false} AnnouncedWithinHorizon(b: Basis, today: ValidDate, horizonDays: int, p: Prediction)
    requires Announces(b, today, horizonDays, p)
    ensures 1 <= p.daysUntil <= horizonDays
    ensures exists k: nat :: k >= 1 && p.nextDate == Iterate(p.cadence, b.latest, k)
  {
    OrderIsDayOrder(today, p.nextDate);
  }

  /** The basis starts from a latest charge of the group. */
  lemma {:induction false} BasisStartsAtLatest(charges: seq<Charge>)
    requires BasisOf(charges).Some?
    ensures exists t :: t in charges && t.date == BasisOf(charges).value.latest
    ensures forall u :: u in charges ==> !Before(BasisOf(charges).value.latest, u.date)
  {
    LatestIsLast(charges);
    SortMembers(charges, ByDate(), Sort(charges, ByDate())[|charges| - 1]);
  }

  lemma {:induction false} DaysAreOrdered()
    ensures TotalPreorder(ByDate())
  {
  }

  lemma {:induction false} ByDateSorts(charges: seq<Charge>)
    ensures Sorted(Sort(charges, ByDate()), ByDate())
  {
    DaysAreOrdered();
    SortSorts(charges, ByDate());
  }

  lemma {:induction false} LastOfSorted(sorted: seq<Charge>, u: Charge)
    requires Sorted(sorted, ByDate()) && u in sorted
    ensures !Before(sorted[|sorted| - 1].date, u.date)
  {
    var i :| 0 <= i < |sorted| && sorted[i] == u;
    assert i < |sorted| - 1 ==> ByDate()(sorted[i], sorted[|sorted| - 1]);
  }

  lemma {:induction false} LatestIsLast(charges: seq<Charge>)
    requires charges != []
    ensures forall u :: u in charges ==> !Before(Sort(charges, ByDate())[|charges| - 1].date, u.date)
  {
    ByDateSorts(charges);
    forall u | u in charges
      ensures !Before(Sort(charges, ByDate())[|charges| - 1].date, u.date)
    {
      SortMembers(charges, ByDate(), u);
      LastOfSorted(Sort(charges, ByDate()), u);
    }
  }

  // ----- all groups

  /** Sooner comes first and, on the same day, the larger amount. */
  function Sooner(): (Prediction, Prediction) -> bool {
    (a: Prediction, b: Prediction) =>
      a.daysUntil < b.daysUntil || (a.daysUntil == b.daysUntil && a.twiceAmount >= b.twiceAmount)
  }

  /** At most eight predictions, soonest first, and none left out that would rank before one shown. */
  method PredictUpcomingCharges(normalize: string -> string, charges: seq<Charge>, today: ValidDate, horizonDays: int)
    returns (r: seq<Prediction>, ghost groups: seq<Group>)
    ensures Grouped(normalize, charges, groups)
    ensures |r| <= 8 && Sorted(r, Sooner())
    ensures forall i, j :: 0 <= i < j < |r| ==>
              r[i].daysUntil < r[j].daysUntil || (r[i].daysUntil == r[j].daysUntil && r[i].twiceAmount >= r[j].twiceAmount)
    ensures forall p :: p in r ==> exists i :: 0 <= i < |groups| && Predicts(groups[i], today, horizonDays, p)
    ensures forall i, p :: 0 <= i < |groups| && Predicts(groups[i], today, horizonDays, p) ==>
              p in r || (|r| == 8 && forall q :: q in r ==> Sooner()(q, p))
  {
    var found := GroupChargeTransactions(normalize, charges);
    groups := found;
    var predictions := PredictGroups(found, today, horizonDays);
    var sorted := Sort(predictions, Sooner());
    SoonerSorts(predictions);
    forall p
      ensures p in sorted <==> p in predictions
    {
      SortMembers(predictions, Sooner(), p);
    }
    r := if |sorted| <= MAX_PREDICTIONS then sorted else sorted[..MAX_PREDICTIONS];
    SlicePrecedesRest(sorted, r);
  }

  function Collected(results: seq<Option<Prediction>>): seq<Prediction> {
    if results == [] then []
    else
      var n := |results| - 1;
      Collected(results[..n]) + (if results[n].Some? then [results[n].value] else [])
  }

  lemma {:induction false} CollectedMembers(results: seq<Option<Prediction>>, p: Prediction)
    ensures p in Collected(results) <==> Some(p) in results
  {
    if results != [] {
      var n := |results| - 1;
      CollectedMembers(results[..n], p);
      assert results == results[..n] + [results[n]];
    }
  }

  method PredictGroups(groups: seq<Group>, today: ValidDate, horizonDays: int) returns (predictions: seq<Prediction>)
    ensures forall p :: p in predictions <==> exists i :: 0 <= i < |groups| && Predicts(groups[i], today, horizonDays, p)
  {
    predictions := [];
    ghost var results: seq<Option<Prediction>> := [];
    for n := 0 to |groups|
      invariant |results| == n && forall i :: 0 <= i < n ==> Outcome(groups[i], today, horizonDays, results[i])
      invariant predictions == Collected(results)
    {
      var r := PredictGroup(groups[n], today, horizonDays);
      assert (results + [r])[..n] == results;
      results := results + [r];
      if r.Some? {
        predictions := predictions + [r.value];
      }
    }
    OutcomesArePredictions(groups, today, horizonDays, results);
  }

  lemma {:induction false} OutcomesArePredictions(
    groups: seq<Group>, today: ValidDate, horizonDays: int, results: seq<Option<Prediction>>)
    requires |results| == |groups| && forall i :: 0 <= i < |groups| ==> Outcome(groups[i], today, horizonDays, results[i])
    ensures forall p :: p in Collected(results) <==>
              exists i :: 0 <= i < |groups| && Predicts(groups[i], today, horizonDays, p)
  {
    forall p
      ensures p in Collected(results) <==> exists i :: 0 <= i < |groups| && Predicts(groups[i], today, horizonDays, p)
    {
      CollectedMembers(results, p);
      if i :| 0 <= i < |groups| && results[i] == Some(p) {
        assert Outcome(groups[i], today, horizonDays, results[i]);
      }
      if i :| 0 <= i < |groups| && Predicts(groups[i], today, horizonDays, p) {
        assert Outcome(groups[i], today, horizonDays, results[i]);
        assert results[i] == Some(p);
      }
    }
  }

  lemma {:induction false} SoonerSorts(predictions: seq<Prediction>)
    ensures Sorted(Sort(predictions, Sooner()), Sooner())
  {
    assert TotalPreorder(Sooner());
    SortSorts(predictions, Sooner());
  }

  lemma {:induction false} SlicePrecedesRest(sorted: seq<Prediction>, r: seq<Prediction>)
    requires Sorted(sorted, Sooner())
    requires r == if |sorted| <= MAX_PREDICTIONS then sorted else sorted[..MAX_PREDICTIONS]
    ensures Sorted(r, Sooner())
    ensures forall p :: p in r ==> p in sorted
    ensures forall p :: p in sorted ==> p in r || (|r| == MAX_PREDICTIONS && forall q :: q in r ==> Sooner()(q, p))
  {
  }
}
