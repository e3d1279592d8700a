/** `BudgetCalculator.calculateSpent` and `computeRolloverBudget`, in whole cents. */
module RolloverBudget {
  import opened Prelude
  import opened Text
  import opened Calendar
  import opened CategoryNames
  import opened TransactionAmounts

  datatype Frequency = EveryMonth | EveryQuarter | EveryHalfYear | EveryYear

  /** `rollover_start_month`, read as `YYYY-MM`; months are counted from 0. */
  datatype StartMonth = Unset | Malformed | Month(year: int, month: int)

  datatype Budget = Budget(
    category: string, amount: int, frequency: Frequency, rollover: bool, rolloverStart: StartMonth, created: StartMonth)

  /** `month` is None when the whole year is shown. */
  datatype Period = Period(year: int, month: Option<int>)

  datatype RolloverResult = RolloverResult(
    periodMultiplier: int, periodAmount: int, monthSpent: int, ytdSpent: int, priorMonthsSpent: int,
    priorMonthsAllocated: int, priorCarryover: int, availableThisMonth: int, remainingThisMonth: int, isOverBudget: bool)

  // ----- calculateSpent

  /** The first of the two strings that is not empty. */
  function Truthy(a: string, b: string): string {
    if a != "" then a else b
  }

  predicate SameName(a: string, b: string) {
    Lower(FormatCategoryName(a)) == Lower(FormatCategoryName(b))
  }

  /** The category filter. */
  predicate Belongs(tax: Taxonomy, t: ApiTransaction, category: string, sub: Option<string>) {
    var primary := OrEmpty(t.primary);
    var target := Lower(category);
    var detailed := Lower(Truthy(OrEmpty(t.detailed), Truthy(OrEmpty(t.customSubcategory), OrEmpty(t.ruleSubcategory))));
    var sameMajor := Lower(tax.resolveMajor(primary)) == Lower(tax.resolveMajor(category));
    if Excludes(tax, Some(primary)) then false
    else if sub.Some? && sub.value != "" then
      (Lower(primary) == target || SameName(primary, category) || sameMajor) && detailed == Lower(sub.value)
    else if detailed != "" && (detailed == target || SameName(detailed, category)) then true
    else
      Lower(primary) == target || SameName(primary, category) || (Lower(tax.resolveMajor(category)) == target && sameMajor)
  }

  predicate Within(d: Date, start: Date, end: Date) {
    !Before(d, start) && !Before(end, d)
  }

  /** `calculateSpent`: filter by category, filter by date string, add up. */
  function Spent(
    tax: Taxonomy, txns: seq<ApiTransaction>, category: string, start: Date, end: Date, sub: Option<string>): int
  {
    if txns == [] then 0
    else
      var t := txns[|txns| - 1];
      Spent(tax, txns[..|txns| - 1], category, start, end, sub) +
      (if Belongs(tax, t, category, sub) && Within(t.date, start, end) then NetSpending(tax, t) else 0)
  }

  /** The windows [start, middle] and [next, end] share no day and together make up [start, end]. */
  ghost predicate Adjacent(start: Date, middle: Date, next: Date, end: Date) {
    forall d: ValidDate ::
      && (Within(d, start, end) <==> Within(d, start, middle) || Within(d, next, end))
      && !(Within(d, start, middle) && Within(d, next, end))
  }

  /** Spending is additive over adjacent windows: no day falls between them or into both. */
  lemma {:induction false} SpentIsAdditive(
    tax: Taxonomy, txns: seq<ApiTransaction>, category: string, sub: Option<string>,
    start: Date, middle: Date, next: Date, end: Date)
    requires Adjacent(start, middle, next, end)
    ensures Spent(tax, txns, category, start, end, sub)
         == Spent(tax, txns, category, start, middle, sub) + Spent(tax, txns, category, next, end, sub)
  {
    if txns != [] {
      var t := txns[|txns| - 1];
      SpentIsAdditive(tax, txns[..|txns| - 1], category, sub, start, middle, next, end);
      assert Within(t.date, start, end) <==> Within(t.date, start, middle) || Within(t.date, next, end);
    }
  }

  // ----- months

  function FirstOf(year: int, month: int): Date {
    Date(year, month + 1, 1)
  }

  function LastOf(year: int, month: int): Date {
    Date(year, month + 1, DaysInMonth(year, month + 1))
  }

  function MonthSpent(
    tax: Taxonomy, txns: seq<ApiTransaction>, category: string, sub: Option<string>, year: int, month: int): int
  {
    Spent(tax, txns, category, FirstOf(year, month), LastOf(year, month), sub)
  }

  /** The twelve monthly spends of a year. */
  function Months(tax: Taxonomy, txns: seq<ApiTransaction>, category: string, sub: Option<string>, year: int): (s: seq<int>)
    ensures |s| == 12
  {
    seq(12, m => MonthSpent(tax, txns, category, sub, year, m))
  }

  /** Sum of s[a..b]. */
  function SumRange(s: seq<int>, a: nat, b: nat): int
    requires b <= |s|
  {
    if b <= a then 0 else SumRange(s, a, b - 1) + s[b - 1]
  }

  lemma {:induction false} MonthBoundary(year: int, first: nat, month: nat)
    requires first < month <= 11
    ensures Adjacent(FirstOf(year, first), LastOf(year, month - 1), FirstOf(year, month), LastOf(year, month))
  {
  }

  /** A window of whole months spends what its months spend. */
  lemma {:induction false} WindowIsMonths(
    tax: Taxonomy, txns: seq<ApiTransaction>, category: string, sub: Option<string>, year: int, first: nat, month: nat)
    requires first <= month <= 11
    ensures Spent(tax, txns, category, FirstOf(year, first), LastOf(year, month), sub)
         == SumRange(Months(tax, txns, category, sub, year), first, month + 1)
  {
    var s := Months(tax, txns, category, sub, year);
    assert SumRange(s, first, month + 1) == SumRange(s, first, month) + s[month];
    if first < month {
      WindowIsMonths(tax, txns, category, sub, year, first, month - 1);
      MonthBoundary(year, first, month);
      SpentIsAdditive(tax, txns, category, sub,
        FirstOf(year, first), LastOf(year, month - 1), FirstOf(year, month), LastOf(year, month));
    }
  }

  // ----- computeRolloverBudget

  function Multiplier(frequency: Frequency, fullYear: bool): int {
    match frequency
    case EveryMonth => if fullYear then 12 else 1
    case EveryQuarter => if fullYear then 4 else 3
    case EveryHalfYear => if fullYear then 2 else 6
    case EveryYear => if fullYear then 1 else 12
  }

  /** The first month of `year` whose allocation can roll over; 12 when the budget starts later. */
  function FirstMonth(budget: Budget, year: int): int {
    var start := match budget.rolloverStart
      case Month(y, m) => Month(y, m)
      case Malformed => Month(year, 0)
      case Unset => if budget.created.Month? then budget.created else Month(year, 0);
    if year > start.year then 0 else if year == start.year then start.month else 12
  }

  predicate MonthInRange(m: StartMonth) {
    m.Month? ==> 0 <= m.month <= 11
  }

  /** Allocation minus spending over the months [first, month). */
  function Balance(amount: int, s: seq<int>, first: nat, month: nat): int
    requires month <= |s|
  {
    if month <= first then 0 else Balance(amount, s, first, month - 1) + amount - s[month - 1]
  }

  /** What the source computes in closed form. */
  function Carryover(rollover: bool, amount: int, s: seq<int>, first: nat, month: nat): int
    requires month <= |s|
  {
    if rollover then Max(0, Balance(amount, s, first, month)) else 0
  }

  function Remaining(rollover: bool, amount: int, s: seq<int>, first: nat, month: nat): int
    requires month < |s|
  {
    amount + Carryover(rollover, amount, s, first, month) - s[month]
  }

  lemma {:induction false} BalanceInClosedForm(amount: int, s: seq<int>, first: nat, month: nat)
    requires month <= |s|
    ensures Balance(amount, s, first, month)
         == (if month > first then (month - first) * amount else 0) - SumRange(s, first, month)
  {
    if month > first {
      BalanceInClosedForm(amount, s, first, month - 1);
    }
  }

  /** The month the budget starts to roll over, as the source derives it. */
  method RolloverStart(budget: Budget, year: int) returns (startYear: int, startMonth: int)
    requires MonthInRange(budget.rolloverStart) && MonthInRange(budget.created)
    ensures 0 <= startMonth <= 11
    ensures FirstMonth(budget, year) == if year > startYear then 0 else if year == startYear then startMonth else 12
  {
    startYear, startMonth := year, 0;
    if budget.rolloverStart != Unset {
      if budget.rolloverStart.Month? {
        startYear, startMonth := budget.rolloverStart.year, budget.rolloverStart.month;
      }
    } else if budget.created.Month? {
      startYear, startMonth := budget.created.year, budget.created.month;
    }
  }

  /** The months before `month` that count, and what was spent in them. */
  method PriorMonths(tax: Taxonomy, budget: Budget, txns: seq<ApiTransaction>, year: int, month: int, sub: Option<string>)
    returns (count: int, spent: int)
    requires 0 <= month <= 11 && MonthInRange(budget.rolloverStart) && MonthInRange(budget.created)
    ensures count == Max(0, month - FirstMonth(budget, year))
    ensures spent == SumRange(Months(tax, txns, budget.category, sub, year), FirstMonth(budget, year), month)
  {
    var startYear, startMonth := RolloverStart(budget, year);
    count, spent := 0, 0;
    if year > startYear {
      count := month;
      if count > 0 {
        spent := Spent(tax, txns, budget.category, FirstOf(year, 0), LastOf(year, month - 1), sub);
        WindowIsMonths(tax, txns, budget.category, sub, year, 0, month - 1);
      }
    } else if year == startYear {
      if month > startMonth {
        count := month - startMonth;
        spent := Spent(tax, txns, budget.category, FirstOf(year, startMonth), LastOf(year, month - 1), sub);
        WindowIsMonths(tax, txns, budget.category, sub, year, startMonth, month - 1);
      }
    }
  }

  /** The budget card of one month, in terms of the twelve monthly spends `s` of its year. */
  ghost predicate MonthView(budget: Budget, s: seq<int>, first: nat, month: nat, r: RolloverResult)
    requires |s| == 12 && month < 12
  {
    && r.monthSpent == s[month] && r.ytdSpent == SumRange(s, 0, month + 1)
    && r.priorMonthsSpent == SumRange(s, first, month)
    && r.priorMonthsAllocated == Max(0, month - first) * budget.amount
    && r.priorCarryover == Carryover(budget.rollover, budget.amount, s, first, month)
    && r.availableThisMonth == budget.amount + r.priorCarryover
    && r.remainingThisMonth == Remaining(budget.rollover, budget.amount, s, first, month)
    && (first == 0 ==> r.ytdSpent == r.priorMonthsSpent + r.monthSpent)
  }

  /** The card of a whole year: no carryover at all. */
  ghost predicate YearView(s: seq<int>, r: RolloverResult)
    requires |s| == 12
  {
    && r.monthSpent == r.ytdSpent == SumRange(s, 0, 12)
    && r.priorMonthsSpent == r.priorMonthsAllocated == r.priorCarryover == 0
    && r.availableThisMonth == r.periodAmount && r.remainingThisMonth == r.periodAmount - r.monthSpent
  }

  /** Spending of the period shown, and of the year up to its end. */
  method CurrentSpending(tax: Taxonomy, category: string, txns: seq<ApiTransaction>, period: Period, sub: Option<string>)
    returns (monthSpent: int, ytdSpent: int)
    requires period.month.Some? ==> 0 <= period.month.value <= 11
    ensures var s := Months(tax, txns, category, sub, period.year);
            && monthSpent == (if period.month.Some? then s[period.month.value] else SumRange(s, 0, 12))
            && ytdSpent == (if period.month.Some? then SumRange(s, 0, period.month.value + 1) else SumRange(s, 0, 12))
  {
    var last := if period.month.Some? then period.month.value else 11;
    var monthStart := FirstOf(period.year, if period.month.Some? then last else 0);
    var monthEnd := LastOf(period.year, last);
    monthSpent := Spent(tax, txns, category, monthStart, monthEnd, sub);
    ytdSpent := Spent(tax, txns, category, FirstOf(period.year, 0), monthEnd, sub);
    WindowIsMonths(tax, txns, category, sub, period.year, 0, last);
    WindowIsMonths(tax, txns, category, sub, period.year, last, last);
    assert SumRange(Months(tax, txns, category, sub, period.year), last, last) == 0;
  }

  lemma {:induction false} YearToDateSplits(s: seq<int>, first: nat, month: nat)
    requires |s| == 12 && month < 12
    ensures first == 0 ==> SumRange(s, 0, month + 1) == SumRange(s, first, month) + s[month]
    ensures first >= month ==> SumRange(s, first, month) == 0
  {
  }

  method ComputeRolloverBudget(
    tax: Taxonomy, budget: Budget, txns: seq<ApiTransaction>, period: Period, sub: Option<string>)
    returns (r: RolloverResult)
    requires period.month.Some? ==> 0 <= period.month.value <= 11
    requires MonthInRange(budget.rolloverStart) && MonthInRange(budget.created)
    ensures period.month.Some? ==>
              MonthView(
                budget, Months(tax, txns, budget.category, sub, period.year), FirstMonth(budget, period.year),
                period.month.value, r)
    ensures period.month.None? ==> YearView(Months(tax, txns, budget.category, sub, period.year), r)
    ensures r.periodAmount == budget.amount * Multiplier(budget.frequency, period.month.None?)
    ensures r.isOverBudget <==> r.availableThisMonth < r.monthSpent
  {
    var isFullYear := period.month.None?;
    var periodMultiplier := Multiplier(budget.frequency, isFullYear);
    var periodAmount := budget.amount * periodMultiplier;
    var monthSpent, ytdSpent := CurrentSpending(tax, budget.category, txns, period, sub);
    var priorMonthsCount, priorMonthsSpent := 0, 0;
    ghost var s := Months(tax, txns, budget.category, sub, period.year);
    if !isFullYear {
      priorMonthsCount, priorMonthsSpent := PriorMonths(tax, budget, txns, period.year, period.month.value, sub);
    }
    r := Assemble(budget, isFullYear, periodMultiplier, periodAmount, monthSpent, ytdSpent, priorMonthsCount, priorMonthsSpent);
    if isFullYear {
      AssembledYear(budget, s, periodMultiplier, periodAmount, r);
    } else {
      AssembledMonth(
        budget, s, FirstMonth(budget, period.year), period.month.value, periodMultiplier, periodAmount, r);
    }
  }

  lemma {:induction false} AssembledYear(
    budget: Budget, s: seq<int>, periodMultiplier: int, periodAmount: int, r: RolloverResult)
    requires |s| == 12
    requires r == Assemble(
                    budget, true, periodMultiplier, periodAmount, SumRange(s, 0, 12), SumRange(s, 0, 12), 0, 0)
    ensures YearView(s, r)
  {
  }

  lemma {:induction false} AssembledMonth(
    budget: Budget, s: seq<int>, first: nat, month: nat, periodMultiplier: int, periodAmount: int, r: RolloverResult)
    requires |s| == 12 && month < 12
    requires r == Assemble(
                    budget, false, periodMultiplier, periodAmount, s[month], SumRange(s, 0, month + 1),
                    Max(0, month - first), SumRange(s, first, month))
    ensures MonthView(budget, s, first, month, r)
  {
    CarryoverInClosedForm(budget.rollover, budget.amount, s, first, month);
    YearToDateSplits(s, first, month);
  }

  /** The arithmetic of the card, once the spending is known. */
  function Assemble(
    budget: Budget, isFullYear: bool, periodMultiplier: int, periodAmount: int, monthSpent: int, ytdSpent: int,
    priorMonthsCount: int, priorMonthsSpent: int): RolloverResult
  {
    var priorMonthsAllocated := priorMonthsCount * budget.amount;
    var priorCarryover :=
      if budget.rollover && priorMonthsCount > 0 then Max(0, priorMonthsAllocated - priorMonthsSpent) else 0;
    var availableThisMonth :=
      if isFullYear then (if budget.rollover then periodAmount + priorCarryover else periodAmount)
      else (if budget.rollover then budget.amount + priorCarryover else budget.amount);
    var remainingThisMonth := availableThisMonth - monthSpent;
    RolloverResult(
      periodMultiplier, periodAmount, monthSpent, ytdSpent, priorMonthsSpent, priorMonthsAllocated, priorCarryover,
      availableThisMonth, remainingThisMonth, remainingThisMonth < 0)
  }

  lemma {:induction false} CarryoverInClosedForm(rollover: bool, amount: int, s: seq<int>, first: nat, month: nat)
    requires month <= |s|
    ensures Carryover(rollover, amount, s, first, month)
         == (var count := Max(0, month - first);
             if rollover && count > 0 then Max(0, count * amount - SumRange(s, first, month)) else 0)
  {
    BalanceInClosedForm(amount, s, first, month);
  }

  // ----- from one month to the next

  /** What is carried into the next month is at most what was left of this one; the two agree exactly
      when the earlier months were not overspent, or this month's own allocation is used up anyway. */
  lemma {:induction false} NextCarryover(rollover: bool, amount: int, s: seq<int>, first: nat, month: nat)
    requires first <= month < |s|
    ensures Carryover(rollover, amount, s, first, month + 1) <= Max(0, Remaining(rollover, amount, s, first, month))
    ensures rollover ==>
              (Carryover(rollover, amount, s, first, month + 1) == Max(0, Remaining(rollover, amount, s, first, month))
               <==> Balance(amount, s, first, month) >= 0 || amount <= s[month])
  {
    assert Balance(amount, s, first, month + 1) == Balance(amount, s, first, month) + amount - s[month];
  }

  /** The recurrence a reader would expect: what is left of each month, if anything, moves on. */
  function Rolled(amount: int, s: seq<int>, first: nat, month: nat): int
    requires month <= |s|
  {
    if month <= first then 0 else Max(0, amount + Rolled(amount, s, first, month - 1) - s[month - 1])
  }

  /** The lowest balance reached from the first month on. */
  function LowestBalance(amount: int, s: seq<int>, first: nat, month: nat): int
    requires month <= |s|
  {
    if month <= first then 0 else Min(LowestBalance(amount, s, first, month - 1), Balance(amount, s, first, month))
  }

  lemma {:induction false} RolledIsBalanceAboveLowest(amount: int, s: seq<int>, first: nat, month: nat)
    requires month <= |s|
    ensures Rolled(amount, s, first, month) == Balance(amount, s, first, month) - LowestBalance(amount, s, first, month)
  {
    if month > first {
      RolledIsBalanceAboveLowest(amount, s, first, month - 1);
    }
  }

  ghost predicate BalancesAtLeast(amount: int, s: seq<int>, first: nat, month: nat, bound: int)
    requires month <= |s|
  {
    forall k :: first <= k <= month ==> Balance(amount, s, first, k) >= bound
  }

  lemma {:induction false} LowestIsLowerBound(amount: int, s: seq<int>, first: nat, month: nat, bound: int)
    requires first <= month <= |s|
    ensures LowestBalance(amount, s, first, month) >= bound <==> BalancesAtLeast(amount, s, first, month, bound)
  {
    assert Balance(amount, s, first, first) == 0;
    if month > first {
      LowestIsLowerBound(amount, s, first, month - 1, bound);
      assert LowestBalance(amount, s, first, month)
          == Min(LowestBalance(amount, s, first, month - 1), Balance(amount, s, first, month));
      assert BalancesAtLeast(amount, s, first, month, bound) <==>
          BalancesAtLeast(amount, s, first, month - 1, bound) && Balance(amount, s, first, month) >= bound;
    }
  }

  /** The closed form never carries more than the month-by-month recurrence, and carries the same if and
      only if no earlier balance was lower than the present one or, when that is positive, than zero:
      an overspent month is forgiven by the recurrence and not by the closed form. */
  lemma {:induction false} ClosedFormVersusRecurrence(amount: int, s: seq<int>, first: nat, month: nat)
    requires first <= month <= |s|
    ensures Carryover(true, amount, s, first, month) <= Rolled(amount, s, first, month)
    ensures Carryover(true, amount, s, first, month) == Rolled(amount, s, first, month)
       <==> BalancesAtLeast(amount, s, first, month, Min(0, Balance(amount, s, first, month)))
  {
    var now := Balance(amount, s, first, month);
    RolledIsBalanceAboveLowest(amount, s, first, month);
    LowestIsLowerBound(amount, s, first, month, LowestBalance(amount, s, first, month));
    LowestIsLowerBound(amount, s, first, month, Min(0, now));
    assert Balance(amount, s, first, first) == 0;
  }

  /** 100 a month, 150 spent in January and nothing in February: March starts with 50 carried over, where
      rolling each month's rest forward would bring 100. */
  lemma {:induction false} OverspentJanuary()
    ensures var s := [150, 0, 0];
            Carryover(true, 100, s, 0, 2) == 50 && Rolled(100, s, 0, 2) == 100
  {
    var s := [150, 0, 0];
    assert Balance(100, s, 0, 1) == -50;
    assert Rolled(100, s, 0, 1) == 0;
  }

  // ----- from one year to the next

  lemma {:induction false} BalanceSplits(amount: int, s: seq<int>, first: nat, middle: nat, month: nat)
    requires first <= middle <= month <= |s|
    ensures Balance(amount, s, first, month) == Balance(amount, s, first, middle) + Balance(amount, s, middle, month)
  {
    if middle < month {
      BalanceSplits(amount, s, first, middle, month - 1);
    }
  }

  lemma {:induction false} BalanceOfLaterYear(amount: int, earlier: seq<int>, s: seq<int>, month: nat)
    requires month <= |s|
    ensures Balance(amount, earlier + s, |earlier|, |earlier| + month) == Balance(amount, s, 0, month)
  {
    if month > 0 {
      BalanceOfLaterYear(amount, earlier, s, month - 1);
    }
  }

  /** A budget that has begun counts from January in every later year. */
  lemma {:induction false} LaterYearsCountFromJanuary(budget: Budget, year: int, later: int)
    requires FirstMonth(budget, year) <= 11 && year < later
    requires MonthInRange(budget.rolloverStart) && MonthInRange(budget.created)
    ensures FirstMonth(budget, later) == 0
  {
  }

  /** January starts from nothing: what December left, if anything, is not carried over. */
  lemma {:induction false} NewYearReset(
    budget: Budget, year: int, s: seq<int>, next: seq<int>, december: RolloverResult, january: RolloverResult)
    requires MonthInRange(budget.rolloverStart) && MonthInRange(budget.created) && FirstMonth(budget, year) <= 11
    requires |s| == |next| == 12
    requires MonthView(budget, s, FirstMonth(budget, year), 11, december)
    requires MonthView(budget, next, FirstMonth(budget, year + 1), 0, january)
    ensures january.priorCarryover == 0 && january.remainingThisMonth == budget.amount - next[0]
    ensures january.priorCarryover == Max(0, december.remainingThisMonth) <==> december.remainingThisMonth <= 0
  {
    LaterYearsCountFromJanuary(budget, year, year + 1);
  }

  ghost predicate NeverBelowNewYearAndNow(amount: int, s: seq<int>, newYear: nat, now: nat)
    requires newYear <= now <= |s|
  {
    BalancesAtLeast(amount, s, 0, now, Min(Balance(amount, s, 0, newYear), Balance(amount, s, 0, now)))
  }

  /** Against the recurrence over all months since the budget began, `earlier` those of past years: a card
      of this year carries the same if and only if no balance ever was below both that of New Year and the
      present one. */
  lemma {:induction false} CarryoverVersusAllYears(amount: int, earlier: seq<int>, s: seq<int>, month: nat)
    requires month <= |s|
    ensures Carryover(true, amount, s, 0, month) <= Rolled(amount, earlier + s, 0, |earlier| + month)
    ensures Carryover(true, amount, s, 0, month) == Rolled(amount, earlier + s, 0, |earlier| + month)
       <==> NeverBelowNewYearAndNow(amount, earlier + s, |earlier|, |earlier| + month)
  {
    var all, now := earlier + s, |earlier| + month;
    var bound := Min(Balance(amount, all, 0, |earlier|), Balance(amount, all, 0, now));
    BalanceSplits(amount, all, 0, |earlier|, now);
    BalanceOfLaterYear(amount, earlier, s, month);
    RolledIsBalanceAboveLowest(amount, all, 0, now);
    LowestIsLowerBound(amount, all, 0, now, LowestBalance(amount, all, 0, now));
    LowestIsLowerBound(amount, all, 0, now, bound);
    assert LowestBalance(amount, all, 0, now) <= bound by {
      assert Balance(amount, all, 0, |earlier|) >= LowestBalance(amount, all, 0, now);
    }
  }

  /** 100 a month and nothing spent for a year: December shows 1200 left, January starts over with 100. */
  lemma {:induction false} SavingsEndInDecember(budget: Budget, december: RolloverResult, january: RolloverResult)
    requires budget == Budget("Travel", 100, EveryMonth, true, Month(2023, 0), Unset)
    requires MonthView(budget, seq(12, _ => 0), FirstMonth(budget, 2023), 11, december)
    requires MonthView(budget, seq(12, _ => 0), FirstMonth(budget, 2024), 0, january)
    ensures december.remainingThisMonth == 1200 && january.availableThisMonth == 100
  {
    NothingSpent(100, seq(12, _ => 0), 11);
  }

  lemma {:induction false} NothingSpent(amount: nat, s: seq<int>, month: nat)
    requires month <= |s| && forall i :: 0 <= i < |s| ==> s[i] == 0
    ensures Balance(amount, s, 0, month) == month * amount
  {
    if month > 0 {
      NothingSpent(amount, s, month - 1);
    }
  }
}
