/** The `_with_account` aggregations of `analytics_service.rs`, in whole cents. */
module Analytics {
  import opened Prelude
  import opened Text
  import opened Calendar
  import opened OrderedTally
  import TransactionAmounts

  datatype Transaction = Transaction(
    date: ValidDate, pending: bool, amount: int, accountType: string, provider: Option<string>,
    merchant: Option<string>, primary: string, detailed: string,
    customCategory: Option<string>, ruleCategory: Option<string>)

  /** `resolve_major_category` and `normalize_category_key`: any total functions will do. */
  datatype Taxonomy = Taxonomy(resolveMajor: string -> string, normalizeKey: string -> string)

  predicate Excluded(tax: Taxonomy, category: string) {
    tax.resolveMajor(category) in ["Transfer", "Tax Refund", "Earned Income"]
  }

  function EffectiveCategory(tax: Taxonomy, t: Transaction): string {
    var chosen := if t.customCategory.Some? then t.customCategory else t.ruleCategory;
    tax.resolveMajor(
      if chosen.Some? && chosen.value != "" then chosen.value
      else if t.primary == "" then "Shopping" else t.primary)
  }

  /** `get_spending_amount_with_account` */
  function SpendingAmount(tax: Taxonomy, t: Transaction): int {
    var kind := Lower(t.accountType);
    var isCredit := kind == "credit" || kind == "credit card";
    if t.pending || Excluded(tax, EffectiveCategory(tax, t)) || Excluded(tax, t.detailed) then 0
    else if isCredit && tax.normalizeKey(t.primary) == "loanpayments" then 0
    else if t.provider == Some("teller") && kind == "credit" then -t.amount
    else if t.provider == Some("teller") && (kind == "depository" || kind == "checking" || kind == "savings") then
      Max(t.amount, 0)
    else if isCredit then t.amount
    else Max(t.amount, 0)
  }

  /** Where nothing excludes a transaction, the dashboard's `getNetSpendingAmount` and this service count it
      alike, except on Teller accounts of type "credit card": only the dashboard flips their sign. */
  lemma {:induction false} SignsAgreeUnlessCreditCard(
    tax: Taxonomy, t: Transaction, frontend: TransactionAmounts.Taxonomy, u: TransactionAmounts.ApiTransaction)
    requires u.amount == t.amount && u.accountType == t.accountType && u.provider == t.provider
    requires !t.pending && !Excluded(tax, EffectiveCategory(tax, t)) && !Excluded(tax, t.detailed)
    requires tax.normalizeKey(t.primary) != "loanpayments" && !TransactionAmounts.CategoryExcluded(frontend, u)
    ensures SpendingAmount(tax, t) == TransactionAmounts.NetSpending(frontend, u)
       <==> !(t.provider == Some("teller") && Lower(t.accountType) == "credit card" && t.amount != 0)
  {
  }

  lemma {:induction false} CreditCardIsLower()
    ensures Lower("credit card") == "credit card"
  {
    var s := "credit card";
    assert forall i :: 0 <= i < |s| ==> !('A' <= s[i] <= 'Z');
  }

  lemma {:induction false} UnresolvedIsNotExcluded(tax: Taxonomy, category: string)
    requires tax.resolveMajor(category) == ""
    ensures !Excluded(tax, category)
  {
    assert |"Transfer"| == 8 && |"Tax Refund"| == 10 && |"Earned Income"| == 13;
  }

  lemma {:induction false} TellerCardHere(tax: Taxonomy, t: Transaction)
    requires forall c :: tax.resolveMajor(c) == "" && tax.normalizeKey(c) == ""
    requires Lower(t.accountType) == "credit card" && t.provider == Some("teller") && !t.pending
    ensures SpendingAmount(tax, t) == t.amount
  {
    UnresolvedIsNotExcluded(tax, EffectiveCategory(tax, t));
    UnresolvedIsNotExcluded(tax, t.detailed);
    assert |"credit card"| == 11 && |"credit"| == 6 && |"loanpayments"| == 12;
    assert |"depository"| == 10 && |"checking"| == 8 && |"savings"| == 7;
  }

  lemma {:induction false} TellerCardThere(frontend: TransactionAmounts.Taxonomy, u: TransactionAmounts.ApiTransaction)
    requires forall c :: !frontend.excluded(c)
    requires Lower(u.accountType) == "credit card" && u.provider == Some("teller") && u.primary.None?
    ensures TransactionAmounts.NetSpending(frontend, u) == -u.amount
  {
    assert Alphanumeric("") == "" && Lower("") == "";
    assert |"credit card"| == 11 && |"credit"| == 6;
  }

  /** A purchase of 5.00 on a Teller account of type "credit card": 5.00 spent here, 5.00 refunded there. */
  lemma {:induction false} TellerCardSignsDiffer(
    tax: Taxonomy, t: Transaction, frontend: TransactionAmounts.Taxonomy, u: TransactionAmounts.ApiTransaction)
    requires tax == Taxonomy(c => "", c => "") && frontend == TransactionAmounts.Taxonomy(c => "", c => false)
    requires t == Transaction(Date(2024, 1, 1), false, 500, "credit card", Some("teller"), None, "", "", None, None)
    requires u == TransactionAmounts.ApiTransaction(
                    Date(2024, 1, 1), false, 500, "credit card", Some("teller"), None, None, None, None, None, None)
    ensures SpendingAmount(tax, t) == 500 && TransactionAmounts.NetSpending(frontend, u) == -500
  {
    CreditCardIsLower();
    TellerCardHere(tax, t);
    TellerCardThere(frontend, u);
  }

  /** The date filters in use: bounds that only count together, bounds that count one by one, and parts of a month. */
  datatype Window =
    | Together(start: Option<Date>, end: Option<Date>)
    | Separately(start: Option<Date>, end: Option<Date>)
    | SeparatelyInMonth(start: Option<Date>, end: Option<Date>, year: int, month: int)
    | OnDay(year: int, month: int, day: int)
    | UpToDay(year: int, month: int, day: int)

  predicate WithinEach(start: Option<Date>, end: Option<Date>, d: Date) {
    (start.Some? ==> !Before(d, start.value)) && (end.Some? ==> !Before(end.value, d))
  }

  predicate InWindow(w: Window, d: Date) {
    match w
    case Together(s, e) => s.Some? && e.Some? ==> !Before(d, s.value) && !Before(e.value, d)
    case Separately(s, e) => WithinEach(s, e, d)
    case SeparatelyInMonth(s, e, y, m) => WithinEach(s, e, d) && d.year == y && d.month == m
    case OnDay(y, m, day) => d.year == y && d.month == m && d.day == day
    case UpToDay(y, m, day) => d.year == y && d.month == m && d.day <= day
  }

  /** A spend as the loops see it: what matters of a transaction. */
  datatype Spend = Spend(date: ValidDate, category: string, merchant: string, amount: int)

  function SpendOf(tax: Taxonomy, t: Transaction): Spend {
    Spend(t.date, EffectiveCategory(tax, t),
          if t.merchant.Some? then t.merchant.value else "Unknown Merchant", SpendingAmount(tax, t))
  }

  function Spends(tax: Taxonomy, txns: seq<Transaction>): seq<Spend> {
    seq(|txns|, i requires 0 <= i < |txns| => SpendOf(tax, txns[i]))
  }

  datatype Filter = Everything | OfCategory(name: string) | OfMerchant(name: string)

  predicate Passes(s: Spend, w: Window, f: Filter) {
    && InWindow(w, s.date)
    && (f.OfCategory? ==> s.category == f.name) && (f.OfMerchant? ==> s.merchant == f.name)
  }

  /** The independent meaning of every aggregate. */
  function Sum(spends: seq<Spend>, w: Window, f: Filter): int {
    if spends == [] then 0
    else
      var n := |spends| - 1;
      Sum(spends[..n], w, f) + (if Passes(spends[n], w, f) then spends[n].amount else 0)
  }

  lemma {:induction false} SumGrows(spends: seq<Spend>, s: Spend, w: Window, f: Filter)
    ensures Sum(spends + [s], w, f) == Sum(spends, w, f) + (if Passes(s, w, f) then s.amount else 0)
  {
    assert (spends + [s])[..|spends|] == spends;
  }

  /** `sum_spending_transactions_with_account`: only spends different from zero, both bounds or none. */
  function SumSpending(spends: seq<Spend>, start: Option<Date>, end: Option<Date>): int {
    if spends == [] then 0
    else
      var n := |spends| - 1;
      var s := spends[n];
      SumSpending(spends[..n], start, end) +
      (if InWindow(Together(start, end), s.date) && s.amount != 0 then s.amount else 0)
  }

  lemma {:induction false} SumSpendingIsSum(spends: seq<Spend>, start: Option<Date>, end: Option<Date>)
    ensures SumSpending(spends, start, end) == Sum(spends, Together(start, end), Everything)
  {
    if spends != [] {
      SumSpendingIsSum(spends[..|spends| - 1], start, end);
    }
  }

  // ----- by category and by merchant

  function KeyOf(s: Spend, merchants: bool): string {
    if merchants then s.merchant else s.category
  }

  function OfKey(k: string, merchants: bool): Filter {
    if merchants then OfMerchant(k) else OfCategory(k)
  }

  ghost predicate TalliedBy(spends: seq<Spend>, w: Window, t: Tally<string>, merchants: bool) {
    && Distinct(t) && Total(t) == Sum(spends, w, Everything)
    && forall k :: Get(t, k) == Sum(spends, w, OfKey(k, merchants))
  }

  /** One turn of a grouping loop: spends outside the window and zero spends are skipped. */
  function NextTally(t: Tally<string>, w: Window, merchants: bool, s: Spend): Tally<string> {
    if InWindow(w, s.date) && s.amount != 0 then Add(t, KeyOf(s, merchants), s.amount) else t
  }

  lemma {:induction false} KeyStep(
    spends: seq<Spend>, w: Window, t: Tally<string>, merchants: bool, s: Spend, k: string)
    requires Get(t, k) == Sum(spends, w, OfKey(k, merchants))
    ensures Get(NextTally(t, w, merchants, s), k) == Sum(spends + [s], w, OfKey(k, merchants))
  {
    SumGrows(spends, s, w, OfKey(k, merchants));
    AddAt(t, KeyOf(s, merchants), s.amount, k);
  }

  lemma {:induction false} TallyStep(spends: seq<Spend>, w: Window, t: Tally<string>, merchants: bool, s: Spend)
    requires TalliedBy(spends, w, t, merchants)
    ensures TalliedBy(spends + [s], w, NextTally(t, w, merchants, s), merchants)
  {
    SumGrows(spends, s, w, Everything);
    AddKeepsDistinct(t, KeyOf(s, merchants), s.amount);
    forall k
      ensures Get(NextTally(t, w, merchants, s), k) == Sum(spends + [s], w, OfKey(k, merchants))
    {
      KeyStep(spends, w, t, merchants, s, k);
    }
  }

  /** `group_transactions_with_account_by_effective_category` */
  method GroupByEffectiveCategory(tax: Taxonomy, txns: seq<Transaction>, start: Option<Date>, end: Option<Date>)
    returns (t: Tally<string>)
    ensures TalliedBy(Spends(tax, txns), Together(start, end), t, false)
  {
    var spends := Spends(tax, txns);
    t := [];
    for i := 0 to |spends|
      invariant TalliedBy(spends[..i], Together(start, end), t, false)
    {
      TallyStep(spends[..i], Together(start, end), t, false, spends[i]);
      assert spends[..i + 1] == spends[..i] + [spends[i]];
      if spends[i].amount == 0 {
        continue;
      }
      if !InWindow(Together(start, end), spends[i].date) {
        continue;
      }
      t := Add(t, spends[i].category, spends[i].amount);
    }
    assert spends[..|spends|] == spends;
  }

  /** How many spends a merchant has in the window. */
  function CountOf(spends: seq<Spend>, w: Window, merchant: string): nat {
    if spends == [] then 0
    else
      var n := |spends| - 1;
      var s := spends[n];
      CountOf(spends[..n], w, merchant) +
      (if InWindow(w, s.date) && s.amount != 0 && s.merchant == merchant then 1 else 0)
  }

  ghost predicate Counted(spends: seq<Spend>, w: Window, counts: Tally<string>) {
    forall k :: Get(counts, k) == CountOf(spends, w, k)
  }

  lemma {:induction false} CountStep(spends: seq<Spend>, w: Window, counts: Tally<string>, s: Spend)
    requires Counted(spends, w, counts)
    ensures Counted(spends + [s], w, if InWindow(w, s.date) && s.amount != 0 then Add(counts, s.merchant, 1) else counts)
  {
    assert (spends + [s])[..|spends|] == spends;
    forall k
      ensures Get(Add(counts, s.merchant, 1), k) == Get(counts, k) + (if k == s.merchant then 1 else 0)
    {
      AddAt(counts, s.merchant, 1, k);
    }
  }

  /** The map entry of a merchant is a pair: what was spent, and how often. */
  method GroupMerchants(spends: seq<Spend>, w: Window) returns (amounts: Tally<string>, counts: Tally<string>)
    ensures TalliedBy(spends, w, amounts, true) && Counted(spends, w, counts)
  {
    amounts, counts := [], [];
    for i := 0 to |spends|
      invariant TalliedBy(spends[..i], w, amounts, true) && Counted(spends[..i], w, counts)
    {
      TallyStep(spends[..i], w, amounts, true, spends[i]);
      CountStep(spends[..i], w, counts, spends[i]);
      assert spends[..i + 1] == spends[..i] + [spends[i]];
      if InWindow(w, spends[i].date) && spends[i].amount != 0 {
        amounts := Add(amounts, spends[i].merchant, spends[i].amount);
        counts := Add(counts, spends[i].merchant, 1);
      }
    }
    assert spends[..|spends|] == spends;
  }

  datatype TopMerchant = TopMerchant(name: string, amount: int, count: int)

  /** `get_top_merchants_with_account_date_range`: the total over all merchants and the `limit` largest,
      each with what was spent there and how often. */
  method TopMerchants(tax: Taxonomy, txns: seq<Transaction>, start: Option<Date>, end: Option<Date>, limit: nat)
    returns (totalSpend: int, top: seq<TopMerchant>, ghost t: Tally<string>)
    ensures TalliedBy(Spends(tax, txns), Together(start, end), t, true)
    ensures totalSpend == SumSpending(Spends(tax, txns), start, end)
    ensures |top| == if |t| <= limit then |t| else limit
    ensures forall i :: 0 <= i < |top| ==>
              && (top[i].name, top[i].amount) == SortDescending(t)[i]
              && top[i].count == CountOf(Spends(tax, txns), Together(start, end), top[i].name)
  {
    var spends := Spends(tax, txns);
    var amounts, counts := GroupMerchants(spends, Together(start, end));
    SumSpendingIsSum(spends, start, end);
    t := amounts;
    totalSpend := Total(amounts);
    var sorted := SortDescending(amounts);
    top := seq(if |sorted| <= limit then |sorted| else limit, i requires 0 <= i < |sorted| =>
      TopMerchant(sorted[i].0, sorted[i].1, Get(counts, sorted[i].0)));
  }

  // ----- by month and category

  datatype Cell = Cell(year: int, month: int, category: string)

  function CellTotal(t: Tally<Cell>, category: string): int {
    if t == [] then 0 else (if t[0].0.category == category then t[0].1 else 0) + CellTotal(t[1..], category)
  }

  lemma {:induction false} AddToCell(t: Tally<Cell>, cell: Cell, v: int, category: string)
    ensures CellTotal(Add(t, cell, v), category) == CellTotal(t, category) + (if cell.category == category then v else 0)
  {
    if t != [] && t[0].0 != cell {
      AddToCell(t[1..], cell, v, category);
    }
  }

  ghost predicate TalliedByCell(spends: seq<Spend>, start: Option<Date>, end: Option<Date>, t: Tally<Cell>) {
    && Distinct(t) && Total(t) == Sum(spends, Separately(start, end), Everything)
    && (forall c :: Get(t, c) == Sum(spends, SeparatelyInMonth(start, end, c.year, c.month), OfCategory(c.category)))
    && (forall k :: CellTotal(t, k) == Sum(spends, Separately(start, end), OfCategory(k)))
  }

  function NextCells(t: Tally<Cell>, w: Window, s: Spend): Tally<Cell> {
    if InWindow(w, s.date) && s.amount != 0 then Add(t, Cell(s.date.year, s.date.month, s.category), s.amount) else t
  }

  lemma {:induction false} CellEntryStep(
    spends: seq<Spend>, start: Option<Date>, end: Option<Date>, t: Tally<Cell>, s: Spend, c: Cell)
    requires Get(t, c) == Sum(spends, SeparatelyInMonth(start, end, c.year, c.month), OfCategory(c.category))
    ensures Get(NextCells(t, Separately(start, end), s), c)
         == Sum(spends + [s], SeparatelyInMonth(start, end, c.year, c.month), OfCategory(c.category))
  {
    SumGrows(spends, s, SeparatelyInMonth(start, end, c.year, c.month), OfCategory(c.category));
    AddAt(t, Cell(s.date.year, s.date.month, s.category), s.amount, c);
  }

  lemma {:induction false} CellCategoryStep(
    spends: seq<Spend>, start: Option<Date>, end: Option<Date>, t: Tally<Cell>, s: Spend, k: string)
    requires CellTotal(t, k) == Sum(spends, Separately(start, end), OfCategory(k))
    ensures CellTotal(NextCells(t, Separately(start, end), s), k) == Sum(spends + [s], Separately(start, end), OfCategory(k))
  {
    SumGrows(spends, s, Separately(start, end), OfCategory(k));
    AddToCell(t, Cell(s.date.year, s.date.month, s.category), s.amount, k);
  }

  lemma {:induction false} CellStep(
    spends: seq<Spend>, start: Option<Date>, end: Option<Date>, t: Tally<Cell>, s: Spend)
    requires TalliedByCell(spends, start, end, t)
    ensures TalliedByCell(spends + [s], start, end, NextCells(t, Separately(start, end), s))
  {
    SumGrows(spends, s, Separately(start, end), Everything);
    AddKeepsDistinct(t, Cell(s.date.year, s.date.month, s.category), s.amount);
    forall c
      ensures Get(NextCells(t, Separately(start, end), s), c)
           == Sum(spends + [s], SeparatelyInMonth(start, end, c.year, c.month), OfCategory(c.category))
    {
      CellEntryStep(spends, start, end, t, s, c);
    }
    forall k
      ensures CellTotal(NextCells(t, Separately(start, end), s), k)
           == Sum(spends + [s], Separately(start, end), OfCategory(k))
    {
      CellCategoryStep(spends, start, end, t, s, k);
    }
  }

  method GroupCells(spends: seq<Spend>, start: Option<Date>, end: Option<Date>) returns (t: Tally<Cell>)
    ensures TalliedByCell(spends, start, end, t)
  {
    t := [];
    for i := 0 to |spends|
      invariant TalliedByCell(spends[..i], start, end, t)
    {
      var s := spends[i];
      CellStep(spends[..i], start, end, t, s);
      assert spends[..i + 1] == spends[..i] + [s];
      if s.amount == 0 {
        continue;
      }
      if (start.Some? && Before(s.date, start.value)) || (end.Some? && Before(end.value, s.date)) {
        continue;
      }
      t := Add(t, Cell(s.date.year, s.date.month, s.category), s.amount);
    }
    assert spends[..|spends|] == spends;
  }

  /** `calculate_monthly_category_totals_with_account` */
  method MonthlyCategoryTotals(tax: Taxonomy, txns: seq<Transaction>, start: Option<Date>, end: Option<Date>)
    returns (t: Tally<Cell>)
    ensures TalliedByCell(Spends(tax, txns), start, end, t)
  {
    t := GroupCells(Spends(tax, txns), start, end);
  }

  // ----- the aggregates agree, and when they do not

  lemma {:induction false} SameWindowSameSum(spends: seq<Spend>, v: Window, w: Window, f: Filter)
    requires forall s :: s in spends ==> (InWindow(v, s.date) <==> InWindow(w, s.date))
    ensures Sum(spends, v, f) == Sum(spends, w, f)
  {
    if spends != [] {
      SameWindowSameSum(spends[..|spends| - 1], v, w, f);
      assert spends[|spends| - 1] in spends;
    }
  }

  /** With both bounds or none, total spending, the categories, the merchants and the (month, category)
      cells all add up to the same, and each category is the sum of its cells. */
  lemma {:induction false} AggregatesAgree(
    spends: seq<Spend>, start: Option<Date>, end: Option<Date>,
    categories: Tally<string>, merchants: Tally<string>, cells: Tally<Cell>, category: string)
    requires start.Some? <==> end.Some?
    requires TalliedBy(spends, Together(start, end), categories, false)
    requires TalliedBy(spends, Together(start, end), merchants, true)
    requires TalliedByCell(spends, start, end, cells)
    ensures SumSpending(spends, start, end) == Total(categories) == Total(merchants) == Total(cells)
    ensures Get(categories, category) == CellTotal(cells, category)
  {
    SumSpendingIsSum(spends, start, end);
    SameWindowSameSum(spends, Together(start, end), Separately(start, end), Everything);
    SameWindowSameSum(spends, Together(start, end), Separately(start, end), OfCategory(category));
  }

  predicate IsBeyond(start: Option<Date>, end: Option<Date>, d: Date) {
    (start.Some? && Before(d, start.value)) || (end.Some? && Before(end.value, d))
  }

  /** Spending dated before the start or after the end. */
  function Beyond(spends: seq<Spend>, start: Option<Date>, end: Option<Date>, f: Filter): int {
    if spends == [] then 0
    else
      var n := |spends| - 1;
      var s := spends[n];
      Beyond(spends[..n], start, end, f) +
      (if IsBeyond(start, end, s.date) && Passes(s, Together(None, None), f) then s.amount else 0)
  }

  lemma {:induction false} BeyondIsRest(spends: seq<Spend>, start: Option<Date>, end: Option<Date>, f: Filter)
    ensures Sum(spends, Together(None, None), f) == Sum(spends, Separately(start, end), f) + Beyond(spends, start, end, f)
  {
    if spends != [] {
      BeyondIsRest(spends[..|spends| - 1], start, end, f);
    }
  }

  /** With exactly one bound the category grouping counts the spending beyond it and the monthly cells do
      not: a category, or the whole, agrees between the two if and only if that spending sums to zero. */
  lemma {:induction false} HalfOpenRangesDiffer(
    spends: seq<Spend>, start: Option<Date>, end: Option<Date>, categories: Tally<string>, cells: Tally<Cell>, category: string)
    requires start.Some? != end.Some?
    requires TalliedBy(spends, Together(start, end), categories, false) && TalliedByCell(spends, start, end, cells)
    ensures Get(categories, category) == CellTotal(cells, category) + Beyond(spends, start, end, OfCategory(category))
    ensures Get(categories, category) == CellTotal(cells, category) <==> Beyond(spends, start, end, OfCategory(category)) == 0
    ensures Total(categories) == Total(cells) <==> Beyond(spends, start, end, Everything) == 0
  {
    SameWindowSameSum(spends, Together(start, end), Together(None, None), Everything);
    SameWindowSameSum(spends, Together(start, end), Together(None, None), OfCategory(category));
    BeyondIsRest(spends, start, end, Everything);
    BeyondIsRest(spends, start, end, OfCategory(category));
  }

  /** One spend in January, asked for from February on: the grouping shows it and no month does. */
  lemma {:induction false} JanuaryShownFromFebruary(categories: Tally<string>, cells: Tally<Cell>)
    requires var spends := [Spend(Date(2024, 1, 31), "Food", "Shop", 100)];
             && TalliedBy(spends, Together(Some(Date(2024, 2, 1)), None), categories, false)
             && TalliedByCell(spends, Some(Date(2024, 2, 1)), None, cells)
    ensures Get(categories, "Food") == 100 && CellTotal(cells, "Food") == 0
  {
    var spends := [Spend(Date(2024, 1, 31), "Food", "Shop", 100)];
    assert spends[..0] == [];
    assert Sum(spends, Together(Some(Date(2024, 2, 1)), None), OfCategory("Food")) == 100;
    assert Sum(spends, Separately(Some(Date(2024, 2, 1)), None), OfCategory("Food")) == 0;
  }

  // ----- by day of a month

  datatype DailySpending = DailySpending(day: int, spend: int, cumulative: int)

  /** The last day before the first of the next month; an impossible next month falls back to January. */
  function DaysIn(year: int, month: nat): (n: int)
    ensures 28 <= n <= 31
  {
    var next := Date(year, month + 1, 1);
    PreviousDay(if Valid(next) then next else Date(year + 1, 1, 1)).day
  }

  /** `get_month_range_static` */
  function MonthRange(year: int, month: int): (Date, Date)
    requires 1 <= month <= 12
  {
    (Date(year, month, 1), PreviousDay(if month == 12 then Date(year + 1, 1, 1) else Date(year, month + 1, 1)))
  }

  lemma {:induction false} DayByDay(spends: seq<Spend>, year: int, month: int, day: int)
    ensures Sum(spends, UpToDay(year, month, day), Everything)
         == Sum(spends, UpToDay(year, month, day - 1), Everything) + Sum(spends, OnDay(year, month, day), Everything)
  {
    if spends != [] {
      DayByDay(spends[..|spends| - 1], year, month, day);
    }
  }

  lemma {:induction false} NothingBefore(spends: seq<Spend>, year: int, month: int)
    ensures Sum(spends, UpToDay(year, month, 0), Everything) == 0
  {
    if spends != [] {
      NothingBefore(spends[..|spends| - 1], year, month);
    }
  }

  /** `totals[k]` is what was spent on day k + 1. */
  ghost predicate TalliedByDay(spends: seq<Spend>, year: int, month: nat, totals: seq<int>) {
    forall k :: 0 <= k < |totals| ==> totals[k] == Sum(spends, OnDay(year, month, k + 1), Everything)
  }

  lemma {:induction false} DayStep(spends: seq<Spend>, year: int, month: nat, totals: seq<int>, s: Spend)
    requires TalliedByDay(spends, year, month, totals) && |totals| == DaysIn(year, month)
    ensures s.date.year != year || s.date.month != month || s.amount == 0 ==>
              TalliedByDay(spends + [s], year, month, totals)
    ensures s.date.year == year && s.date.month == month ==>
              && s.date.day <= |totals|
              && TalliedByDay(
                   spends + [s], year, month, totals[s.date.day - 1 := totals[s.date.day - 1] + s.amount])
  {
    forall k | 0 <= k < |totals|
      ensures Sum(spends + [s], OnDay(year, month, k + 1), Everything)
           == totals[k] + (if InWindow(OnDay(year, month, k + 1), s.date) then s.amount else 0)
    {
      SumGrows(spends, s, OnDay(year, month, k + 1), Everything);
    }
  }

  /** The first loop: one slot per day, every access in range. */
  method DailyTotals(spends: seq<Spend>, year: int, month: nat) returns (totals: array<int>)
    ensures fresh(totals) && totals.Length == DaysIn(year, month)
    ensures TalliedByDay(spends, year, month, totals[..])
  {
    totals := new int[DaysIn(year, month)](_ => 0);
    for i := 0 to |spends|
      invariant TalliedByDay(spends[..i], year, month, totals[..])
    {
      var s := spends[i];
      assert spends[..i + 1] == spends[..i] + [s];
      DayStep(spends[..i], year, month, totals[..], s);
      if s.date.year == year && s.date.month == month && s.amount != 0 {
        var idx := s.date.day - 1;
        ghost var before := totals[..];
        totals[idx] := totals[idx] + s.amount;
        assert totals[..] == before[idx := before[idx] + s.amount];
      }
    }
    assert spends[..|spends|] == spends;
  }

  ghost predicate IsDay(spends: seq<Spend>, year: int, month: nat, day: int, d: DailySpending) {
    && d.day == day && d.spend == Sum(spends, OnDay(year, month, day), Everything)
    && d.cumulative == Sum(spends, UpToDay(year, month, day), Everything)
  }

  /** The second loop: running totals. */
  method Accumulate(spends: seq<Spend>, year: int, month: nat, totals: array<int>) returns (r: seq<DailySpending>)
    requires TalliedByDay(spends, year, month, totals[..])
    ensures |r| == totals.Length && forall i :: 0 <= i < |r| ==> IsDay(spends, year, month, i + 1, r[i])
  {
    var cumulative := 0;
    NothingBefore(spends, year, month);
    r := [];
    for i := 0 to totals.Length
      invariant |r| == i && cumulative == Sum(spends, UpToDay(year, month, i), Everything)
      invariant forall j :: 0 <= j < i ==> IsDay(spends, year, month, j + 1, r[j])
    {
      DayByDay(spends, year, month, i + 1);
      assert totals[i] == totals[..][i];
      cumulative := cumulative + totals[i];
      r := r + [DailySpending(i + 1, totals[i], cumulative)];
    }
  }

  /** `calculate_daily_spending_with_account` */
  method DailySpendings(tax: Taxonomy, txns: seq<Transaction>, year: int, month: nat) returns (r: seq<DailySpending>)
    ensures |r| == DaysIn(year, month)
    ensures forall i :: 0 <= i < |r| ==> IsDay(Spends(tax, txns), year, month, i + 1, r[i])
  {
    var spends := Spends(tax, txns);
    var totals := DailyTotals(spends, year, month);
    r := Accumulate(spends, year, month, totals);
  }

  /** For every month the last cumulative value is the month's spending, leap years and December included. */
  lemma {:induction false} LastCumulativeIsMonthTotal(spends: seq<Spend>, year: int, month: nat)
    requires 1 <= month <= 12
    ensures Sum(spends, UpToDay(year, month, DaysIn(year, month)), Everything)
         == SumSpending(spends, Some(MonthRange(year, month).0), Some(MonthRange(year, month).1))
  {
    LastDayOfMonth(year, month);
    var (first, last) := MonthRange(year, month);
    SumSpendingIsSum(spends, Some(first), Some(last));
    SameWindowSameSum(spends, UpToDay(year, month, DaysIn(year, month)), Together(Some(first), Some(last)), Everything);
  }
}
