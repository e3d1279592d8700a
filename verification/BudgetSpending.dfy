/** What one transaction adds to the spending of a budget, in terms of its own fields. */
module BudgetSpending {
  import opened Prelude
  import opened Text
  import opened Calendar
  import opened CategoryNames
  import opened TransactionAmounts
  import opened RolloverBudget
  import SankeyFlows
  import SankeyMeaning

  /** `x` is given and not empty. */
  predicate Names(x: Option<string>, name: string) {
    x == Some(name) && name != ""
  }

  predicate Empty(x: Option<string>) {
    x.None? || x == Some("")
  }

  /** The provider's category is all that a budget asks for. */
  predicate ProvidedAs(t: ApiTransaction, p: string) {
    t.primary == Some(p) || (t.primary.None? && p == "")
  }

  /** The provider's detail comes first here, then the user's, then a rule's. */
  predicate DetailIs(t: ApiTransaction, d: string) {
    || Names(t.detailed, d)
    || (Empty(t.detailed) && Names(t.customSubcategory, d))
    || (Empty(t.detailed) && Empty(t.customSubcategory) && Names(t.ruleSubcategory, d))
    || (Empty(t.detailed) && Empty(t.customSubcategory) && Empty(t.ruleSubcategory) && d == "")
  }

  /** Equal but for case. */
  predicate Alike(a: string, b: string) {
    Lower(a) == Lower(b)
  }

  predicate ShownAlike(a: string, b: string) {
    Alike(FormatCategoryName(a), FormatCategoryName(b))
  }

  /** A budget for a subcategory wants that detail, under the same category or major category. */
  predicate BelongsToSubcategory(tax: Taxonomy, p: string, d: string, category: string, sub: string) {
    && !(p != "" && tax.excluded(p)) && Alike(d, sub)
    && (Alike(p, category) || ShownAlike(p, category) || Alike(tax.resolveMajor(p), tax.resolveMajor(category)))
  }

  /** A budget for a category takes a detail of its name as well; one for a major category all that is part of it. */
  predicate BelongsToCategory(tax: Taxonomy, p: string, d: string, category: string) {
    && !(p != "" && tax.excluded(p))
    && (|| (d != "" && (Alike(d, category) || ShownAlike(Lower(d), category)))
        || Alike(p, category) || ShownAlike(p, category)
        || (Alike(tax.resolveMajor(category), category) && Alike(tax.resolveMajor(p), tax.resolveMajor(category))))
  }

  lemma {:induction false} NamesFound(t: ApiTransaction, p: string, d: string)
    requires ProvidedAs(t, p) && DetailIs(t, d)
    ensures OrEmpty(t.primary) == p
    ensures Truthy(OrEmpty(t.detailed), Truthy(OrEmpty(t.customSubcategory), OrEmpty(t.ruleSubcategory))) == d
  {
  }

  lemma {:induction false} ForCategory(
    tax: Taxonomy, t: ApiTransaction, p: string, d: string, category: string, sub: Option<string>)
    requires OrEmpty(t.primary) == p && Empty(sub)
    requires Truthy(OrEmpty(t.detailed), Truthy(OrEmpty(t.customSubcategory), OrEmpty(t.ruleSubcategory))) == d
    ensures Belongs(tax, t, category, sub) <==> BelongsToCategory(tax, p, d, category)
  {
    assert |Lower(d)| == |d|;
    assert SameName(p, category) <==> ShownAlike(p, category);
    assert SameName(Lower(d), category) <==> ShownAlike(Lower(d), category);
  }

  lemma {:induction false} ForSubcategory(
    tax: Taxonomy, t: ApiTransaction, p: string, d: string, category: string, sub: Option<string>)
    requires OrEmpty(t.primary) == p && !Empty(sub)
    requires Truthy(OrEmpty(t.detailed), Truthy(OrEmpty(t.customSubcategory), OrEmpty(t.ruleSubcategory))) == d
    ensures Belongs(tax, t, category, sub) <==> BelongsToSubcategory(tax, p, d, category, sub.value)
  {
    assert SameName(p, category) <==> ShownAlike(p, category);
  }

  predicate BelongsByNames(tax: Taxonomy, p: string, d: string, category: string, sub: Option<string>) {
    if Empty(sub) then BelongsToCategory(tax, p, d, category) else BelongsToSubcategory(tax, p, d, category, sub.value)
  }

  lemma {:induction false} BelongsIff(
    tax: Taxonomy, t: ApiTransaction, p: string, d: string, category: string, sub: Option<string>)
    requires ProvidedAs(t, p) && DetailIs(t, d)
    ensures Belongs(tax, t, category, sub) <==> BelongsByNames(tax, p, d, category, sub)
  {
    NamesFound(t, p, d);
    if Empty(sub) {
      ForCategory(tax, t, p, d, category, sub);
    } else {
      ForSubcategory(tax, t, p, d, category, sub);
    }
  }

  lemma {:induction false} WithinIff(d: Date, start: Date, end: Date)
    requires Valid(d) && Valid(start) && Valid(end)
    ensures Within(d, start, end) <==> DayNumber(start) <= DayNumber(d) <= DayNumber(end)
  {
    OrderIsDayOrder(d, start);
    OrderIsDayOrder(end, d);
  }

  function Share(tax: Taxonomy, t: ApiTransaction, category: string, start: Date, end: Date, sub: Option<string>): int {
    if Belongs(tax, t, category, sub) && Within(t.date, start, end) then NetSpending(tax, t) else 0
  }

  function SumOf(s: seq<int>): int {
    if s == [] then 0 else SumOf(s[..|s| - 1]) + s[|s| - 1]
  }

  lemma {:induction false} SumOfConcat(a: seq<int>, b: seq<int>)
    ensures SumOf(a + b) == SumOf(a) + SumOf(b)
  {
    if b == [] {
      assert a + b == a;
    } else {
      var n := |b| - 1;
      assert (a + b)[..|a| + n] == a + b[..n];
      SumOfConcat(a, b[..n]);
    }
  }

  function Shares(
    tax: Taxonomy, txns: seq<ApiTransaction>, category: string, start: Date, end: Date, sub: Option<string>): seq<int>
  {
    seq(|txns|, i requires 0 <= i < |txns| => Share(tax, txns[i], category, start, end, sub))
  }

  lemma {:induction false} SpentIsSumOfShares(
    tax: Taxonomy, txns: seq<ApiTransaction>, category: string, start: Date, end: Date, sub: Option<string>)
    ensures Spent(tax, txns, category, start, end, sub) == SumOf(Shares(tax, txns, category, start, end, sub))
  {
    if txns != [] {
      var n := |txns| - 1;
      SpentIsSumOfShares(tax, txns[..n], category, start, end, sub);
      var shares := Shares(tax, txns, category, start, end, sub);
      assert shares[..n] == Shares(tax, txns[..n], category, start, end, sub);
    }
  }

  lemma {:induction false} SharesWithOne(
    tax: Taxonomy, before: seq<ApiTransaction>, t: ApiTransaction, after: seq<ApiTransaction>,
    category: string, start: Date, end: Date, sub: Option<string>)
    ensures Shares(tax, before + [t] + after, category, start, end, sub)
         == Shares(tax, before, category, start, end, sub) + [Share(tax, t, category, start, end, sub)]
            + Shares(tax, after, category, start, end, sub)
    ensures Shares(tax, before + after, category, start, end, sub)
         == Shares(tax, before, category, start, end, sub) + Shares(tax, after, category, start, end, sub)
  {
  }

  lemma {:induction false} SpentWithOne(
    tax: Taxonomy, before: seq<ApiTransaction>, t: ApiTransaction, after: seq<ApiTransaction>,
    category: string, start: Date, end: Date, sub: Option<string>)
    ensures Spent(tax, before + [t] + after, category, start, end, sub)
         == Spent(tax, before + after, category, start, end, sub) + Share(tax, t, category, start, end, sub)
  {
    SpentIsSumOfShares(tax, before + [t] + after, category, start, end, sub);
    SpentIsSumOfShares(tax, before + after, category, start, end, sub);
    SharesWithOne(tax, before, t, after, category, start, end, sub);
    var a, b := Shares(tax, before, category, start, end, sub), Shares(tax, after, category, start, end, sub);
    SumAroundOne(a, Share(tax, t, category, start, end, sub), b);
  }

  lemma {:induction false} SumAroundOne(a: seq<int>, x: int, b: seq<int>)
    ensures SumOf(a + [x] + b) == SumOf(a + b) + x
  {
    SumOfConcat(a + [x], b);
    SumOfConcat(a, b);
    assert (a + [x])[..|a|] == a;
  }

  /** What left the account, or on a card also what came back; nothing under an excluded name. */
  function Net(tax: Taxonomy, t: ApiTransaction): int {
    if Barred(tax, t) then 0
    else if Lower(t.accountType) in ["credit", "credit card"] then Left(t)
    else Max(0, Left(t))
  }

  /** Whatever stands before and after it, a transaction adds its net spending if it falls in the window and
      belongs to the budget, and nothing otherwise. */
  lemma {:induction false} OneTransactionCounts(
    tax: Taxonomy, before: seq<ApiTransaction>, t: ApiTransaction, after: seq<ApiTransaction>,
    p: string, d: string, category: string, start: Date, end: Date, sub: Option<string>)
    requires ProvidedAs(t, p) && DetailIs(t, d) && Valid(start) && Valid(end)
    ensures Spent(tax, before + [t] + after, category, start, end, sub)
         == Spent(tax, before + after, category, start, end, sub)
            + (if DayNumber(start) <= DayNumber(t.date) <= DayNumber(end) && BelongsByNames(tax, p, d, category, sub)
               then Net(tax, t) else 0)
  {
    SpentWithOne(tax, before, t, after, category, start, end, sub);
    BelongsIff(tax, t, p, d, category, sub);
    WithinIff(t.date, start, end);
    NetSpendingByFields(tax, t);
  }

  /** A budget never asks what the user or a rule filed a transaction under: as long as that excludes it
      neither before nor after, filing it elsewhere changes no budget. */
  lemma {:induction false} FilingElsewhereChangesNothing(
    tax: Taxonomy, before: seq<ApiTransaction>, t: ApiTransaction, u: ApiTransaction, after: seq<ApiTransaction>,
    category: string, start: Date, end: Date, sub: Option<string>)
    requires u == t.(customCategory := u.customCategory, ruleCategory := u.ruleCategory)
    requires Barred(tax, t) <==> Barred(tax, u)
    ensures Spent(tax, before + [t] + after, category, start, end, sub)
         == Spent(tax, before + [u] + after, category, start, end, sub)
  {
    SpentWithOne(tax, before, t, after, category, start, end, sub);
    SpentWithOne(tax, before, u, after, category, start, end, sub);
    NetSpendingByFields(tax, t);
    NetSpendingByFields(tax, u);
  }

  lemma {:induction false} AloneItIsSpent(
    tax: Taxonomy, t: ApiTransaction, p: string, d: string, category: string, start: Date, end: Date)
    requires ProvidedAs(t, p) && DetailIs(t, d) && Valid(start) && Valid(end)
    requires DayNumber(start) <= DayNumber(t.date) <= DayNumber(end) && BelongsToCategory(tax, p, d, category)
    ensures Spent(tax, [t], category, start, end, None) == Net(tax, t)
  {
    OneTransactionCounts(tax, [], t, [], p, d, category, start, end, None);
    assert [] + [t] + [] == [t];
  }

  lemma {:induction false} SpentOnFood(t: ApiTransaction)
    requires t == SankeyMeaning.Expense("Food", Some("Trip"))
    ensures Spent(SankeyMeaning.PlainNames(), [t], "Food", Date(2024, 1, 1), Date(2024, 1, 31), None) == 500
  {
    SankeyMeaning.ExpenseIsSpending("Food", Some("Trip"), "Trip");
    AloneItIsSpent(SankeyMeaning.PlainNames(), t, "Food", "", "Food", Date(2024, 1, 1), Date(2024, 1, 31));
  }

  /** So what the user moved from Food to Trip is spent on Food by the budget, on Trip by the Sankey graph. */
  lemma {:induction false} TripSpentOnFood(t: ApiTransaction)
    requires t == SankeyMeaning.Expense("Food", Some("Trip"))
    ensures Spent(SankeyMeaning.PlainNames(), [t], "Food", Date(2024, 1, 1), Date(2024, 1, 31), None) == 500
    ensures SankeyFlows.Sum(SankeyFlows.Flows(SankeyMeaning.PlainNames(), [t]), SankeyFlows.Category("Trip")) == 500
    ensures SankeyFlows.Sum(SankeyFlows.Flows(SankeyMeaning.PlainNames(), [t]), SankeyFlows.Category("Food")) == 0
  {
    SpentOnFood(t);
    SankeyMeaning.FoodFiledAsTrip();
  }

  /** The amount shown for a period, by frequency, for a whole year and for one month. */
  lemma {:induction false} PeriodAmounts(frequency: Frequency)
    ensures Multiplier(frequency, true) == match frequency {
              case EveryMonth => 12 case EveryQuarter => 4 case EveryHalfYear => 2 case EveryYear => 1 }
    ensures Multiplier(frequency, false) * Multiplier(frequency, true) == 12
  {
  }
}
