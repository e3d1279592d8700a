/** What one transaction adds to the sums behind the Sankey graph, in terms of its own fields. */
module SankeyMeaning {
  import opened Prelude
  import opened Text
  import opened Calendar
  import opened CategoryNames
  import opened TransactionAmounts
  import opened SankeyFlows

  /** The category a transaction is filed under: the user's, else a rule's, else the provider's, else none. */
  predicate FiledUnder(t: ApiTransaction, c: string) {
    || t.customCategory == Some(c)
    || (t.customCategory.None? && t.ruleCategory == Some(c))
    || (t.customCategory.None? && t.ruleCategory.None? && t.primary == Some(c))
    || (t.customCategory.None? && t.ruleCategory.None? && t.primary.None? && c == "")
  }

  /** Its detail, in the same order. */
  predicate DetailedAs(t: ApiTransaction, d: Option<string>) {
    || (d.Some? && t.customSubcategory == d)
    || (t.customSubcategory.None? && d.Some? && t.ruleSubcategory == d)
    || (t.customSubcategory.None? && t.ruleSubcategory.None? && t.detailed == d)
  }

  predicate Mentions(text: string, words: seq<string>) {
    exists w :: w in words && Contains(Lower(text), w)
  }

  predicate Transferred(tax: Taxonomy, t: ApiTransaction, c: string) {
    || Lower(tax.resolveMajor(c)) == "transfer"
    || (t.detailed.Some? && Mentions(t.detailed.value, ["credit card payment", "cash spending transfer"]))
  }

  predicate NamedIncome(tax: Taxonomy, c: string) {
    Lower(tax.resolveMajor(c)) in ["earned income", "tax refund"] || Mentions(c, ["income", "paycheck", "salary", "bonus"])
  }

  predicate OnCashAccount(t: ApiTransaction) {
    Lower(t.accountType) in ["depository", "checking", "savings"]
  }

  function SourceOf(c: string, d: Option<string>): string {
    FormatCategoryName(
      if d.Some? && d.value != "" && Lower(d.value) != "other" then d.value else if c != "" then c else "Paycheck")
  }

  predicate SaysNothing(sub: string, major: string) {
    var s := Lower(Trim(sub));
    sub == "" || s in ["other", "general", "uncategorized", Lower(Trim(major))] || "other " <= s || "general " <= s
  }

  function SubcategoryOf(c: string, major: string, d: Option<string>): string {
    var sub := if d.Some? then d.value else c;
    FormatCategoryName(if SaysNothing(sub, major) then major else sub)
  }

  lemma {:induction false} FiledIsRaw(t: ApiTransaction, c: string)
    ensures FiledUnder(t, c) <==> RawCategory(t) == c
  {
  }

  lemma {:induction false} MentionsTwo(text: string, a: string, b: string)
    ensures Mentions(text, [a, b]) <==> Contains(Lower(text), a) || Contains(Lower(text), b)
  {
    assert a in [a, b] && b in [a, b];
  }

  lemma {:induction false} MentionsFour(text: string, a: string, b: string, c: string, d: string)
    ensures Mentions(text, [a, b, c, d]) <==>
            Contains(Lower(text), a) || Contains(Lower(text), b) || Contains(Lower(text), c) || Contains(Lower(text), d)
  {
    assert a in [a, b, c, d] && b in [a, b, c, d] && c in [a, b, c, d] && d in [a, b, c, d];
  }

  lemma {:induction false} TransferIff(tax: Taxonomy, t: ApiTransaction, c: string)
    requires FiledUnder(t, c)
    ensures IsTransfer(tax, t) <==> Transferred(tax, t, c)
  {
    FiledIsRaw(t, c);
    if t.detailed.Some? {
      MentionsTwo(t.detailed.value, "credit card payment", "cash spending transfer");
    }
  }

  lemma {:induction false} IncomeIff(tax: Taxonomy, t: ApiTransaction, c: string)
    requires FiledUnder(t, c)
    ensures IsIncome(tax, t) <==> NamedIncome(tax, c)
  {
    FiledIsRaw(t, c);
    MentionsFour(c, "income", "paycheck", "salary", "bonus");
  }

  /** The amounts: income counts with whatever it moved, spending with what left. */
  lemma {:induction false} AmountsOf(tax: Taxonomy, t: ApiTransaction)
    ensures InflowAmount(t) == Abs(t.amount)
    ensures IsSpending(tax, t) <==> Left(t) > 0 && !Barred(tax, t)
    ensures IsSpending(tax, t) ==> NetSpending(tax, t) == Left(t) > 0
    ensures IsDepositoryInflow(tax, t) <==> OnCashAccount(t) && Left(t) < 0
  {
    LeftIsMinusDisplay(t);
    BarredIff(tax, t);
  }

  lemma {:induction false} NamesOf(tax: Taxonomy, t: ApiTransaction, c: string, d: Option<string>)
    requires FiledUnder(t, c) && DetailedAs(t, d)
    ensures SourceName(t) == SourceOf(c, d)
    ensures SubcategoryName(tax, t) == SubcategoryOf(c, tax.resolveMajor(c), d)
  {
    FiledIsRaw(t, c);
  }

  /** The flow a transaction is, whatever the code makes of it on the way. */
  function FlowOf(tax: Taxonomy, t: ApiTransaction, c: string, d: Option<string>): Flow {
    if t.pending || t.amount == 0 || Transferred(tax, t, c) then Skipped
    else if NamedIncome(tax, c) || (OnCashAccount(t) && Left(t) < 0) then Inflow(SourceOf(c, d), Abs(t.amount))
    else if Left(t) > 0 && !Barred(tax, t) then
      Outflow(tax.resolveMajor(c), SubcategoryOf(c, tax.resolveMajor(c), d), Left(t))
    else Skipped
  }

  lemma {:induction false} FlowIsAsFiled(tax: Taxonomy, t: ApiTransaction, c: string, d: Option<string>)
    requires FiledUnder(t, c) && DetailedAs(t, d)
    ensures Classify(tax, t) == FlowOf(tax, t, c, d)
  {
    TransferIff(tax, t, c);
    IncomeIff(tax, t, c);
    AmountsOf(tax, t);
    NamesOf(tax, t, c, d);
    FiledIsRaw(t, c);
    LeftIsMinusDisplay(t);
  }

  // ----- what it adds to the sums

  lemma {:induction false} SumOfConcat(a: seq<Flow>, b: seq<Flow>, sel: Selector)
    ensures Sum(a + b, sel) == Sum(a, sel) + Sum(b, sel)
  {
    if b == [] {
      assert a + b == a;
    } else {
      var n := |b| - 1;
      assert (a + b)[..|a| + n] == a + b[..n];
      SumOfConcat(a, b[..n], sel);
    }
  }

  lemma {:induction false} FlowsOfConcat(tax: Taxonomy, a: seq<ApiTransaction>, b: seq<ApiTransaction>)
    ensures Flows(tax, a + b) == Flows(tax, a) + Flows(tax, b)
  {
    var all, parts := Flows(tax, a + b), Flows(tax, a) + Flows(tax, b);
    forall i | 0 <= i < |all|
      ensures all[i] == parts[i]
    {
      assert (a + b)[i] == if i < |a| then a[i] else b[i - |a|];
    }
  }

  lemma {:induction false} SumOfFlows(tax: Taxonomy, a: seq<ApiTransaction>, b: seq<ApiTransaction>, sel: Selector)
    ensures Sum(Flows(tax, a + b), sel) == Sum(Flows(tax, a), sel) + Sum(Flows(tax, b), sel)
  {
    FlowsOfConcat(tax, a, b);
    SumOfConcat(Flows(tax, a), Flows(tax, b), sel);
  }

  lemma {:induction false} SumOfOne(tax: Taxonomy, t: ApiTransaction, sel: Selector)
    ensures Sum(Flows(tax, [t]), sel) == Selected(Classify(tax, t), sel)
  {
    assert Flows(tax, [t]) == [Classify(tax, t)] && [Classify(tax, t)][..0] == [];
  }

  /** Whatever stands before and after it, a transaction adds its flow to every sum. */
  lemma {:induction false} OneTransactionAdds(
    tax: Taxonomy, before: seq<ApiTransaction>, t: ApiTransaction, after: seq<ApiTransaction>,
    c: string, d: Option<string>, sel: Selector)
    requires FiledUnder(t, c) && DetailedAs(t, d)
    ensures Sum(Flows(tax, before + [t] + after), sel)
         == Sum(Flows(tax, before + after), sel) + Selected(FlowOf(tax, t, c, d), sel)
  {
    FlowIsAsFiled(tax, t, c, d);
    SumOfFlows(tax, before + [t], after, sel);
    SumOfFlows(tax, before, [t], sel);
    SumOfFlows(tax, before, after, sel);
    SumOfOne(tax, t, sel);
  }

  /** Settled spending: neither a transfer nor income nor excluded, and money left. */
  predicate SettledSpending(tax: Taxonomy, t: ApiTransaction, c: string) {
    !t.pending && !Transferred(tax, t, c) && !NamedIncome(tax, c) && !Barred(tax, t) && Left(t) > 0
  }

  /** What a spending transaction adds under the category `c`: all of it there and nothing anywhere else. */
  ghost predicate CountsUnder(
    tax: Taxonomy, before: seq<ApiTransaction>, t: ApiTransaction, after: seq<ApiTransaction>, c: string)
  {
    var with, without := Flows(tax, before + [t] + after), Flows(tax, before + after);
    && Sum(with, AllOut) == Sum(without, AllOut) + Left(t) && Sum(with, AllIn) == Sum(without, AllIn)
    && forall k :: Sum(with, Category(k)) == Sum(without, Category(k)) + (if k == tax.resolveMajor(c) then Left(t) else 0)
  }

  lemma {:induction false} DetailOf(t: ApiTransaction) returns (d: Option<string>)
    ensures DetailedAs(t, d)
  {
    d := OrElse(t.customSubcategory, OrElse(t.ruleSubcategory, t.detailed));
  }

  lemma {:induction false} SpendingCountsUnder(
    tax: Taxonomy, before: seq<ApiTransaction>, t: ApiTransaction, after: seq<ApiTransaction>, c: string)
    requires FiledUnder(t, c) && SettledSpending(tax, t, c)
    ensures CountsUnder(tax, before, t, after, c)
  {
    var d := DetailOf(t);
    OneTransactionAdds(tax, before, t, after, c, d, AllOut);
    OneTransactionAdds(tax, before, t, after, c, d, AllIn);
    forall k
      ensures Sum(Flows(tax, before + [t] + after), Category(k))
           == Sum(Flows(tax, before + after), Category(k)) + (if k == tax.resolveMajor(c) then Left(t) else 0)
    {
      OneTransactionAdds(tax, before, t, after, c, d, Category(k));
    }
  }

  /** The user's category wins, whatever the rule and the provider say. */
  lemma {:induction false} UsersCategoryWins(
    tax: Taxonomy, before: seq<ApiTransaction>, t: ApiTransaction, after: seq<ApiTransaction>, c: string)
    requires t.customCategory == Some(c) && SettledSpending(tax, t, c)
    ensures CountsUnder(tax, before, t, after, c)
  {
    SpendingCountsUnder(tax, before, t, after, c);
  }

  lemma {:induction false} RulesCategoryIsNext(
    tax: Taxonomy, before: seq<ApiTransaction>, t: ApiTransaction, after: seq<ApiTransaction>, c: string)
    requires t.customCategory.None? && t.ruleCategory == Some(c) && SettledSpending(tax, t, c)
    ensures CountsUnder(tax, before, t, after, c)
  {
    SpendingCountsUnder(tax, before, t, after, c);
  }

  lemma {:induction false} ProvidersCategoryIsLast(
    tax: Taxonomy, before: seq<ApiTransaction>, t: ApiTransaction, after: seq<ApiTransaction>, c: string)
    requires t.customCategory.None? && t.ruleCategory.None? && t.primary == Some(c) && SettledSpending(tax, t, c)
    ensures CountsUnder(tax, before, t, after, c)
  {
    SpendingCountsUnder(tax, before, t, after, c);
  }

  /** Within its category it counts under its detail, again the user's first, unless that says nothing. */
  lemma {:induction false} SpendingCountsUnderDetail(
    tax: Taxonomy, before: seq<ApiTransaction>, t: ApiTransaction, after: seq<ApiTransaction>,
    c: string, d: Option<string>, k: string, s: string)
    requires FiledUnder(t, c) && DetailedAs(t, d) && SettledSpending(tax, t, c)
    ensures Sum(Flows(tax, before + [t] + after), Subcategory(k, s))
         == Sum(Flows(tax, before + after), Subcategory(k, s))
            + (if k == tax.resolveMajor(c) && s == SubcategoryOf(c, k, d) then Left(t) else 0)
  {
    OneTransactionAdds(tax, before, t, after, c, d, Subcategory(k, s));
  }

  /** Income counts under its detail, or its category when the detail says nothing. */
  lemma {:induction false} IncomeCountsUnderSource(
    tax: Taxonomy, before: seq<ApiTransaction>, t: ApiTransaction, after: seq<ApiTransaction>,
    c: string, d: Option<string>, s: string)
    requires FiledUnder(t, c) && DetailedAs(t, d) && !t.pending && !Transferred(tax, t, c)
    requires NamedIncome(tax, c) || (OnCashAccount(t) && Left(t) < 0)
    ensures Sum(Flows(tax, before + [t] + after), Source(s))
         == Sum(Flows(tax, before + after), Source(s)) + (if s == SourceOf(c, d) then Abs(t.amount) else 0)
    ensures Sum(Flows(tax, before + [t] + after), AllOut) == Sum(Flows(tax, before + after), AllOut)
  {
    OneTransactionAdds(tax, before, t, after, c, d, Source(s));
    OneTransactionAdds(tax, before, t, after, c, d, AllOut);
  }

  /** A transaction that is pending, empty or a transfer adds nothing; nor does what arrives anywhere but on a
      cash account, or leaves under an excluded name, unless its category is named like income. */
  lemma {:induction false} AddsNothingIff(tax: Taxonomy, t: ApiTransaction, c: string)
    requires FiledUnder(t, c)
    ensures Classify(tax, t) == Skipped <==>
            || t.pending || t.amount == 0 || Transferred(tax, t, c)
            || (!NamedIncome(tax, c) && if Left(t) < 0 then !OnCashAccount(t) else Barred(tax, t))
  {
    var d := DetailOf(t);
    FlowIsAsFiled(tax, t, c, d);
    LeftIsMinusDisplay(t);
  }

  /** Money that leaves counts as income, with its absolute value, exactly when its category is named like it. */
  lemma {:induction false} SpendingTakenForIncomeIff(tax: Taxonomy, t: ApiTransaction, c: string)
    requires FiledUnder(t, c) && !t.pending && !Transferred(tax, t, c) && Left(t) > 0
    ensures Classify(tax, t).Inflow? <==> NamedIncome(tax, c)
    ensures Classify(tax, t).Inflow? ==> Classify(tax, t).amount == Left(t)
  {
    var d := DetailOf(t);
    FlowIsAsFiled(tax, t, c, d);
    LeftIsMinusDisplay(t);
  }

  // ----- concrete transactions

  function Expense(primary: string, custom: Option<string>): ApiTransaction {
    ApiTransaction(Date(2024, 1, 1), false, 500, "checking", None, Some(primary), None, custom, None, None, None)
  }

  /** Every category is its own major one and none is excluded. */
  function PlainNames(): Taxonomy {
    Taxonomy(c => c, c => false)
  }

  lemma {:induction false} ShortNameIsPlain(c: string)
    requires |c| <= 4
    ensures !NamedIncome(PlainNames(), c)
    ensures Lower(PlainNames().resolveMajor(c)) != "transfer"
  {
    MentionsFour(c, "income", "paycheck", "salary", "bonus");
    assert |"income"| == 6 && |"paycheck"| == 8 && |"salary"| == 6 && |"bonus"| == 5 && |"transfer"| == 8;
    assert |"earned income"| == 13 && |"tax refund"| == 10;
  }

  lemma {:induction false} ExpenseIsSpending(primary: string, custom: Option<string>, c: string)
    requires FiledUnder(Expense(primary, custom), c) && |c| <= 4
    ensures SettledSpending(PlainNames(), Expense(primary, custom), c) && Left(Expense(primary, custom)) == 500
  {
    ShortNameIsPlain(c);
    assert |Lower("checking")| == 8 && |"credit"| == 6 && |"credit card"| == 11;
  }

  lemma {:induction false} AloneItCounts(tax: Taxonomy, t: ApiTransaction, c: string, k: string)
    requires t.customCategory == Some(c) && SettledSpending(tax, t, c)
    ensures Sum(Flows(tax, [t]), Category(k)) == if k == tax.resolveMajor(c) then Left(t) else 0
  {
    UsersCategoryWins(tax, [], t, [], c);
    assert [] + [t] + [] == [t] && Flows(tax, []) == [];
  }

  /** The provider says Food and the user Trip: 5.00 under Trip. */
  lemma {:induction false} FoodFiledAsTrip()
    ensures Sum(Flows(PlainNames(), [Expense("Food", Some("Trip"))]), Category("Trip")) == 500
    ensures Sum(Flows(PlainNames(), [Expense("Food", Some("Trip"))]), Category("Food")) == 0
  {
    ExpenseIsSpending("Food", Some("Trip"), "Trip");
    AloneItCounts(PlainNames(), Expense("Food", Some("Trip")), "Trip", "Trip");
    AloneItCounts(PlainNames(), Expense("Food", Some("Trip")), "Trip", "Food");
    assert "Trip"[0] != "Food"[0];
  }

  lemma {:induction false} IncomeTaxMentionsIncome()
    ensures Contains("income tax", "income") && Lower("income tax") == "income tax"
  {
    LowerOfLowerCase("income tax");
    assert OccursAt("income tax", "income", 0);
  }

  lemma {:induction false} IncomeTaxIsNamedIncome()
    ensures NamedIncome(PlainNames(), "income tax") && Lower("income tax") != "transfer"
  {
    IncomeTaxMentionsIncome();
    assert "income" in ["income", "paycheck", "salary", "bonus"];
    assert |"income tax"| == 10 && |"transfer"| == 8;
  }

  /** A payment of income tax counts as income. */
  lemma {:induction false} TaxTakenForIncome()
    ensures Selected(Classify(PlainNames(), Expense("income tax", None)), AllIn) == 500
  {
    IncomeTaxIsNamedIncome();
    SpendingTakenForIncomeIff(PlainNames(), Expense("income tax", None), "income tax");
  }
}
