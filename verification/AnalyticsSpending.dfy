/** What one transaction adds to the aggregates of the analytics service, in terms of its own fields. */
module AnalyticsSpending {
  import opened Prelude
  import opened Text
  import opened Calendar
  import opened Analytics

  /** The name a transaction is filed under: the user's or, where the user gave none, a rule's, unless it is
      empty; then the provider's, or Shopping when that is empty, too. */
  predicate FiledUnder(t: Transaction, c: string) {
    var provided := if t.primary != "" then t.primary else "Shopping";
    match t.customCategory
    case Some(custom) => c == if custom != "" then custom else provided
    case None =>
      match t.ruleCategory
      case Some(rule) => c == if rule != "" then rule else provided
      case None => c == provided
  }

  predicate IsCard(t: Transaction) {
    Lower(t.accountType) in ["credit", "credit card"]
  }

  /** Pending, moved between own accounts, income, or the payment of a card. The major category is resolved once
      more before it is compared. */
  predicate Uncounted(tax: Taxonomy, t: Transaction, c: string) {
    || t.pending || (IsCard(t) && tax.normalizeKey(t.primary) == "loanpayments")
    || tax.resolveMajor(tax.resolveMajor(c)) in ["Transfer", "Tax Refund", "Earned Income"]
    || tax.resolveMajor(t.detailed) in ["Transfer", "Tax Refund", "Earned Income"]
  }

  /** Spending is positive; only on a card does what arrives count against it, and Teller reports cards of type
      "credit" with the opposite sign. */
  function Amount(tax: Taxonomy, t: Transaction, c: string): int {
    if Uncounted(tax, t, c) then 0
    else if !IsCard(t) then (if t.amount > 0 then t.amount else 0)
    else if t.provider == Some("teller") && Lower(t.accountType) == "credit" then -t.amount
    else t.amount
  }

  function MerchantOf(t: Transaction): string {
    match t.merchant
    case Some(name) => name
    case None => "Unknown Merchant"
  }

  lemma {:induction false} FiledIsEffective(tax: Taxonomy, t: Transaction, c: string)
    requires FiledUnder(t, c)
    ensures EffectiveCategory(tax, t) == tax.resolveMajor(c)
  {
  }

  lemma {:induction false} CardKinds(kind: string)
    requires kind == "credit" || kind == "credit card"
    ensures kind != "depository" && kind != "checking" && kind != "savings"
  {
    assert |kind| == 6 || |kind| == 11;
    assert |"credit"| == 6 && |"credit card"| == 11 && |"depository"| == 10 && |"checking"| == 8 && |"savings"| == 7;
  }

  lemma {:induction false} AmountIsSpending(tax: Taxonomy, t: Transaction, c: string)
    requires FiledUnder(t, c)
    ensures SpendingAmount(tax, t) == Amount(tax, t, c)
  {
    FiledIsEffective(tax, t, c);
    if IsCard(t) {
      CardKinds(Lower(t.accountType));
    }
  }

  // ----- what it adds

  lemma {:induction false} SumOfConcat(a: seq<Spend>, b: seq<Spend>, w: Window, f: Filter)
    ensures Sum(a + b, w, f) == Sum(a, w, f) + Sum(b, w, f)
  {
    if b == [] {
      assert a + b == a;
    } else {
      var n := |b| - 1;
      SumOfConcat(a, b[..n], w, f);
      assert (a + b)[..|a| + n] == a + b[..n];
    }
  }

  lemma {:induction false} SpendsAroundOne(
    tax: Taxonomy, before: seq<Transaction>, t: Transaction, after: seq<Transaction>)
    ensures Spends(tax, before + [t] + after) == Spends(tax, before) + [SpendOf(tax, t)] + Spends(tax, after)
    ensures Spends(tax, before + after) == Spends(tax, before) + Spends(tax, after)
  {
    SpendsOfConcat(tax, before, after);
    SpendsOfConcat(tax, before, [t]);
    SpendsOfConcat(tax, before + [t], after);
    assert Spends(tax, [t]) == [SpendOf(tax, t)];
  }

  lemma {:induction false} SpendsOfConcat(tax: Taxonomy, a: seq<Transaction>, b: seq<Transaction>)
    ensures Spends(tax, a + b) == Spends(tax, a) + Spends(tax, b)
  {
    var all, parts := Spends(tax, a + b), Spends(tax, a) + Spends(tax, b);
    forall i | 0 <= i < |all|
      ensures all[i] == parts[i]
    {
      assert (a + b)[i] == if i < |a| then a[i] else b[i - |a|];
    }
  }

  lemma {:induction false} SumAroundOne(a: seq<Spend>, s: Spend, b: seq<Spend>, w: Window, f: Filter)
    ensures Sum(a + [s] + b, w, f) == Sum(a + b, w, f) + (if Passes(s, w, f) then s.amount else 0)
  {
    SumOfConcat(a + [s], b, w, f);
    SumOfConcat(a, b, w, f);
    SumGrows(a, s, w, f);
  }

  predicate Asked(tax: Taxonomy, t: Transaction, c: string, f: Filter) {
    match f
    case Everything => true
    case OfCategory(name) => name == tax.resolveMajor(c)
    case OfMerchant(name) => name == MerchantOf(t)
  }

  /** Whatever stands before and after it, a transaction adds its amount to the total, to one category and to
      one merchant, in the windows its day lies in. */
  lemma {:induction false} OneTransactionAdds(
    tax: Taxonomy, before: seq<Transaction>, t: Transaction, after: seq<Transaction>, c: string, w: Window, f: Filter)
    requires FiledUnder(t, c)
    ensures Sum(Spends(tax, before + [t] + after), w, f)
         == Sum(Spends(tax, before + after), w, f)
            + (if InWindow(w, t.date) && Asked(tax, t, c, f) then Amount(tax, t, c) else 0)
  {
    SpendsAroundOne(tax, before, t, after);
    SumAroundOne(Spends(tax, before), SpendOf(tax, t), Spends(tax, after), w, f);
    FiledIsEffective(tax, t, c);
    AmountIsSpending(tax, t, c);
  }

  /** The windows, by day: with both bounds the days from the one to the other; a single bound counts for the
      monthly cells and is ignored by everything else. */
  lemma {:induction false} WindowsByDay(start: Option<Date>, end: Option<Date>, d: Date)
    requires Valid(d) && (start.Some? ==> Valid(start.value)) && (end.Some? ==> Valid(end.value))
    ensures InWindow(Separately(start, end), d) <==>
            && (start.Some? ==> DayNumber(start.value) <= DayNumber(d)) && (end.Some? ==> DayNumber(d) <= DayNumber(end.value))
    ensures InWindow(Together(start, end), d) <==>
            start.None? || end.None? || DayNumber(start.value) <= DayNumber(d) <= DayNumber(end.value)
  {
    if start.Some? {
      OrderIsDayOrder(d, start.value);
    }
    if end.Some? {
      OrderIsDayOrder(end.value, d);
    }
  }

  /** The user's category decides, whatever the rule and the provider say: all of the amount goes there. */
  lemma {:induction false} UsersCategoryWins(
    tax: Taxonomy, before: seq<Transaction>, t: Transaction, after: seq<Transaction>, c: string, w: Window, k: string)
    requires t.customCategory == Some(c) && c != "" && InWindow(w, t.date)
    ensures Sum(Spends(tax, before + [t] + after), w, OfCategory(k))
         == Sum(Spends(tax, before + after), w, OfCategory(k)) + (if k == tax.resolveMajor(c) then Amount(tax, t, c) else 0)
  {
    OneTransactionAdds(tax, before, t, after, c, w, OfCategory(k));
  }

  /** A category of the user that is empty hides the rule's: the provider's is back. */
  lemma {:induction false} EmptyChoiceHidesRule(tax: Taxonomy, t: Transaction, rule: string)
    requires t.customCategory == Some("") && t.ruleCategory == Some(rule)
    ensures EffectiveCategory(tax, t) == tax.resolveMajor(if t.primary == "" then "Shopping" else t.primary)
  {
    FiledIsEffective(tax, t, if t.primary == "" then "Shopping" else t.primary);
  }
}
