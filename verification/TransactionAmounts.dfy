/** `frontend/src/utils/transactionAmounts.ts`: signs of amounts, in whole cents. */
module TransactionAmounts {
  import opened Prelude
  import opened Text
  import opened Calendar

  /** A transaction as the API delivers it. */
  datatype ApiTransaction = ApiTransaction(
    date: ValidDate,
    pending: bool,
    amount: int,
    accountType: string,
    provider: Option<string>,
    primary: Option<string>,
    detailed: Option<string>,
    customCategory: Option<string>,
    customSubcategory: Option<string>,
    ruleCategory: Option<string>,
    ruleSubcategory: Option<string>)

  /** The two lookups of `categories.ts` that only classify: any total functions will do. */
  datatype Taxonomy = Taxonomy(resolveMajor: string -> string, excluded: string -> bool)

  /** `a`, or `b` when `a` is missing. */
  function OrElse<T>(a: Option<T>, b: Option<T>): Option<T> {
    if a.Some? then a else b
  }

  function OrEmpty(a: Option<string>): string {
    if a.Some? then a.value else ""
  }

  predicate IsCredit(t: ApiTransaction) {
    var kind := Lower(t.accountType);
    kind == "credit" || kind == "credit card"
  }

  /** Money in is positive. */
  function DisplayAmount(t: ApiTransaction): int {
    if t.provider == Some("teller") && IsCredit(t) then t.amount else -t.amount
  }

  predicate Excludes(tax: Taxonomy, category: Option<string>) {
    category.Some? && category.value != "" && tax.excluded(category.value)
  }

  predicate CategoryExcluded(tax: Taxonomy, t: ApiTransaction) {
    || Excludes(tax, t.primary) || Excludes(tax, t.detailed)
    || Excludes(tax, t.customCategory) || Excludes(tax, t.ruleCategory)
    || (IsCredit(t) && Lower(Alphanumeric(OrEmpty(t.primary))) == "loanpayments")
  }

  function NetSpending(tax: Taxonomy, t: ApiTransaction): int {
    if CategoryExcluded(tax, t) then 0
    else if !IsCredit(t) then (if DisplayAmount(t) >= 0 then 0 else -DisplayAmount(t))
    else -DisplayAmount(t)
  }

  predicate IsSpending(tax: Taxonomy, t: ApiTransaction) {
    DisplayAmount(t) < 0 && !CategoryExcluded(tax, t)
  }

  // ----- the same, from the fields alone

  /** What left the account; negative for what arrived. */
  function Left(t: ApiTransaction): int {
    if t.provider == Some("teller") && Lower(t.accountType) in ["credit", "credit card"] then -t.amount else t.amount
  }

  /** One of its category names is excluded from spending, or it is the payment of a card. */
  predicate Barred(tax: Taxonomy, t: ApiTransaction) {
    || (exists name :: name in [t.primary, t.detailed, t.customCategory, t.ruleCategory] &&
          name.Some? && name.value != "" && tax.excluded(name.value))
    || (Lower(t.accountType) in ["credit", "credit card"] && MerchantKey(t.primary) == "loanpayments")
  }

  lemma {:induction false} BarredIff(tax: Taxonomy, t: ApiTransaction)
    ensures CategoryExcluded(tax, t) <==> Barred(tax, t)
  {
    var names := [t.primary, t.detailed, t.customCategory, t.ruleCategory];
    assert t.primary in names && t.detailed in names && t.customCategory in names && t.ruleCategory in names;
  }

  lemma {:induction false} LeftIsMinusDisplay(t: ApiTransaction)
    ensures DisplayAmount(t) == -Left(t) && Abs(Left(t)) == Abs(t.amount)
  {
  }

  /** Spending is what left, under none of the excluded names; only on a card does what arrives count against it. */
  lemma {:induction false} NetSpendingByFields(tax: Taxonomy, t: ApiTransaction)
    ensures NetSpending(tax, t)
         == if Barred(tax, t) then 0
            else if Lower(t.accountType) in ["credit", "credit card"] then Left(t)
            else if Left(t) > 0 then Left(t) else 0
    ensures IsSpending(tax, t) <==> Left(t) > 0 && !Barred(tax, t)
  {
    BarredIff(tax, t);
    LeftIsMinusDisplay(t);
  }
}
