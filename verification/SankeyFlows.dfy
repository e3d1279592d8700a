/** First half of `SankeyCalculator`: which flow each transaction is, the running maps, and the
    folding of minor subcategories. */
module SankeyFlows {
  import opened Prelude
  import opened Text
  import opened CategoryNames
  import opened TransactionAmounts
  import opened OrderedTally

  datatype Flow =
    | Skipped
    | Inflow(source: string, amount: int)
    | Outflow(category: string, subcategory: string, amount: int)

  function RawCategory(t: ApiTransaction): string {
    OrEmpty(OrElse(t.customCategory, OrElse(t.ruleCategory, t.primary)))
  }

  /** Transfers between own accounts and card payments are no flow at all. */
  predicate IsTransfer(tax: Taxonomy, t: ApiTransaction) {
    || Lower(tax.resolveMajor(RawCategory(t))) == "transfer"
    || (t.detailed.Some? && (Contains(Lower(t.detailed.value), "credit card payment")
                             || Contains(Lower(t.detailed.value), "cash spending transfer")))
  }

  predicate IsIncome(tax: Taxonomy, t: ApiTransaction) {
    var raw, major := Lower(RawCategory(t)), Lower(tax.resolveMajor(RawCategory(t)));
    || major == "earned income" || major == "tax refund"
    || Contains(raw, "income") || Contains(raw, "paycheck") || Contains(raw, "salary") || Contains(raw, "bonus")
  }

  predicate IsDepositoryInflow(tax: Taxonomy, t: ApiTransaction) {
    var kind := Lower(t.accountType);
    (kind == "depository" || kind == "checking" || kind == "savings") && DisplayAmount(t) > 0 && !IsSpending(tax, t)
  }

  function InflowAmount(t: ApiTransaction): int {
    Abs(if DisplayAmount(t) > 0 then DisplayAmount(t) else t.amount)
  }

  function SourceName(t: ApiTransaction): string {
    var detailed := OrEmpty(OrElse(t.customSubcategory, OrElse(t.ruleSubcategory, t.detailed)));
    FormatCategoryName(
      if detailed != "" && Lower(detailed) != "other" then detailed
      else if RawCategory(t) != "" then RawCategory(t) else "Paycheck")
  }

  predicate IsGeneric(sub: string, category: string) {
    var s := Lower(Trim(sub));
    || sub == "" || s == "other" || s == "general" || s == "uncategorized" || s == Lower(Trim(category))
    || "other " <= s || "general " <= s
  }

  function SubcategoryName(tax: Taxonomy, t: ApiTransaction): string {
    var sub := OrElse(t.customSubcategory, OrElse(t.ruleSubcategory, OrElse(t.detailed, Some(RawCategory(t))))).value;
    var category := tax.resolveMajor(RawCategory(t));
    FormatCategoryName(if IsGeneric(sub, category) then category else sub)
  }

  /** The branches of the accumulation loop. */
  function Classify(tax: Taxonomy, t: ApiTransaction): Flow {
    if t.pending || IsTransfer(tax, t) then Skipped
    else if (IsIncome(tax, t) || IsDepositoryInflow(tax, t)) && InflowAmount(t) > 0 then
      Inflow(SourceName(t), InflowAmount(t))
    else if IsSpending(tax, t) && NetSpending(tax, t) > 0 then
      Outflow(tax.resolveMajor(RawCategory(t)), SubcategoryName(tax, t), NetSpending(tax, t))
    else Skipped
  }

  /** Apart from transfers and income, the outflow of a settled transaction is its net spending with
      refunds left out: a negative net amount never reduces a category here. */
  lemma {:induction false} OutflowIsGrossSpending(tax: Taxonomy, t: ApiTransaction)
    requires !t.pending && !IsTransfer(tax, t) && !IsIncome(tax, t) && !IsDepositoryInflow(tax, t)
    ensures Selected(Classify(tax, t), AllOut) == Max(0, NetSpending(tax, t))
    ensures NetSpending(tax, t) > 0 <==> IsSpending(tax, t)
  {
  }

  /** Which flows a sum ranges over. */
  datatype Selector =
    | AllIn | Source(name: string)
    | AllOut | Category(name: string) | Subcategory(category: string, name: string)

  function Selected(flow: Flow, sel: Selector): int {
    match sel
    case AllIn => if flow.Inflow? then flow.amount else 0
    case Source(s) => if flow.Inflow? && flow.source == s then flow.amount else 0
    case AllOut => if flow.Outflow? then flow.amount else 0
    case Category(c) => if flow.Outflow? && flow.category == c then flow.amount else 0
    case Subcategory(c, s) => if flow.Outflow? && flow.category == c && flow.subcategory == s then flow.amount else 0
  }

  function Flows(tax: Taxonomy, txns: seq<ApiTransaction>): seq<Flow> {
    seq(|txns|, i requires 0 <= i < |txns| => Classify(tax, txns[i]))
  }

  /** The independent meaning of every total: a plain sum over the classified transactions. */
  function Sum(flows: seq<Flow>, sel: Selector): int {
    if flows == [] then 0
    else Sum(flows[..|flows| - 1], sel) + Selected(flows[|flows| - 1], sel)
  }

  /** A name `formatCategoryName` can produce. */
  predicate Formatted(name: string) {
    '_' !in name && name != "Other"
  }

  predicate WellFormed(flow: Flow) {
    match flow
    case Skipped => true
    case Inflow(source, amount) => amount > 0 && Formatted(source)
    case Outflow(_, sub, amount) => amount > 0 && Formatted(sub)
  }

  lemma {:induction false} ClassifiedIsWellFormed(tax: Taxonomy, t: ApiTransaction)
    ensures WellFormed(Classify(tax, t))
  {
    var detailed := OrEmpty(OrElse(t.customSubcategory, OrElse(t.ruleSubcategory, t.detailed)));
    FormattedNameIsReserved(
      if detailed != "" && Lower(detailed) != "other" then detailed
      else if RawCategory(t) != "" then RawCategory(t) else "Paycheck");
    var sub := OrElse(t.customSubcategory, OrElse(t.ruleSubcategory, OrElse(t.detailed, Some(RawCategory(t))))).value;
    var category := tax.resolveMajor(RawCategory(t));
    FormattedNameIsReserved(if IsGeneric(sub, category) then category else sub);
  }

  predicate AllPositive(t: Tally<string>) {
    forall i :: 0 <= i < |t| ==> t[i].1 > 0
  }

  predicate AllFormatted(t: Tally<string>) {
    forall i :: 0 <= i < |t| ==> Formatted(t[i].0)
  }

  datatype Accumulated = Accumulated(
    inflow: Tally<string>, outflow: Tally<string>, subcategories: map<string, Tally<string>>, totalIn: int, totalOut: int)

  ghost predicate InflowTallied(flows: seq<Flow>, a: Accumulated) {
    && Distinct(a.inflow) && AllPositive(a.inflow) && AllFormatted(a.inflow)
    && Total(a.inflow) == a.totalIn == Sum(flows, AllIn)
    && forall s :: Get(a.inflow, s) == Sum(flows, Source(s))
  }

  ghost predicate OutflowTallied(flows: seq<Flow>, a: Accumulated) {
    && Distinct(a.outflow) && AllPositive(a.outflow)
    && Total(a.outflow) == a.totalOut == Sum(flows, AllOut)
    && (forall c :: Get(a.outflow, c) == Sum(flows, Category(c)))
    && (forall c :: Has(a.outflow, c) <==> c in a.subcategories)
  }

  ghost predicate SubcategoryTallied(flows: seq<Flow>, c: string, subs: Tally<string>) {
    && Distinct(subs) && AllPositive(subs) && AllFormatted(subs)
    && Total(subs) == Sum(flows, Category(c))
    && forall s :: Get(subs, s) == Sum(flows, Subcategory(c, s))
  }

  ghost predicate SubcategoriesTallied(flows: seq<Flow>, subcategories: map<string, Tally<string>>) {
    forall c :: c in subcategories ==> SubcategoryTallied(flows, c, subcategories[c])
  }

  ghost predicate Tallied(flows: seq<Flow>, a: Accumulated) {
    && InflowTallied(flows, a) && OutflowTallied(flows, a) && SubcategoriesTallied(flows, a.subcategories)
  }

  lemma {:induction false} AddKeepsPositive(t: Tally<string>, k: string, v: int)
    requires AllPositive(t) && v > 0
    ensures AllPositive(Add(t, k, v))
  {
    if t != [] && t[0].0 != k {
      AddKeepsPositive(t[1..], k, v);
    }
  }

  lemma {:induction false} AddKeepsFormatted(t: Tally<string>, k: string, v: int)
    requires AllFormatted(t) && Formatted(k)
    ensures AllFormatted(Add(t, k, v))
  {
  }

  lemma {:induction false} SubcategoryWithinCategory(flows: seq<Flow>, c: string, s: string)
    requires forall flow :: flow in flows ==> WellFormed(flow)
    ensures 0 <= Sum(flows, Subcategory(c, s)) <= Sum(flows, Category(c))
  {
    if flows != [] {
      SubcategoryWithinCategory(flows[..|flows| - 1], c, s);
      assert WellFormed(flows[|flows| - 1]);
    }
  }

  /** One more inflow: the map entry, the running total and nothing else. */
  lemma {:induction false} InflowStep(flows: seq<Flow>, a: Accumulated, b: Accumulated, source: string, amount: int)
    requires Tallied(flows, a) && amount > 0 && Formatted(source)
    requires b == a.(inflow := Add(a.inflow, source, amount), totalIn := a.totalIn + amount)
    ensures Tallied(flows + [Inflow(source, amount)], b)
  {
    var more := flows + [Inflow(source, amount)];
    SumGrows(flows, Inflow(source, amount));
    AddKeepsDistinct(a.inflow, source, amount);
    AddKeepsPositive(a.inflow, source, amount);
    AddKeepsFormatted(a.inflow, source, amount);
    forall s
      ensures Get(b.inflow, s) == Sum(more, Source(s))
    {
      AddAt(a.inflow, source, amount, s);
    }
    assert InflowTallied(more, b);
    assert OutflowTallied(more, b);
    forall c | c in b.subcategories
      ensures SubcategoryTallied(more, c, b.subcategories[c])
    {
      assert SubcategoryTallied(flows, c, a.subcategories[c]);
    }
  }

  lemma {:induction false} SumGrows(flows: seq<Flow>, flow: Flow)
    ensures forall sel :: Sum(flows + [flow], sel) == Sum(flows, sel) + Selected(flow, sel)
  {
  }

  lemma {:induction false} SkippedStep(flows: seq<Flow>, a: Accumulated)
    requires Tallied(flows, a)
    ensures Tallied(flows + [Skipped], a)
  {
  }

  lemma {:induction false} CategoryStep(
    flows: seq<Flow>, a: Accumulated, b: Accumulated, c: string, sub: string, v: int)
    requires OutflowTallied(flows, a) && v > 0
    requires b.outflow == Add(a.outflow, c, v) && b.totalOut == a.totalOut + v
    requires b.subcategories.Keys == a.subcategories.Keys + {c}
    ensures OutflowTallied(flows + [Outflow(c, sub, v)], b)
  {
    SumGrows(flows, Outflow(c, sub, v));
    AddKeepsDistinct(a.outflow, c, v);
    AddKeepsPositive(a.outflow, c, v);
    CategorySums(flows, a.outflow, c, sub, v);
    CategoryKeys(a.outflow, a.subcategories.Keys, c, v);
  }

  lemma {:induction false} CategorySums(flows: seq<Flow>, outflow: Tally<string>, c: string, sub: string, v: int)
    requires forall k :: Get(outflow, k) == Sum(flows, Category(k))
    ensures forall k :: Get(Add(outflow, c, v), k) == Sum(flows + [Outflow(c, sub, v)], Category(k))
  {
    SumGrows(flows, Outflow(c, sub, v));
    forall k
      ensures Get(Add(outflow, c, v), k) == Sum(flows + [Outflow(c, sub, v)], Category(k))
    {
      AddAt(outflow, c, v, k);
    }
  }

  lemma {:induction false} CategoryKeys(outflow: Tally<string>, keys: set<string>, c: string, v: int)
    requires forall k :: Has(outflow, k) <==> k in keys
    ensures forall k :: Has(Add(outflow, c, v), k) <==> k in keys + {c}
  {
    forall k
      ensures Has(Add(outflow, c, v), k) <==> k in keys + {c}
    {
      AddHas(outflow, c, v, k);
    }
  }

  lemma {:induction false} SubcategoryStep(flows: seq<Flow>, c: string, subs: Tally<string>, sub: string, v: int)
    requires SubcategoryTallied(flows, c, subs) && v > 0 && Formatted(sub)
    ensures SubcategoryTallied(flows + [Outflow(c, sub, v)], c, Add(subs, sub, v))
  {
    SumGrows(flows, Outflow(c, sub, v));
    AddKeepsDistinct(subs, sub, v);
    AddKeepsPositive(subs, sub, v);
    AddKeepsFormatted(subs, sub, v);
    forall s
      ensures Get(Add(subs, sub, v), s) == Sum(flows + [Outflow(c, sub, v)], Subcategory(c, s))
    {
      AddAt(subs, sub, v, s);
    }
  }

  /** A category without an entry has received nothing so far. */
  lemma {:induction false} UnseenCategory(flows: seq<Flow>, a: Accumulated, c: string)
    requires OutflowTallied(flows, a) && c !in a.subcategories
    requires forall flow :: flow in flows ==> WellFormed(flow)
    ensures SubcategoryTallied(flows, c, [])
  {
    GetAbsent(a.outflow, c);
    forall s
      ensures Sum(flows, Subcategory(c, s)) == 0
    {
      SubcategoryWithinCategory(flows, c, s);
    }
  }

  lemma {:induction false} SubcategoriesStep(flows: seq<Flow>, a: Accumulated, c: string, sub: string, v: int)
    requires OutflowTallied(flows, a) && SubcategoriesTallied(flows, a.subcategories) && v > 0 && Formatted(sub)
    requires forall flow :: flow in flows ==> WellFormed(flow)
    ensures SubcategoriesTallied(
              flows + [Outflow(c, sub, v)],
              a.subcategories[c := Add(if c in a.subcategories then a.subcategories[c] else [], sub, v)])
  {
    if c !in a.subcategories {
      UnseenCategory(flows, a, c);
    }
    SubcategoryStep(flows, c, if c in a.subcategories then a.subcategories[c] else [], sub, v);
    forall k | k in a.subcategories && k != c
      ensures SubcategoryTallied(flows + [Outflow(c, sub, v)], k, a.subcategories[k])
    {
      OtherCategoryStep(flows, Outflow(c, sub, v), k, a.subcategories[k]);
    }
  }

  lemma {:induction false} OutflowStep(flows: seq<Flow>, a: Accumulated, b: Accumulated, c: string, sub: string, v: int)
    requires Tallied(flows, a) && v > 0 && Formatted(sub)
    requires forall flow :: flow in flows ==> WellFormed(flow)
    requires b == a.(
      outflow := Add(a.outflow, c, v),
      subcategories := a.subcategories[c := Add(if c in a.subcategories then a.subcategories[c] else [], sub, v)],
      totalOut := a.totalOut + v)
    ensures Tallied(flows + [Outflow(c, sub, v)], b)
  {
    CategoryStep(flows, a, b, c, sub, v);
    SubcategoriesStep(flows, a, c, sub, v);
    InflowUntouched(flows, a, b, Outflow(c, sub, v));
  }

  lemma {:induction false} OtherCategoryStep(flows: seq<Flow>, flow: Flow, k: string, subs: Tally<string>)
    requires SubcategoryTallied(flows, k, subs) && flow.Outflow? && flow.category != k
    ensures SubcategoryTallied(flows + [flow], k, subs)
  {
  }

  lemma {:induction false} InflowUntouched(flows: seq<Flow>, a: Accumulated, b: Accumulated, flow: Flow)
    requires InflowTallied(flows, a) && flow.Outflow? && b.inflow == a.inflow && b.totalIn == a.totalIn
    ensures InflowTallied(flows + [flow], b)
  {
  }

  lemma {:induction false} FlowsWellFormed(tax: Taxonomy, txns: seq<ApiTransaction>)
    ensures forall flow :: flow in Flows(tax, txns) ==> WellFormed(flow)
  {
    forall i | 0 <= i < |txns|
      ensures WellFormed(Flows(tax, txns)[i])
    {
      ClassifiedIsWellFormed(tax, txns[i]);
    }
  }

  /** What one more flow does to the maps and totals. */
  function Next(a: Accumulated, flow: Flow): Accumulated {
    match flow
    case Skipped => a
    case Inflow(source, amount) => a.(inflow := Add(a.inflow, source, amount), totalIn := a.totalIn + amount)
    case Outflow(c, sub, v) =>
      a.(outflow := Add(a.outflow, c, v),
         subcategories := a.subcategories[c := Add(if c in a.subcategories then a.subcategories[c] else [], sub, v)],
         totalOut := a.totalOut + v)
  }

  lemma {:induction false} FlowStep(flows: seq<Flow>, a: Accumulated, flow: Flow)
    requires Tallied(flows, a) && WellFormed(flow) && forall f :: f in flows ==> WellFormed(f)
    ensures Tallied(flows + [flow], Next(a, flow))
  {
    match flow
    case Skipped => SkippedStep(flows, a);
    case Inflow(source, amount) => InflowStep(flows, a, Next(a, flow), source, amount);
    case Outflow(c, sub, v) => OutflowStep(flows, a, Next(a, flow), c, sub, v);
  }

  function Accumulation(flows: seq<Flow>): Accumulated {
    if flows == [] then Accumulated([], [], map[], 0, 0)
    else Next(Accumulation(flows[..|flows| - 1]), flows[|flows| - 1])
  }

  lemma {:induction false} AccumulationIsTallied(flows: seq<Flow>)
    requires forall flow :: flow in flows ==> WellFormed(flow)
    ensures Tallied(flows, Accumulation(flows))
  {
    if flows != [] {
      var n := |flows| - 1;
      AccumulationIsTallied(flows[..n]);
      FlowStep(flows[..n], Accumulation(flows[..n]), flows[n]);
      assert flows == flows[..n] + [flows[n]];
    }
  }

  /** The accumulation loop of `computeSankeyData`, over the classified transactions. */
  method AccumulateFlows(flows: seq<Flow>) returns (a: Accumulated)
    requires forall flow :: flow in flows ==> WellFormed(flow)
    ensures Tallied(flows, a)
  {
    var inflowBySource, outflowByCategory: Tally<string> := [], [];
    var subcategories: map<string, Tally<string>> := map[];
    var totalInflow, totalOutflow := 0, 0;
    for i := 0 to |flows|
      invariant Accumulated(inflowBySource, outflowByCategory, subcategories, totalInflow, totalOutflow)
             == Accumulation(flows[..i])
    {
      assert flows[..i + 1][..i] == flows[..i];
      match flows[i] {
        case Skipped =>
        case Inflow(source, amount) =>
          inflowBySource := Add(inflowBySource, source, amount);
          totalInflow := totalInflow + amount;
        case Outflow(category, sub, amount) =>
          var entry := if category in subcategories then subcategories[category] else [];
          outflowByCategory := Add(outflowByCategory, category, amount);
          subcategories := subcategories[category := Add(entry, sub, amount)];
          totalOutflow := totalOutflow + amount;
      }
    }
    assert flows[..|flows|] == flows;
    a := Accumulated(inflowBySource, outflowByCategory, subcategories, totalInflow, totalOutflow);
    AccumulationIsTallied(flows);
  }

  // ----- groupMinorSubcategories

  const MINOR_CENTS := 3000
  const MINOR_SHARE := 20

  /** Under 30 currency units and under 5% of the category. */
  predicate IsMinor(amount: int, categoryTotal: int) {
    amount < MINOR_CENTS && (categoryTotal > 0 ==> amount * MINOR_SHARE < categoryTotal)
  }

  function Kept(subs: Tally<string>, categoryTotal: int): (r: Tally<string>)
    ensures |r| <= |subs|
  {
    if subs == [] then []
    else
      var n := |subs| - 1;
      Kept(subs[..n], categoryTotal) + (if IsMinor(subs[n].1, categoryTotal) then [] else [subs[n]])
  }

  lemma {:induction false} KeptWithin(subs: Tally<string>, categoryTotal: int, e: (string, int))
    ensures e in Kept(subs, categoryTotal) <==> e in subs && !IsMinor(e.1, categoryTotal)
  {
    if subs != [] {
      var n := |subs| - 1;
      KeptWithin(subs[..n], categoryTotal, e);
      assert e in subs <==> e in subs[..n] || e == subs[n];
    }
  }

  lemma {:induction false} KeptStaysDistinct(subs: Tally<string>, categoryTotal: int)
    requires Distinct(subs)
    ensures Distinct(Kept(subs, categoryTotal))
  {
    if subs != [] {
      var n := |subs| - 1;
      KeptStaysDistinct(subs[..n], categoryTotal);
      var kept := Kept(subs[..n], categoryTotal);
      forall i | 0 <= i < |kept|
        ensures kept[i].0 != subs[n].0
      {
        KeptWithin(subs[..n], categoryTotal, kept[i]);
      }
    }
  }

  lemma {:induction false} FoldedEntries(kept: Tally<string>, other: int)
    requires AllPositive(kept) && other > 0
    ensures AllPositive(kept + [("Other", other)])
    ensures Distinct(kept) && AllFormatted(kept) ==>
              Distinct(kept + [("Other", other)]) && NoUnderscore(kept + [("Other", other)])
  {
  }

  lemma {:induction false} KeptEntries(subs: Tally<string>, categoryTotal: int)
    requires AllPositive(subs)
    ensures AllPositive(Kept(subs, categoryTotal))
    ensures AllFormatted(subs) ==> AllFormatted(Kept(subs, categoryTotal))
    ensures Distinct(subs) ==> Distinct(Kept(subs, categoryTotal))
  {
    var kept := Kept(subs, categoryTotal);
    forall i | 0 <= i < |kept|
      ensures kept[i].1 > 0
      ensures AllFormatted(subs) ==> Formatted(kept[i].0)
    {
      KeptWithin(subs, categoryTotal, kept[i]);
      assert kept[i] in subs;
    }
    if Distinct(subs) {
      KeptStaysDistinct(subs, categoryTotal);
    }
  }

  predicate NoUnderscore(t: Tally<string>) {
    forall i :: 0 <= i < |t| ==> '_' !in t[i].0
  }

  lemma {:induction false} SortKeepsEntries(t: Tally<string>)
    ensures AllPositive(t) ==> AllPositive(SortDescending(t))
    ensures NoUnderscore(t) ==> NoUnderscore(SortDescending(t))
  {
    var sorted := SortDescending(t);
    forall i | 0 <= i < |sorted|
      ensures sorted[i] in t
    {
      SameMembers(sorted, t, sorted[i]);
    }
  }

  function OtherTotal(subs: Tally<string>, categoryTotal: int): int {
    Total(subs) - Total(Kept(subs, categoryTotal))
  }

  function Folded(subs: Tally<string>, categoryTotal: int): Tally<string> {
    Kept(subs, categoryTotal) + [("Other", OtherTotal(subs, categoryTotal))]
  }

  /** The list the dashboard shows for a category. */
  function Grouped(subs: Tally<string>, categoryTotal: int): Tally<string> {
    if |subs| <= 3 || |Kept(subs, categoryTotal)| + 2 > |subs| || OtherTotal(subs, categoryTotal) <= 0 then subs
    else SortDescending(Folded(subs, categoryTotal))
  }

  /** A subcategory that is not minor keeps its own node and amount. */
  lemma {:induction false} MajorEntriesStay(subs: Tally<string>, categoryTotal: int, e: (string, int))
    requires e in subs && !IsMinor(e.1, categoryTotal)
    ensures e in Grouped(subs, categoryTotal)
  {
    KeptWithin(subs, categoryTotal, e);
    SortKeepsEntry(Kept(subs, categoryTotal), ("Other", OtherTotal(subs, categoryTotal)), e);
  }

  /** Only `Other` is new. */
  lemma {:induction false} GroupedEntries(subs: Tally<string>, categoryTotal: int, e: (string, int))
    requires e in Grouped(subs, categoryTotal) && e.0 != "Other"
    ensures e in subs
  {
    KeptWithin(subs, categoryTotal, e);
    SameMembers(SortDescending(Folded(subs, categoryTotal)), Folded(subs, categoryTotal), e);
  }

  /** Under 30.00, and under 5% of a category that has a total. */
  predicate Small(amount: int, categoryTotal: int) {
    amount < 3000 && (categoryTotal <= 0 || 20 * amount < categoryTotal)
  }

  lemma {:induction false} MinorIsSmall(amount: int, categoryTotal: int)
    ensures IsMinor(amount, categoryTotal) <==> Small(amount, categoryTotal)
  {
    assert MINOR_SHARE == 20 && MINOR_CENTS == 3000;
    assert amount * MINOR_SHARE == 20 * amount;
  }

  predicate NoneSmall(subs: Tally<string>, categoryTotal: int) {
    forall i :: 0 <= i < |subs| ==> !Small(subs[i].1, categoryTotal)
  }

  predicate OneSmallAtMost(subs: Tally<string>, categoryTotal: int) {
    forall i, j :: 0 <= i < j < |subs| ==> !(Small(subs[i].1, categoryTotal) && Small(subs[j].1, categoryTotal))
  }

  lemma {:induction false} SmallAtTheEnd(subs: Tally<string>, categoryTotal: int)
    requires subs != []
    ensures var front, last := subs[..|subs| - 1], Small(subs[|subs| - 1].1, categoryTotal);
            && (NoneSmall(subs, categoryTotal) <==> NoneSmall(front, categoryTotal) && !last)
            && (OneSmallAtMost(subs, categoryTotal) <==>
                  if last then NoneSmall(front, categoryTotal) else OneSmallAtMost(front, categoryTotal))
  {
    var front := subs[..|subs| - 1];
    assert forall i :: 0 <= i < |front| ==> front[i] == subs[i];
    if i :| 0 <= i < |front| && Small(front[i].1, categoryTotal) {
      assert Small(subs[i].1, categoryTotal);
    }
  }

  lemma {:induction false} KeptAll(subs: Tally<string>, categoryTotal: int)
    ensures |Kept(subs, categoryTotal)| == |subs| <==> NoneSmall(subs, categoryTotal)
    ensures |Kept(subs, categoryTotal)| + 1 >= |subs| <==> OneSmallAtMost(subs, categoryTotal)
  {
    if subs == [] {
      assert Kept(subs, categoryTotal) == [];
    } else {
      var n := |subs| - 1;
      KeptAll(subs[..n], categoryTotal);
      SmallAtTheEnd(subs, categoryTotal);
      MinorIsSmall(subs[n].1, categoryTotal);
      assert |Kept(subs, categoryTotal)| == |Kept(subs[..n], categoryTotal)| + if Small(subs[n].1, categoryTotal) then 0 else 1;
    }
  }

  lemma {:induction false} KeptLeavesRest(subs: Tally<string>, categoryTotal: int)
    requires AllPositive(subs)
    ensures OtherTotal(subs, categoryTotal) >= 0
    ensures OtherTotal(subs, categoryTotal) == 0 ==> |Kept(subs, categoryTotal)| == |subs|
  {
    if subs != [] {
      var n := |subs| - 1;
      KeptLeavesRest(subs[..n], categoryTotal);
      KeptStep(subs, categoryTotal, n);
      assert subs[..n + 1] == subs;
      assert Kept(subs[..n], categoryTotal) + [] == Kept(subs[..n], categoryTotal);
      assert OtherTotal(subs, categoryTotal)
          == OtherTotal(subs[..n], categoryTotal) + if IsMinor(subs[n].1, categoryTotal) then subs[n].1 else 0;
    }
  }

  /** A subcategory loses its own entry exactly when it is small and so is another, among more than three. */
  lemma {:induction false} FoldedAwayIff(subs: Tally<string>, categoryTotal: int, i: nat)
    requires AllPositive(subs) && AllFormatted(subs) && i < |subs|
    ensures subs[i] !in Grouped(subs, categoryTotal) <==>
            |subs| > 3 && Small(subs[i].1, categoryTotal) && exists j :: 0 <= j < |subs| && j != i && Small(subs[j].1, categoryTotal)
  {
    var folded := Folded(subs, categoryTotal);
    KeptAll(subs, categoryTotal);
    KeptLeavesRest(subs, categoryTotal);
    KeptWithin(subs, categoryTotal, subs[i]);
    MinorIsSmall(subs[i].1, categoryTotal);
    assert subs[i] in folded <==> subs[i] in Kept(subs, categoryTotal);
    SameMembers(SortDescending(folded), folded, subs[i]);
  }

  lemma {:induction false} FoldedIsFaithful(subs: Tally<string>, categoryTotal: int)
    requires AllPositive(subs) && OtherTotal(subs, categoryTotal) > 0
    ensures Total(Folded(subs, categoryTotal)) == Total(subs)
    ensures AllPositive(Folded(subs, categoryTotal))
    ensures Distinct(subs) && AllFormatted(subs) ==>
              Distinct(Folded(subs, categoryTotal)) && NoUnderscore(Folded(subs, categoryTotal))
  {
    TotalOfConcat(Kept(subs, categoryTotal), [("Other", OtherTotal(subs, categoryTotal))]);
    KeptEntries(subs, categoryTotal);
    FoldedEntries(Kept(subs, categoryTotal), OtherTotal(subs, categoryTotal));
  }

  /** Folding minor subcategories preserves their total, never lengthens the list, keeps amounts
      positive and names apart: `Other` is no formatted name. */
  lemma {:induction false} GroupedIsFaithful(subs: Tally<string>, categoryTotal: int)
    requires AllPositive(subs)
    ensures Total(Grouped(subs, categoryTotal)) == Total(subs)
    ensures |Grouped(subs, categoryTotal)| <= |subs|
    ensures AllPositive(Grouped(subs, categoryTotal))
    ensures Distinct(subs) && AllFormatted(subs) ==>
              Distinct(Grouped(subs, categoryTotal)) && NoUnderscore(Grouped(subs, categoryTotal))
  {
    if OtherTotal(subs, categoryTotal) > 0 {
      var folded := Folded(subs, categoryTotal);
      FoldedIsFaithful(subs, categoryTotal);
      SortKeepsEntries(folded);
      if Distinct(folded) {
        SortKeepsDistinct(folded);
      }
    }
  }

  lemma {:induction false} KeptStep(subs: Tally<string>, categoryTotal: int, i: nat)
    requires i < |subs|
    ensures Kept(subs[..i + 1], categoryTotal)
         == Kept(subs[..i], categoryTotal) + (if IsMinor(subs[i].1, categoryTotal) then [] else [subs[i]])
    ensures Total(subs[..i + 1]) == Total(subs[..i]) + subs[i].1
    ensures Total(Kept(subs[..i], categoryTotal) + [subs[i]]) == Total(Kept(subs[..i], categoryTotal)) + subs[i].1
  {
    assert subs[..i + 1][..i] == subs[..i];
    TotalOfPrefix(subs, i);
    TotalOfConcat(Kept(subs[..i], categoryTotal), [subs[i]]);
  }

  method GroupMinorSubcategories(subs: Tally<string>, categoryTotal: int) returns (r: Tally<string>)
    ensures r == Grouped(subs, categoryTotal)
  {
    if |subs| <= 3 {
      return subs;
    }
    var primary: Tally<string> := [];
    var otherTotal, minorCount := 0, 0;
    for i := 0 to |subs|
      invariant primary == Kept(subs[..i], categoryTotal)
      invariant minorCount == i - |primary|
      invariant otherTotal == Total(subs[..i]) - Total(primary)
    {
      KeptStep(subs, categoryTotal, i);
      if IsMinor(subs[i].1, categoryTotal) {
        otherTotal := otherTotal + subs[i].1;
        minorCount := minorCount + 1;
      } else {
        primary := primary + [subs[i]];
      }
    }
    assert subs[..|subs|] == subs;
    assert otherTotal == OtherTotal(subs, categoryTotal);
    if minorCount >= 2 && otherTotal > 0 {
      primary := primary + [("Other", otherTotal)];
      assert primary == Folded(subs, categoryTotal);
      r := SortDescending(primary);
    } else {
      r := subs;
    }
  }
}
