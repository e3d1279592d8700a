/** The computation inside `get_authenticated_net_worth_over_time`; dates are day numbers, money is in cents. */
module NetWorth {
  import opened Prelude
  import opened Text
  import opened OrderedTally

  type Id = nat

  datatype Account = Account(id: Id, accountType: string, balance: Option<int>, updatedOn: Option<int>, manual: bool)

  /** Amounts are stored positive when money leaves the account and negative when it arrives. */
  datatype Txn = Txn(account: Id, date: int, amount: int)

  /** A row of `manual_account_balance_history`. */
  datatype Snapshot = Snapshot(account: Id, asOf: int, balance: int)

  datatype Point = Point(day: int, value: int)

  /** `RangePanic` is the panic of `BTreeMap::range` on an inverted range. */
  datatype Failure = BadRequest | RangePanic

  datatype Category = Cash | Credit | Loan | Investments | Property

  /** `map_account_to_balance_category(account_type, None)` */
  function CategoryOf(accountType: string): Category {
    var t := Lower(accountType);
    if t == "depository" then Cash
    else if t == "credit" then Credit
    else if t == "loan" then Loan
    else if t == "property" || t == "real_estate" || t == "real-estate" || t == "home" then Property
    else Investments
  }

  predicate Allowed(filter: Option<set<Id>>, id: Id) {
    filter.None? || id in filter.value
  }

  function BalanceOf(a: Account): int {
    if a.balance.Some? then a.balance.value else 0
  }

  // ----- what the accounts contribute

  /** Depository accounts with their current balances. */
  function CashAccounts(accounts: seq<Account>, filter: Option<set<Id>>): Tally<Id> {
    if accounts == [] then []
    else
      var n := |accounts| - 1;
      var a := accounts[n];
      CashAccounts(accounts[..n], filter) +
      (if Allowed(filter, a.id) && CategoryOf(a.accountType).Cash? then [(a.id, BalanceOf(a))] else [])
  }

  datatype Static = Static(id: Id, signed: int, liability: bool, manual: bool, updatedOn: Option<int>)

  function StaticOf(a: Account): Static {
    var owed := CategoryOf(a.accountType).Credit? || CategoryOf(a.accountType).Loan?;
    Static(a.id, if owed then -Abs(BalanceOf(a)) else BalanceOf(a), owed, a.manual, a.updatedOn)
  }

  /** Assets and liabilities carried at a value instead of a ledger. */
  function StaticAccounts(accounts: seq<Account>, filter: Option<set<Id>>): seq<Static> {
    if accounts == [] then []
    else
      var n := |accounts| - 1;
      var a := accounts[n];
      StaticAccounts(accounts[..n], filter) +
      (if Allowed(filter, a.id) && !CategoryOf(a.accountType).Cash? then [StaticOf(a)] else [])
  }

  /** The dated values recorded for a manual account, sign already applied. */
  function History(points: seq<Snapshot>, s: Static): map<int, int> {
    if points == [] || !s.manual then map[]
    else
      var n := |points| - 1;
      var earlier := History(points[..n], s);
      if points[n].account == s.id
      then earlier[points[n].asOf := if s.liability then -Abs(points[n].balance) else points[n].balance]
      else earlier
  }

  ghost predicate IsLatest(history: map<int, int>, day: int, k: int) {
    k in history && k <= day && forall j :: j in history && j <= day ==> j <= k
  }

  /** A static account counts at its last recorded value; before its first record it counts as nothing,
      and without any record at its current value. */
  ghost predicate CountsAs(points: seq<Snapshot>, s: Static, day: int, value: int) {
    var history := History(points, s);
    if history == map[] then value == s.signed
    else if exists k :: IsLatest(history, day, k) then exists k :: IsLatest(history, day, k) && value == history[k]
    else value == 0
  }

  // ----- flows

  /** What left one account over the days lo..hi, in sum. */
  function FlowOf(txns: seq<Txn>, account: Id, lo: int, hi: int): int {
    if txns == [] then 0
    else
      var t := txns[|txns| - 1];
      FlowOf(txns[..|txns| - 1], account, lo, hi) + (if t.account == account && lo <= t.date <= hi then t.amount else 0)
  }

  /** What left all the listed accounts: the independent meaning, straight from the transactions. */
  function CashFlow(txns: seq<Txn>, cash: Tally<Id>, lo: int, hi: int): int {
    if txns == [] then 0
    else
      var t := txns[|txns| - 1];
      CashFlow(txns[..|txns| - 1], cash, lo, hi) + (if Has(cash, t.account) && lo <= t.date <= hi then t.amount else 0)
  }

  function SumFlows(txns: seq<Txn>, cash: Tally<Id>, lo: int, hi: int): int {
    if cash == [] then 0
    else SumFlows(txns, cash[..|cash| - 1], lo, hi) + FlowOf(txns, cash[|cash| - 1].0, lo, hi)
  }

  lemma {:induction false} FlowSplits(txns: seq<Txn>, account: Id, lo: int, middle: int, hi: int)
    requires lo <= middle + 1 && middle <= hi
    ensures FlowOf(txns, account, lo, hi) == FlowOf(txns, account, lo, middle) + FlowOf(txns, account, middle + 1, hi)
  {
    if txns != [] {
      FlowSplits(txns[..|txns| - 1], account, lo, middle, hi);
    }
  }

  lemma {:induction false} EmptyFlow(txns: seq<Txn>, account: Id, lo: int, hi: int)
    requires hi < lo
    ensures FlowOf(txns, account, lo, hi) == 0
  {
    if txns != [] {
      EmptyFlow(txns[..|txns| - 1], account, lo, hi);
    }
  }

  lemma {:induction false} CashFlowSplits(txns: seq<Txn>, cash: Tally<Id>, lo: int, middle: int, hi: int)
    requires lo <= middle + 1 && middle <= hi
    ensures CashFlow(txns, cash, lo, hi) == CashFlow(txns, cash, lo, middle) + CashFlow(txns, cash, middle + 1, hi)
  {
    if txns != [] {
      CashFlowSplits(txns[..|txns| - 1], cash, lo, middle, hi);
    }
  }

  lemma {:induction false} HasInFront(cash: Tally<Id>, id: Id)
    requires cash != [] && Distinct(cash)
    ensures Has(cash, id) <==> Has(cash[..|cash| - 1], id) || cash[|cash| - 1].0 == id
    ensures !Has(cash[..|cash| - 1], cash[|cash| - 1].0)
  {
  }

  /** The flow of one transaction reaches exactly one of the distinct accounts, or none. */
  lemma {:induction false} OneTransaction(txns: seq<Txn>, t: Txn, cash: Tally<Id>, lo: int, hi: int)
    requires Distinct(cash)
    ensures SumFlows(txns + [t], cash, lo, hi)
         == SumFlows(txns, cash, lo, hi) + (if Has(cash, t.account) && lo <= t.date <= hi then t.amount else 0)
  {
    if cash != [] {
      OneTransaction(txns, t, cash[..|cash| - 1], lo, hi);
      assert (txns + [t])[..|txns|] == txns;
      HasInFront(cash, t.account);
    }
  }

  /** Summing by account or by transaction is the same. */
  lemma {:induction false} SumFlowsIsCashFlow(txns: seq<Txn>, cash: Tally<Id>, lo: int, hi: int)
    requires Distinct(cash)
    ensures SumFlows(txns, cash, lo, hi) == CashFlow(txns, cash, lo, hi)
  {
    if txns == [] {
      NoFlows(cash, lo, hi);
    } else {
      var n := |txns| - 1;
      SumFlowsIsCashFlow(txns[..n], cash, lo, hi);
      OneTransaction(txns[..n], txns[n], cash, lo, hi);
      assert txns == txns[..n] + [txns[n]];
    }
  }

  lemma {:induction false} NoFlows(cash: Tally<Id>, lo: int, hi: int)
    ensures SumFlows([], cash, lo, hi) == 0
  {
    if cash != [] {
      NoFlows(cash[..|cash| - 1], lo, hi);
    }
  }

  // ----- closed forms

  /** The cash part of the series: today's balances less the amounts after `day`, plus those of the first day. */
  function CashAt(txns: seq<Txn>, cash: Tally<Id>, start: int, today: int, day: int): int {
    Total(cash) + CashFlow(txns, cash, start, start) - CashFlow(txns, cash, day + 1, today)
  }

  /** What the accounts held at the end of `day`: an amount that left since then was still there. */
  function LedgerAt(txns: seq<Txn>, cash: Tally<Id>, today: int, day: int): int {
    Total(cash) + CashFlow(txns, cash, day + 1, today)
  }

  /** The reconstruction is off by what left on the first day of the series, which it counts a second time,
      and by twice what left since: it rolls back by subtracting what has to be added. */
  lemma {:induction false} OffByFirstDayAndTwiceTheRest(
    txns: seq<Txn>, cash: Tally<Id>, start: int, today: int, day: int)
    ensures CashAt(txns, cash, start, today, day) - LedgerAt(txns, cash, today, day)
         == CashFlow(txns, cash, start, start) - 2 * CashFlow(txns, cash, day + 1, today)
  {
  }

  // ----- the passes of the handler

  /** `flows_by_account` */
  type FlowTable = map<Id, map<int, int>>

  function DayFlow(flows: FlowTable, account: Id, day: int): int {
    if account in flows && day in flows[account] then flows[account][day] else 0
  }

  ghost predicate FlowsGrouped(txns: seq<Txn>, cash: Tally<Id>, flows: FlowTable) {
    && (forall a :: a in flows ==> Has(cash, a))
    && (forall a, d :: Has(cash, a) ==> DayFlow(flows, a, d) == FlowOf(txns, a, d, d))
  }

  method GroupFlows(txns: seq<Txn>, cash: Tally<Id>) returns (flows: FlowTable, dates: seq<int>)
    ensures FlowsGrouped(txns, cash, flows)
    ensures forall d :: d in dates <==> exists t :: t in txns && Has(cash, t.account) && t.date == d
    ensures flows == map[] <==> dates == []
  {
    flows, dates := map[], [];
    for i := 0 to |txns|
      invariant FlowsGrouped(txns[..i], cash, flows)
      invariant forall d :: d in dates <==> exists j :: 0 <= j < i && Has(cash, txns[j].account) && txns[j].date == d
      invariant flows == map[] <==> dates == []
    {
      var t := txns[i];
      assert txns[..i + 1][..i] == txns[..i];
      ghost var before := dates;
      if Has(cash, t.account) {
        dates := dates + [t.date];
        var days := if t.account in flows then flows[t.account] else map[];
        flows := flows[t.account := days[t.date := (if t.date in days then days[t.date] else 0) + t.amount]];
      }
      forall d
        ensures d in dates <==> exists j :: 0 <= j < i + 1 && Has(cash, txns[j].account) && txns[j].date == d
      {
        assert d in dates <==> d in before || (Has(cash, t.account) && d == t.date);
      }
    }
    assert txns[..|txns|] == txns;
    forall d
      ensures d in dates <==> exists t :: t in txns && Has(cash, t.account) && t.date == d
    {
      if d in dates {
        var j :| 0 <= j < |txns| && Has(cash, txns[j].account) && txns[j].date == d;
        assert txns[j] in txns;
      }
    }
  }

  /** The earliest date known, but not before the requested start. */
  ghost predicate IsEffectiveStart(startDate: int, dates: seq<int>, start: int) {
    if dates == [] then start == startDate
    else exists d :: d in dates && (forall e :: e in dates ==> d <= e) && start == Max(startDate, d)
  }

  method EffectiveStart(startDate: int, dates: seq<int>) returns (start: int)
    ensures IsEffectiveStart(startDate, dates, start)
  {
    if dates == [] {
      return startDate;
    }
    var earliest := dates[0];
    for i := 1 to |dates|
      invariant earliest in dates && forall j :: 0 <= j < i ==> earliest <= dates[j]
    {
      if dates[i] < earliest {
        earliest := dates[i];
      }
    }
    start := Max(startDate, earliest);
  }

  /** The range (start, today] is inverted exactly when the request starts today, or nothing is known
      from before today. */
  lemma {:induction false} InvertedWhenNothingEarlier(startDate: int, dates: seq<int>, start: int, today: int)
    requires IsEffectiveStart(startDate, dates, start) && dates != []
    ensures start >= today <==> startDate >= today || forall d :: d in dates ==> d >= today
  {
  }

  /** The current balance with the flows after `start` rolled back. */
  method Baseline(txns: seq<Txn>, cash: Tally<Id>, flows: FlowTable, account: Id, balance: int, start: int, today: int)
    returns (base: int)
    requires FlowsGrouped(txns, cash, flows) && Has(cash, account)
    ensures base == balance - FlowOf(txns, account, start + 1, today)
  {
    var rollback := 0;
    var d := start + 1;
    EmptyFlow(txns, account, start + 1, start);
    if account in flows {
      while d <= today
        invariant d <= Max(today, start) + 1 && start + 1 <= d
        invariant rollback == FlowOf(txns, account, start + 1, d - 1)
      {
        FlowSplits(txns, account, start + 1, d - 1, d);
        if d in flows[account] {
          rollback := rollback + flows[account][d];
        }
        assert DayFlow(flows, account, d) == FlowOf(txns, account, d, d);
        d := d + 1;
      }
      if today < start { EmptyFlow(txns, account, start + 1, today); }
    } else {
      NothingGrouped(txns, cash, flows, account, start + 1, today);
    }
    base := balance - rollback;
  }

  lemma {:induction false} NothingGrouped(
    txns: seq<Txn>, cash: Tally<Id>, flows: FlowTable, account: Id, lo: int, hi: int)
    requires FlowsGrouped(txns, cash, flows) && Has(cash, account) && account !in flows
    ensures FlowOf(txns, account, lo, hi) == 0
    decreases hi - lo
  {
    if hi < lo {
      EmptyFlow(txns, account, lo, hi);
    } else {
      FlowSplits(txns, account, lo, lo, hi);
      assert DayFlow(flows, account, lo) == FlowOf(txns, account, lo, lo);
      NothingGrouped(txns, cash, flows, account, lo + 1, hi);
    }
  }

  /** `base_start_by_account`; the range panics on the first account with flows when it is inverted. */
  method Baselines(txns: seq<Txn>, cash: Tally<Id>, flows: FlowTable, start: int, today: int)
    returns (base: Result<map<Id, int>, Failure>)
    requires FlowsGrouped(txns, cash, flows)
    ensures base.Failure? ==> base.error == RangePanic
    ensures base.Failure? <==> start >= today && flows != map[]
    ensures base.Success? ==> forall i :: 0 <= i < |cash| && Distinct(cash) ==>
              cash[i].0 in base.value && base.value[cash[i].0] == cash[i].1 - FlowOf(txns, cash[i].0, start + 1, today)
  {
    var m: map<Id, int> := map[];
    for i := 0 to |cash|
      invariant start >= today ==> forall j :: 0 <= j < i ==> cash[j].0 !in flows
      invariant forall j :: 0 <= j < i && Distinct(cash) ==>
                  cash[j].0 in m && m[cash[j].0] == cash[j].1 - FlowOf(txns, cash[j].0, start + 1, today)
    {
      var (account, balance) := cash[i];
      if account in flows && start >= today {
        return Failure(RangePanic);
      }
      assert cash[i].0 == account;
      var b := Baseline(txns, cash, flows, account, balance, start, today);
      m := m[account := b];
    }
    base := Success(m);
    if start >= today {
      NoneListed(cash, flows);
    }
  }

  lemma {:induction false} NoneListed(cash: Tally<Id>, flows: FlowTable)
    requires forall a :: a in flows ==> Has(cash, a)
    requires forall j :: 0 <= j < |cash| ==> cash[j].0 !in flows
    ensures flows == map[]
  {
  }

  /** Cumulative flow of each account up to `upTo`, zero where no entry exists yet. */
  function Cumulative(cum: map<Id, int>, account: Id): int {
    if account in cum then cum[account] else 0
  }

  ghost predicate CumulatedTo(txns: seq<Txn>, cash: Tally<Id>, cum: map<Id, int>, start: int, upTo: int) {
    forall a :: Has(cash, a) ==> Cumulative(cum, a) == FlowOf(txns, a, start, upTo)
  }

  /** One day of `per_account_cum`. */
  method Advance(txns: seq<Txn>, cash: Tally<Id>, flows: FlowTable, cum: map<Id, int>, start: int, day: int)
    returns (next: map<Id, int>)
    requires FlowsGrouped(txns, cash, flows) && CumulatedTo(txns, cash, cum, start, day - 1) && start <= day && Distinct(cash)
    ensures CumulatedTo(txns, cash, next, start, day)
  {
    next := cum;
    for i := 0 to |cash|
      invariant forall j :: 0 <= j < i ==>
                  Cumulative(next, cash[j].0) == Cumulative(cum, cash[j].0) + DayFlow(flows, cash[j].0, day)
      invariant forall j :: i <= j < |cash| ==> Cumulative(next, cash[j].0) == Cumulative(cum, cash[j].0)
    {
      var account := cash[i].0;
      if account in flows {
        var entry := Cumulative(next, account);
        next := next[account := if day in flows[account] then entry + flows[account][day] else entry];
      }
    }
    forall a | Has(cash, a)
      ensures Cumulative(next, a) == FlowOf(txns, a, start, day)
    {
      FlowSplits(txns, a, start, day - 1, day);
      assert DayFlow(flows, a, day) == FlowOf(txns, a, day, day);
    }
  }

  /** The cash part of one point: every baseline plus what has accumulated on it. */
  method CashTotal(txns: seq<Txn>, cash: Tally<Id>, base: map<Id, int>, cum: map<Id, int>, start: int, today: int, upTo: int)
    returns (total: int)
    requires Distinct(cash) && CumulatedTo(txns, cash, cum, start, upTo)
    requires forall i :: 0 <= i < |cash| ==>
               cash[i].0 in base && base[cash[i].0] == cash[i].1 - FlowOf(txns, cash[i].0, start + 1, today)
    ensures total == Total(cash) - CashFlow(txns, cash, start + 1, today) + CashFlow(txns, cash, start, upTo)
  {
    total := 0;
    for i := 0 to |cash|
      invariant total == Total(cash[..i]) - SumFlows(txns, cash[..i], start + 1, today) + SumFlows(txns, cash[..i], start, upTo)
    {
      TotalOfPrefix(cash, i);
      assert cash[..i + 1][..i] == cash[..i];
      assert Has(cash, cash[i].0);
      total := total + base[cash[i].0] + Cumulative(cum, cash[i].0);
    }
    assert cash[..|cash|] == cash;
    SumFlowsIsCashFlow(txns, cash, start + 1, today);
    SumFlowsIsCashFlow(txns, cash, start, upTo);
  }

  /** Rolling back and rolling forward meets the closed form. */
  lemma {:induction false} PassesMeet(txns: seq<Txn>, cash: Tally<Id>, start: int, today: int, upTo: int)
    requires start <= upTo <= today
    ensures Total(cash) - CashFlow(txns, cash, start + 1, today) + CashFlow(txns, cash, start, upTo)
         == CashAt(txns, cash, start, today, upTo)
  {
    CashFlowSplits(txns, cash, start, start, upTo);
    CashFlowSplits(txns, cash, start + 1, upTo, today);
  }

  // ----- static accounts

  /** The value of the last record on or before `day`. */
  method LatestValue(history: map<int, int>, keys: seq<int>, day: int) returns (value: Option<int>)
    requires forall k :: k in keys <==> k in history
    ensures value.Some? ==> exists k :: IsLatest(history, day, k) && value.value == history[k]
    ensures value.None? ==> forall k :: !IsLatest(history, day, k)
  {
    var best: Option<int> := None;
    for i := 0 to |keys|
      invariant best.Some? ==> best.value in history && best.value <= day
      invariant forall j :: 0 <= j < i && keys[j] <= day ==> best.Some? && keys[j] <= best.value
    {
      if keys[i] <= day && (best.None? || best.value < keys[i]) {
        best := Some(keys[i]);
      }
    }
    if best.Some? {
      assert IsLatest(history, day, best.value);
      value := Some(history[best.value]);
    } else {
      value := None;
    }
  }

  /** The days recorded for an account, each once is enough. */
  function Days(points: seq<Snapshot>, s: Static): seq<int> {
    if points == [] || !s.manual then []
    else
      var n := |points| - 1;
      Days(points[..n], s) + (if points[n].account == s.id then [points[n].asOf] else [])
  }

  lemma {:induction false} DaysAreKeys(points: seq<Snapshot>, s: Static)
    ensures forall k :: k in Days(points, s) <==> k in History(points, s)
  {
    if points != [] && s.manual {
      DaysAreKeys(points[..|points| - 1], s);
    }
  }

  /** Values of the static accounts on one day, in account order. */
  ghost predicate StaticValues(points: seq<Snapshot>, statics: seq<Static>, day: int, values: seq<int>) {
    |values| == |statics| && forall i :: 0 <= i < |statics| ==> CountsAs(points, statics[i], day, values[i])
  }

  function SumOf(values: seq<int>): int {
    if values == [] then 0 else SumOf(values[..|values| - 1]) + values[|values| - 1]
  }

  method StaticValue(points: seq<Snapshot>, s: Static, day: int) returns (value: int)
    ensures CountsAs(points, s, day, value)
  {
    var history := History(points, s);
    DaysAreKeys(points, s);
    var days := Days(points, s);
    if |days| > 0 {
      assert days[0] in days;
      var latest := LatestValue(history, days, day);
      value := if latest.Some? then latest.value else 0;
    } else {
      assert history == map[] by { assert forall k :: k !in history; }
      value := s.signed;
    }
  }

  method StaticTotal(points: seq<Snapshot>, statics: seq<Static>, day: int) returns (total: int, ghost values: seq<int>)
    ensures StaticValues(points, statics, day, values) && total == SumOf(values)
  {
    total, values := 0, [];
    for i := 0 to |statics|
      invariant |values| == i && forall j :: 0 <= j < i ==> CountsAs(points, statics[j], day, values[j])
      invariant total == SumOf(values)
    {
      var v := StaticValue(points, statics[i], day);
      total := total + v;
      assert (values + [v])[..i] == values;
      values := values + [v];
    }
  }

  // ----- the series

  /** What one point of the series is: the closed form of the cash part, frozen after the anchor day, plus
      the static accounts. */
  ghost predicate PointOk(
    txns: seq<Txn>, cash: Tally<Id>, points: seq<Snapshot>, statics: seq<Static>, start: int, today: int, anchor: int, p: Point)
  {
    exists values :: StaticValues(points, statics, p.day, values) &&
      p.value == CashAt(txns, cash, start, today, Min(p.day, anchor)) + SumOf(values)
  }

  ghost predicate SeriesOk(
    txns: seq<Txn>, cash: Tally<Id>, points: seq<Snapshot>, statics: seq<Static>,
    start: int, today: int, anchor: int, series: seq<Point>)
  {
    forall i :: 0 <= i < |series| ==>
      series[i].day == start + i && PointOk(txns, cash, points, statics, start, today, anchor, series[i])
  }

  lemma {:induction false} NoCashFlow(txns: seq<Txn>, cash: Tally<Id>, lo: int, hi: int)
    requires forall t :: t in txns ==> !Has(cash, t.account)
    ensures CashFlow(txns, cash, lo, hi) == 0
  {
    if txns != [] {
      NoCashFlow(txns[..|txns| - 1], cash, lo, hi);
      assert txns[|txns| - 1] in txns;
    }
  }

  /** The value of one day, whichever side of the anchor it lies on. */
  lemma {:induction false} PointIsClosedForm(
    txns: seq<Txn>, cash: Tally<Id>, start: int, today: int, anchor: int, day: int, upTo: int)
    requires anchor <= today && start <= day && upTo == Max(start - 1, Min(day, anchor))
    requires anchor < start ==> forall t :: t in txns ==> !Has(cash, t.account)
    ensures Total(cash) - CashFlow(txns, cash, start + 1, today) + CashFlow(txns, cash, start, upTo)
         == CashAt(txns, cash, start, today, Min(day, anchor))
  {
    if anchor < start {
      NoCashFlow(txns, cash, start + 1, today);
      NoCashFlow(txns, cash, start, upTo);
      NoCashFlow(txns, cash, start, start);
      NoCashFlow(txns, cash, Min(day, anchor) + 1, today);
    } else {
      PassesMeet(txns, cash, start, today, upTo);
    }
  }

  lemma {:induction false} NothingAccumulated(txns: seq<Txn>, cash: Tally<Id>, start: int)
    ensures CumulatedTo(txns, cash, map[], start, start - 1)
  {
    forall a | Has(cash, a)
      ensures Cumulative(map[], a) == FlowOf(txns, a, start, start - 1)
    {
      EmptyFlow(txns, a, start, start - 1);
    }
  }

  /** The forward pass: one point per day from the effective start to the end date. */
  method BuildSeries(
    txns: seq<Txn>, cash: Tally<Id>, flows: FlowTable, base: map<Id, int>, points: seq<Snapshot>, statics: seq<Static>,
    start: int, today: int, endDate: int)
    returns (series: seq<Point>)
    requires Distinct(cash) && FlowsGrouped(txns, cash, flows)
    requires forall i :: 0 <= i < |cash| ==>
               cash[i].0 in base && base[cash[i].0] == cash[i].1 - FlowOf(txns, cash[i].0, start + 1, today)
    requires today < start ==> forall t :: t in txns ==> !Has(cash, t.account)
    ensures |series| == Max(0, endDate - start + 1)
    ensures SeriesOk(txns, cash, points, statics, start, today, Min(endDate, today), series)
  {
    var anchor := Min(endDate, today);
    var day := start;
    var cum: map<Id, int> := map[];
    NothingAccumulated(txns, cash, start);
    series := [];
    while day <= endDate
      invariant start <= day && |series| == day - start && (day <= endDate + 1 || day == start)
      invariant CumulatedTo(txns, cash, cum, start, Max(start - 1, Min(day - 1, anchor)))
      invariant SeriesOk(txns, cash, points, statics, start, today, anchor, series)
    {
      if day <= anchor {
        cum := Advance(txns, cash, flows, cum, start, day);
      }
      var upTo := Max(start - 1, Min(day, anchor));
      var cashTotal := CashTotal(txns, cash, base, cum, start, today, upTo);
      var staticTotal, values := StaticTotal(points, statics, day);
      PointIsClosedForm(txns, cash, start, today, anchor, day, upTo);
      var p := Point(day, cashTotal + staticTotal);
      assert StaticValues(points, statics, p.day, values);
      assert PointOk(txns, cash, points, statics, start, today, anchor, p);
      series := series + [p];
      day := day + 1;
    }
  }

  /** Dates that move the effective start besides the cash flows. */
  ghost predicate IsAnchorDate(points: seq<Snapshot>, statics: seq<Static>, d: int) {
    || (exists i :: 0 <= i < |statics| && statics[i].updatedOn == Some(d))
    || (exists i :: 0 <= i < |statics| && d in Days(points, statics[i]))
  }

  method AnchorDates(points: seq<Snapshot>, statics: seq<Static>) returns (dates: seq<int>)
    ensures forall d :: d in dates <==> IsAnchorDate(points, statics, d)
  {
    dates := [];
    for i := 0 to |statics|
      invariant forall d :: d in dates <==>
                  exists j :: 0 <= j < i && (statics[j].updatedOn == Some(d) || d in Days(points, statics[j]))
    {
      ghost var before := dates;
      var own := (if statics[i].updatedOn.Some? then [statics[i].updatedOn.value] else []) + Days(points, statics[i]);
      dates := dates + own;
      forall d
        ensures d in dates <==>
                  exists j :: 0 <= j < i + 1 && (statics[j].updatedOn == Some(d) || d in Days(points, statics[j]))
      {
        assert d in dates <==> d in before || d in own;
        assert d in own <==> statics[i].updatedOn == Some(d) || d in Days(points, statics[i]);
      }
    }
  }

  ghost predicate IsKnownDate(txns: seq<Txn>, cash: Tally<Id>, points: seq<Snapshot>, statics: seq<Static>, d: int) {
    (exists t :: t in txns && Has(cash, t.account) && t.date == d) || IsAnchorDate(points, statics, d)
  }

  lemma {:induction false} CashIdsAreAccountIds(accounts: seq<Account>, filter: Option<set<Id>>)
    requires forall i, j :: 0 <= i < j < |accounts| ==> accounts[i].id != accounts[j].id
    ensures Distinct(CashAccounts(accounts, filter))
    ensures forall i :: 0 <= i < |CashAccounts(accounts, filter)| ==>
              exists a :: a in accounts && a.id == CashAccounts(accounts, filter)[i].0
  {
    if accounts != [] {
      var n := |accounts| - 1;
      CashIdsAreAccountIds(accounts[..n], filter);
      var front := CashAccounts(accounts[..n], filter);
      var all := CashAccounts(accounts, filter);
      forall i | 0 <= i < |all|
        ensures exists a :: a in accounts && a.id == all[i].0
        ensures i < |front| ==> all[i].0 != accounts[n].id
      {
        if i < |front| {
          assert all[i] == front[i];
          var a :| a in accounts[..n] && a.id == front[i].0;
          assert a in accounts;
        } else {
          assert accounts[n] in accounts;
        }
      }
    }
  }

  lemma {:induction false} NoFlowBefore(
    txns: seq<Txn>, cash: Tally<Id>, startDate: int, dates: seq<int>, start: int, flowDates: seq<int>)
    requires IsEffectiveStart(startDate, dates, start) && flowDates <= dates
    requires forall d :: d in flowDates <==> exists t :: t in txns && Has(cash, t.account) && t.date == d
    requires forall t :: t in txns ==> startDate <= t.date
    ensures forall t :: t in txns && Has(cash, t.account) ==> t.date >= start
  {
    forall t | t in txns && Has(cash, t.account)
      ensures t.date >= start
    {
      assert t.date in flowDates;
      assert t.date in dates;
    }
  }

  ghost predicate HasCashFlow(txns: seq<Txn>, cash: Tally<Id>) {
    exists t :: t in txns && Has(cash, t.account)
  }

  ghost predicate StartOk(
    txns: seq<Txn>, cash: Tally<Id>, points: seq<Snapshot>, statics: seq<Static>, startDate: int, start: int, dates: seq<int>)
  {
    && (forall d :: d in dates <==> IsKnownDate(txns, cash, points, statics, d))
    && IsEffectiveStart(startDate, dates, start)
    && (forall t :: t in txns && Has(cash, t.account) ==> t.date >= start)
  }

  /** Where the series begins: no fetched cash flow predates it. */
  method SeriesStart(
    txns: seq<Txn>, cash: Tally<Id>, points: seq<Snapshot>, statics: seq<Static>, startDate: int, flowDates: seq<int>)
    returns (start: int, dates: seq<int>)
    requires forall d :: d in flowDates <==> exists t :: t in txns && Has(cash, t.account) && t.date == d
    requires forall t :: t in txns ==> startDate <= t.date
    ensures StartOk(txns, cash, points, statics, startDate, start, dates)
  {
    var anchorDates := AnchorDates(points, statics);
    dates := flowDates + anchorDates;
    start := EffectiveStart(startDate, dates);
    NoFlowBefore(txns, cash, startDate, dates, start, flowDates);
    forall d
      ensures d in dates <==> IsKnownDate(txns, cash, points, statics, d)
    {
      assert d in dates <==> d in flowDates || d in anchorDates;
    }
  }

  /** The series runs over each day from `start` to `endDate` once, unless rolling back has to panic. */
  ghost predicate Reconstructed(
    txns: seq<Txn>, cash: Tally<Id>, points: seq<Snapshot>, statics: seq<Static>,
    start: int, today: int, endDate: int, r: Result<seq<Point>, Failure>)
  {
    if start >= today && HasCashFlow(txns, cash) then r == Failure(RangePanic)
    else
      && r.Success?
      && |r.value| == Max(0, endDate - start + 1)
      && SeriesOk(txns, cash, points, statics, start, today, Min(endDate, today), r.value)
  }

  method Reconstruct(
    txns: seq<Txn>, cash: Tally<Id>, points: seq<Snapshot>, statics: seq<Static>,
    startDate: int, endDate: int, today: int)
    returns (r: Result<seq<Point>, Failure>, start: int, dates: seq<int>)
    requires Distinct(cash)
    requires forall t :: t in txns ==> startDate <= t.date <= today
    ensures StartOk(txns, cash, points, statics, startDate, start, dates)
    ensures Reconstructed(txns, cash, points, statics, start, today, endDate, r)
  {
    var flows, flowDates := GroupFlows(txns, cash);
    start, dates := SeriesStart(txns, cash, points, statics, startDate, flowDates);
    FlowsMeanCashFlow(txns, cash, flowDates);
    var base := Baselines(txns, cash, flows, start, today);
    if base.Failure? {
      r := Failure(base.error);
    } else {
      var series := BuildSeries(txns, cash, flows, base.value, points, statics, start, today, endDate);
      r := Success(series);
    }
  }

  lemma {:induction false} FlowsMeanCashFlow(txns: seq<Txn>, cash: Tally<Id>, flowDates: seq<int>)
    requires forall d :: d in flowDates <==> exists t :: t in txns && Has(cash, t.account) && t.date == d
    ensures flowDates != [] <==> HasCashFlow(txns, cash)
  {
    if flowDates != [] {
      var d := flowDates[0];
      assert d in flowDates;
      var t :| t in txns && Has(cash, t.account) && t.date == d;
      assert HasCashFlow(txns, cash);
    }
    if HasCashFlow(txns, cash) {
      var t :| t in txns && Has(cash, t.account);
      assert t.date in flowDates by {
        assert t in txns && Has(cash, t.account) && t.date == t.date;
      }
    }
  }

  /** What the request answers: an error, nothing when no account is in scope, or the reconstruction. */
  ghost predicate Answers(
    cash: Tally<Id>, statics: seq<Static>, points: seq<Snapshot>, txns: seq<Txn>,
    startDate: int, endDate: int, today: int, r: Result<seq<Point>, Failure>, start: int, dates: seq<int>)
  {
    if endDate < startDate then r == Failure(BadRequest)
    else if cash == [] && statics == [] then r == Success([])
    else
      && StartOk(txns, cash, points, statics, startDate, start, dates)
      && Reconstructed(txns, cash, points, statics, start, today, endDate, r)
  }

  method NetWorthOverTime(
    accounts: seq<Account>, points: seq<Snapshot>, txns: seq<Txn>, filter: Option<set<Id>>,
    startDate: int, endDate: int, today: int)
    returns (r: Result<seq<Point>, Failure>, start: int, dates: seq<int>)
    requires forall i, j :: 0 <= i < j < |accounts| ==> accounts[i].id != accounts[j].id
    requires forall t :: t in txns ==> startDate <= t.date <= today
    ensures Answers(
              CashAccounts(accounts, filter), StaticAccounts(accounts, filter), points, txns,
              startDate, endDate, today, r, start, dates)
  {
    start, dates := startDate, [];
    if endDate < startDate {
      return Failure(BadRequest), start, dates;
    }
    var cash := CashAccounts(accounts, filter);
    var statics := StaticAccounts(accounts, filter);
    CashIdsAreAccountIds(accounts, filter);
    if cash == [] && statics == [] {
      return Success([]), start, dates;
    }
    r, start, dates := Reconstruct(txns, cash, points, statics, startDate, endDate, today);
  }

  // ----- what the series shows against what the accounts held

  /** The point shows what the accounts held at the end of its day, and the static accounts. */
  ghost predicate ShowsLedger(
    txns: seq<Txn>, cash: Tally<Id>, points: seq<Snapshot>, statics: seq<Static>, today: int, p: Point)
  {
    exists values :: StaticValues(points, statics, p.day, values) &&
      p.value == LedgerAt(txns, cash, today, p.day) + SumOf(values)
  }

  lemma {:induction false} CountsAsOneValue(points: seq<Snapshot>, s: Static, day: int, v: int, w: int)
    requires CountsAs(points, s, day, v) && CountsAs(points, s, day, w)
    ensures v == w
  {
    var history := History(points, s);
    if j, k :| IsLatest(history, day, j) && IsLatest(history, day, k) && v == history[j] && w == history[k] {
      assert j == k;
    }
  }

  lemma {:induction false} StaticValuesAreUnique(
    points: seq<Snapshot>, statics: seq<Static>, day: int, values: seq<int>, others: seq<int>)
    requires StaticValues(points, statics, day, values) && StaticValues(points, statics, day, others)
    ensures values == others
  {
    forall i | 0 <= i < |statics|
      ensures values[i] == others[i]
    {
      CountsAsOneValue(points, statics[i], day, values[i], others[i]);
    }
  }

  lemma {:induction false} EmptyCashFlow(txns: seq<Txn>, cash: Tally<Id>, lo: int, hi: int)
    requires hi < lo
    ensures CashFlow(txns, cash, lo, hi) == 0
  {
    if txns != [] {
      EmptyCashFlow(txns[..|txns| - 1], cash, lo, hi);
    }
  }

  /** A point shows the ledger if and only if what left on the first day is twice what left after its day. */
  lemma {:induction false} PointShowsLedgerIff(
    txns: seq<Txn>, cash: Tally<Id>, points: seq<Snapshot>, statics: seq<Static>,
    start: int, today: int, endDate: int, p: Point)
    requires PointOk(txns, cash, points, statics, start, today, Min(endDate, today), p) && p.day <= endDate
    ensures ShowsLedger(txns, cash, points, statics, today, p)
       <==> CashFlow(txns, cash, start, start) == 2 * CashFlow(txns, cash, p.day + 1, today)
  {
    var upTo := Min(p.day, Min(endDate, today));
    var values :| StaticValues(points, statics, p.day, values) &&
      p.value == CashAt(txns, cash, start, today, upTo) + SumOf(values);
    if p.day > today {
      EmptyCashFlow(txns, cash, today + 1, today);
      EmptyCashFlow(txns, cash, p.day + 1, today);
    }
    assert CashFlow(txns, cash, upTo + 1, today) == CashFlow(txns, cash, p.day + 1, today);
    if ShowsLedger(txns, cash, points, statics, today, p) {
      var others :| StaticValues(points, statics, p.day, others) &&
        p.value == LedgerAt(txns, cash, today, p.day) + SumOf(others);
      StaticValuesAreUnique(points, statics, p.day, values, others);
    }
  }

  /** Nothing moves, in sum, on any day of lo..hi. */
  ghost predicate Still(txns: seq<Txn>, cash: Tally<Id>, lo: int, hi: int) {
    forall d :: lo <= d <= hi ==> CashFlow(txns, cash, d, d) == 0
  }

  lemma {:induction false} SameRestWhenStill(txns: seq<Txn>, cash: Tally<Id>, day: int, end: int, today: int)
    requires day <= end && Still(txns, cash, day + 1, end)
    ensures CashFlow(txns, cash, day + 1, today) == CashFlow(txns, cash, end + 1, today)
    decreases end - day
  {
    if day < end {
      SameRestWhenStill(txns, cash, day + 1, end, today);
      assert CashFlow(txns, cash, day + 1, day + 1) == 0;
      OneDayMore(txns, cash, day + 1, today);
    }
  }

  /** Flows from a day on are those of the day and those after it; days past today hold none. */
  lemma {:induction false} OneDayMore(txns: seq<Txn>, cash: Tally<Id>, day: int, today: int)
    ensures day <= today ==>
              CashFlow(txns, cash, day, today) == CashFlow(txns, cash, day, day) + CashFlow(txns, cash, day + 1, today)
    ensures day > today ==> CashFlow(txns, cash, day, today) == CashFlow(txns, cash, day + 1, today) == 0
  {
    if day <= today {
      CashFlowSplits(txns, cash, day, day, today);
    } else {
      EmptyCashFlow(txns, cash, day, today);
      EmptyCashFlow(txns, cash, day + 1, today);
    }
  }

  lemma {:induction false} NothingAfterToday(txns: seq<Txn>, cash: Tally<Id>, day: int, today: int)
    requires day > today && forall t :: t in txns ==> t.date <= today
    ensures CashFlow(txns, cash, day, day) == 0
  {
    if txns != [] {
      assert txns[|txns| - 1] in txns;
      NothingAfterToday(txns[..|txns| - 1], cash, day, today);
    }
  }

  ghost predicate AllShowLedger(
    txns: seq<Txn>, cash: Tally<Id>, points: seq<Snapshot>, statics: seq<Static>, today: int, series: seq<Point>)
  {
    forall i :: 0 <= i < |series| ==> ShowsLedger(txns, cash, points, statics, today, series[i])
  }

  /** What left on the first day is twice what left after `day`. */
  predicate TwiceTheRest(txns: seq<Txn>, cash: Tally<Id>, start: int, day: int, today: int) {
    CashFlow(txns, cash, start, start) == 2 * CashFlow(txns, cash, day + 1, today)
  }

  ghost predicate AlwaysTwiceTheRest(txns: seq<Txn>, cash: Tally<Id>, start: int, end: int, today: int) {
    forall d :: start <= d <= end ==> TwiceTheRest(txns, cash, start, d, today)
  }

  lemma {:induction false} AllShowLedgerIff(
    txns: seq<Txn>, cash: Tally<Id>, points: seq<Snapshot>, statics: seq<Static>,
    start: int, today: int, endDate: int, series: seq<Point>)
    requires |series| == endDate - start + 1
    requires SeriesOk(txns, cash, points, statics, start, today, Min(endDate, today), series)
    ensures AllShowLedger(txns, cash, points, statics, today, series)
       <==> AlwaysTwiceTheRest(txns, cash, start, endDate, today)
  {
    forall i | 0 <= i < |series|
      ensures ShowsLedger(txns, cash, points, statics, today, series[i]) <==> TwiceTheRest(txns, cash, start, start + i, today)
    {
      PointShowsLedgerIff(txns, cash, points, statics, start, today, endDate, series[i]);
    }
    if AllShowLedger(txns, cash, points, statics, today, series) {
      forall d | start <= d <= endDate
        ensures TwiceTheRest(txns, cash, start, d, today)
      {
        assert ShowsLedger(txns, cash, points, statics, today, series[d - start]);
      }
    }
  }

  lemma {:induction false} StillWhenAlwaysTwiceTheRest(
    txns: seq<Txn>, cash: Tally<Id>, start: int, end: int, today: int, d: int)
    requires AlwaysTwiceTheRest(txns, cash, start, end, today) && start + 1 <= d <= end
    requires forall t :: t in txns ==> t.date <= today
    ensures CashFlow(txns, cash, d, d) == 0
  {
    assert TwiceTheRest(txns, cash, start, d - 1, today) && TwiceTheRest(txns, cash, start, d, today);
    OneDayMore(txns, cash, d, today);
    if d > today {
      NothingAfterToday(txns, cash, d, today);
    }
  }

  lemma {:induction false} AlwaysTwiceTheRestIffStill(txns: seq<Txn>, cash: Tally<Id>, start: int, end: int, today: int)
    requires start <= end && forall t :: t in txns ==> t.date <= today
    ensures AlwaysTwiceTheRest(txns, cash, start, end, today)
       <==> Still(txns, cash, start + 1, end) && TwiceTheRest(txns, cash, start, end, today)
  {
    if AlwaysTwiceTheRest(txns, cash, start, end, today) {
      forall d | start + 1 <= d <= end
        ensures CashFlow(txns, cash, d, d) == 0
      {
        StillWhenAlwaysTwiceTheRest(txns, cash, start, end, today, d);
      }
    } else if Still(txns, cash, start + 1, end) {
      var d :| start <= d <= end && !TwiceTheRest(txns, cash, start, d, today);
      SameRestWhenStill(txns, cash, d, end, today);
    }
  }

  /** The series shows the ledger on every day if and only if nothing moves after its first day, and what
      left on that day is twice what left after the end date. */
  lemma {:induction false} SeriesShowsLedgerIff(
    txns: seq<Txn>, cash: Tally<Id>, points: seq<Snapshot>, statics: seq<Static>,
    start: int, today: int, endDate: int, series: seq<Point>)
    requires Reconstructed(txns, cash, points, statics, start, today, endDate, Success(series)) && start <= endDate
    requires forall t :: t in txns ==> t.date <= today
    ensures AllShowLedger(txns, cash, points, statics, today, series)
       <==> && Still(txns, cash, start + 1, endDate)
            && CashFlow(txns, cash, start, start) == 2 * CashFlow(txns, cash, endDate + 1, today)
  {
    AllShowLedgerIff(txns, cash, points, statics, start, today, endDate, series);
    AlwaysTwiceTheRestIffStill(txns, cash, start, endDate, today);
  }

  /** A series that reaches today shows the ledger throughout if and only if nothing moves on any of its days. */
  lemma {:induction false} SeriesToTodayShowsLedgerIff(
    txns: seq<Txn>, cash: Tally<Id>, points: seq<Snapshot>, statics: seq<Static>,
    start: int, today: int, endDate: int, series: seq<Point>)
    requires Reconstructed(txns, cash, points, statics, start, today, endDate, Success(series))
    requires start <= today <= endDate && forall t :: t in txns ==> t.date <= today
    ensures AllShowLedger(txns, cash, points, statics, today, series) <==> Still(txns, cash, start, today)
  {
    SeriesShowsLedgerIff(txns, cash, points, statics, start, today, endDate, series);
    EmptyCashFlow(txns, cash, endDate + 1, today);
    forall d | d > today
      ensures CashFlow(txns, cash, d, d) == 0
    {
      NothingAfterToday(txns, cash, d, today);
    }
  }

  /** An expense of 100 on day 15 and a balance of 1000 today: on day 12 the account held 1100 and the
      series shows 900, although nothing moved on its first day. */
  lemma {:induction false} ExpenseRolledBackwards(series: seq<Point>)
    requires Reconstructed([Txn(1, 15, 100)], [(1, 1000)], [], [], 10, 20, 20, Success(series))
    ensures series[2] == Point(12, 900) && LedgerAt([Txn(1, 15, 100)], [(1, 1000)], 20, 12) == 1100
  {
    var txns, cash: Tally<Id> := [Txn(1, 15, 100)], [(1, 1000)];
    assert txns[..0] == [] && cash[0].0 == 1 && Has(cash, 1);
    assert CashFlow(txns, cash, 10, 10) == 0 && CashFlow(txns, cash, 13, 20) == 100;
    assert PointOk(txns, cash, [], [], 10, 20, 20, series[2]);
  }

  /** A deposit of 100 on the first day: five days later the account held 1000 and the series shows 900. */
  lemma {:induction false} DepositOnFirstDay(series: seq<Point>)
    requires Reconstructed([Txn(1, 10, -100)], [(1, 1000)], [], [], 10, 20, 20, Success(series))
    ensures series[5] == Point(15, 900) && LedgerAt([Txn(1, 10, -100)], [(1, 1000)], 20, 15) == 1000
  {
    var txns, cash: Tally<Id> := [Txn(1, 10, -100)], [(1, 1000)];
    assert txns[..0] == [] && cash[0].0 == 1 && Has(cash, 1);
    assert CashFlow(txns, cash, 10, 10) == -100 && CashFlow(txns, cash, 16, 20) == 0;
    assert PointOk(txns, cash, [], [], 10, 20, 20, series[5]);
  }

  /** A request from today on, with one transaction today, panics. */
  lemma {:induction false} StartingTodayPanics(
    points: seq<Snapshot>, statics: seq<Static>, endDate: int, r: Result<seq<Point>, Failure>)
    requires Reconstructed([Txn(1, 20, 100)], [(1, 1000)], points, statics, 20, 20, endDate, r)
    ensures r == Failure(RangePanic)
  {
    var cash: Tally<Id> := [(1, 1000)];
    assert cash[0].0 == 1 && Txn(1, 20, 100) in [Txn(1, 20, 100)];
  }
}
