/** The net-worth series in terms of the accounts of the request: every point is a sum over them. */
module NetWorthAccounts {
  import opened Prelude
  import opened Text
  import opened OrderedTally
  import opened NetWorth

  // ----- what one account is worth

  function Given(balance: Option<int>): int {
    match balance
    case Some(b) => b
    case None => 0
  }

  /** The record that counts on `day`: of those dated no later, one with the last date, and of these the last entered. */
  function LastRecord(points: seq<Snapshot>, id: Id, day: int): Option<Snapshot> {
    if points == [] then None
    else
      var p, earlier := points[|points| - 1], LastRecord(points[..|points| - 1], id, day);
      if p.account == id && p.asOf <= day && (earlier.None? || earlier.value.asOf <= p.asOf) then Some(p) else earlier
  }

  predicate HasRecord(points: seq<Snapshot>, id: Id) {
    exists i :: 0 <= i < |points| && points[i].account == id
  }

  /** What an account without a ledger holds on `day`: its balance, unless it is kept by hand and has records. */
  function Held(points: seq<Snapshot>, a: Account, day: int): int {
    if !a.manual || !HasRecord(points, a.id) then Given(a.balance)
    else
      match LastRecord(points, a.id, day)
      case Some(p) => p.balance
      case None => 0
  }

  /** Credit and loans count against the total. */
  function Worth(points: seq<Snapshot>, a: Account, day: int): int {
    if Lower(a.accountType) in ["credit", "loan"] then -Abs(Held(points, a, day)) else Held(points, a, day)
  }

  /** A deposit account: its balance today, what left on the first day added and what left after `upTo` taken off. */
  function Deposited(txns: seq<Txn>, a: Account, start: int, today: int, upTo: int): int {
    Given(a.balance) + FlowOf(txns, a.id, start, start) - FlowOf(txns, a.id, upTo + 1, today)
  }

  predicate InRequest(filter: Option<set<Id>>, a: Account) {
    filter.Some? ==> a.id in filter.value
  }

  /** What an account adds to the point of a day, the ledger part being frozen at `upTo`. */
  function Share(
    filter: Option<set<Id>>, points: seq<Snapshot>, txns: seq<Txn>, a: Account, start: int, today: int, upTo: int, day: int): int
  {
    if !InRequest(filter, a) then 0
    else if Lower(a.accountType) == "depository" then Deposited(txns, a, start, today, upTo)
    else Worth(points, a, day)
  }

  function SumOfShares(
    filter: Option<set<Id>>, points: seq<Snapshot>, txns: seq<Txn>, accounts: seq<Account>,
    start: int, today: int, upTo: int, day: int): int
  {
    if accounts == [] then 0
    else
      SumOfShares(filter, points, txns, accounts[..|accounts| - 1], start, today, upTo, day) +
      Share(filter, points, txns, accounts[|accounts| - 1], start, today, upTo, day)
  }

  // ----- static accounts

  function Signed(s: Static, balance: int): int {
    if s.liability then -Abs(balance) else balance
  }

  /** `record` is the one that counts for a history on `day`. */
  ghost predicate Counts(history: map<int, int>, s: Static, day: int, record: Option<Snapshot>) {
    match record
    case None => forall k :: k in history ==> k > day
    case Some(p) => IsLatest(history, day, p.asOf) && history[p.asOf] == Signed(s, p.balance)
  }

  lemma {:induction false} OneMoreRecord(
    history: map<int, int>, s: Static, day: int, earlier: Option<Snapshot>, p: Snapshot)
    requires Counts(history, s, day, earlier)
    ensures Counts(history[p.asOf := Signed(s, p.balance)], s, day,
                   if p.asOf <= day && (earlier.None? || earlier.value.asOf <= p.asOf) then Some(p) else earlier)
  {
  }

  lemma {:induction false} HistoryByRecords(points: seq<Snapshot>, s: Static, day: int)
    requires s.manual
    ensures History(points, s) == map[] <==> !HasRecord(points, s.id)
    ensures Counts(History(points, s), s, day, LastRecord(points, s.id, day))
  {
    if points != [] {
      var n := |points| - 1;
      var history := History(points[..n], s);
      HistoryByRecords(points[..n], s, day);
      RecordAtTheEnd(points, s.id);
      OneMoreRecord(history, s, day, LastRecord(points[..n], s.id, day), points[n]);
      assert points[n].asOf in history[points[n].asOf := Signed(s, points[n].balance)];
    }
  }

  lemma {:induction false} RecordAtTheEnd(points: seq<Snapshot>, id: Id)
    requires points != []
    ensures HasRecord(points, id) <==> HasRecord(points[..|points| - 1], id) || points[|points| - 1].account == id
  {
    var n := |points| - 1;
    if i :| 0 <= i < n && points[..n][i].account == id {
      assert points[i].account == id;
    }
    if i :| 0 <= i < |points| && points[i].account == id {
      assert i < n ==> points[..n][i].account == id;
    }
  }

  lemma {:induction false} NoHistoryUnlessManual(points: seq<Snapshot>, s: Static)
    requires !s.manual
    ensures History(points, s) == map[]
  {
  }

  lemma {:induction false} KindIsOwed(a: Account)
    ensures StaticOf(a).liability <==> Lower(a.accountType) in ["credit", "loan"]
    ensures CategoryOf(a.accountType).Cash? <==> Lower(a.accountType) == "depository"
  {
    assert |"credit"| == 6 && |"loan"| == 4 && |"depository"| == 10;
  }

  /** The one value a static account counts as. */
  lemma {:induction false} CountsAsWorth(points: seq<Snapshot>, a: Account, day: int, v: int)
    requires CountsAs(points, StaticOf(a), day, v)
    ensures v == Worth(points, a, day)
  {
    var s := StaticOf(a);
    KindIsOwed(a);
    if s.manual {
      HistoryByRecords(points, s, day);
      if LastRecord(points, s.id, day).Some? {
        assert IsLatest(History(points, s), day, LastRecord(points, s.id, day).value.asOf);
      }
    } else {
      NoHistoryUnlessManual(points, s);
    }
  }

  // ----- all accounts

  /** The part of the shares that accounts carried at a value make up. */
  function StaticPart(filter: Option<set<Id>>, points: seq<Snapshot>, accounts: seq<Account>, day: int): int {
    if accounts == [] then 0
    else
      var a := accounts[|accounts| - 1];
      StaticPart(filter, points, accounts[..|accounts| - 1], day) +
      (if InRequest(filter, a) && Lower(a.accountType) != "depository" then Worth(points, a, day) else 0)
  }

  function CashPart(
    filter: Option<set<Id>>, txns: seq<Txn>, accounts: seq<Account>, start: int, today: int, upTo: int): int
  {
    if accounts == [] then 0
    else
      var a := accounts[|accounts| - 1];
      CashPart(filter, txns, accounts[..|accounts| - 1], start, today, upTo) +
      (if InRequest(filter, a) && Lower(a.accountType) == "depository" then Deposited(txns, a, start, today, upTo) else 0)
  }

  lemma {:induction false} SharesInTwoParts(
    filter: Option<set<Id>>, points: seq<Snapshot>, txns: seq<Txn>, accounts: seq<Account>,
    start: int, today: int, upTo: int, day: int)
    ensures SumOfShares(filter, points, txns, accounts, start, today, upTo, day)
         == CashPart(filter, txns, accounts, start, today, upTo) + StaticPart(filter, points, accounts, day)
  {
    if accounts != [] {
      SharesInTwoParts(filter, points, txns, accounts[..|accounts| - 1], start, today, upTo, day);
    }
  }

  lemma {:induction false} StaticValuesAtTheEnd(
    points: seq<Snapshot>, front: seq<Static>, s: Static, day: int, values: seq<int>)
    requires StaticValues(points, front + [s], day, values)
    ensures var n := |front|;
            |values| == n + 1 && StaticValues(points, front, day, values[..n]) && CountsAs(points, s, day, values[n])
  {
    var n := |front|;
    assert (front + [s])[n] == s;
    forall i | 0 <= i < n
      ensures CountsAs(points, front[i], day, values[i])
    {
      assert (front + [s])[i] == front[i];
    }
  }

  lemma {:induction false} StaticPartByValues(
    filter: Option<set<Id>>, points: seq<Snapshot>, accounts: seq<Account>, day: int, values: seq<int>)
    requires StaticValues(points, StaticAccounts(accounts, filter), day, values)
    ensures SumOf(values) == StaticPart(filter, points, accounts, day)
  {
    if accounts != [] {
      var n := |accounts| - 1;
      var a, front := accounts[n], StaticAccounts(accounts[..n], filter);
      KindIsOwed(a);
      if Allowed(filter, a.id) && !CategoryOf(a.accountType).Cash? {
        StaticValuesAtTheEnd(points, front, StaticOf(a), day, values);
        StaticPartByValues(filter, points, accounts[..n], day, values[..|front|]);
        CountsAsWorth(points, a, day, values[|front|]);
      } else {
        assert StaticAccounts(accounts, filter) == front;
        StaticPartByValues(filter, points, accounts[..n], day, values);
      }
    }
  }

  /** The balances of the deposit accounts, with their flows. */
  function LedgerOf(txns: seq<Txn>, cash: Tally<Id>, start: int, today: int, upTo: int): int {
    Total(cash) + SumFlows(txns, cash, start, start) - SumFlows(txns, cash, upTo + 1, today)
  }

  lemma {:induction false} LedgerAtTheEnd(
    txns: seq<Txn>, front: Tally<Id>, id: Id, balance: int, start: int, today: int, upTo: int)
    ensures LedgerOf(txns, front + [(id, balance)], start, today, upTo)
         == LedgerOf(txns, front, start, today, upTo)
            + balance + FlowOf(txns, id, start, start) - FlowOf(txns, id, upTo + 1, today)
  {
    TotalOfConcat(front, [(id, balance)]);
    assert (front + [(id, balance)])[..|front|] == front;
  }

  lemma {:induction false} CashPartIsLedger(
    filter: Option<set<Id>>, txns: seq<Txn>, accounts: seq<Account>, start: int, today: int, upTo: int)
    ensures LedgerOf(txns, CashAccounts(accounts, filter), start, today, upTo)
         == CashPart(filter, txns, accounts, start, today, upTo)
  {
    if accounts != [] {
      var n := |accounts| - 1;
      var a, front := accounts[n], CashAccounts(accounts[..n], filter);
      CashPartIsLedger(filter, txns, accounts[..n], start, today, upTo);
      KindIsOwed(a);
      LedgerAtTheEnd(txns, front, a.id, BalanceOf(a), start, today, upTo);
      assert front + [] == front;
    }
  }

  ghost predicate OneEach(accounts: seq<Account>) {
    forall i, j :: 0 <= i < j < |accounts| ==> accounts[i].id != accounts[j].id
  }

  lemma {:induction false} PointByShares(
    filter: Option<set<Id>>, points: seq<Snapshot>, txns: seq<Txn>, accounts: seq<Account>,
    start: int, today: int, anchor: int, p: Point)
    requires OneEach(accounts)
    requires PointOk(txns, CashAccounts(accounts, filter), points, StaticAccounts(accounts, filter), start, today, anchor, p)
    ensures p.value == SumOfShares(filter, points, txns, accounts, start, today, Min(p.day, anchor), p.day)
  {
    var cash, upTo := CashAccounts(accounts, filter), Min(p.day, anchor);
    var values :| StaticValues(points, StaticAccounts(accounts, filter), p.day, values) &&
      p.value == CashAt(txns, cash, start, today, upTo) + SumOf(values);
    CashIdsAreAccountIds(accounts, filter);
    SumFlowsIsCashFlow(txns, cash, start, start);
    SumFlowsIsCashFlow(txns, cash, upTo + 1, today);
    StaticPartByValues(filter, points, accounts, p.day, values);
    CashPartIsLedger(filter, txns, accounts, start, today, upTo);
    SharesInTwoParts(filter, points, txns, accounts, start, today, upTo, p.day);
  }

  /** What the request answers for a list of accounts. */
  ghost predicate Shows(
    accounts: seq<Account>, points: seq<Snapshot>, txns: seq<Txn>, filter: Option<set<Id>>,
    startDate: int, endDate: int, today: int, start: int, dates: seq<int>, series: seq<Point>)
  {
    Answers(
      CashAccounts(accounts, filter), StaticAccounts(accounts, filter), points, txns,
      startDate, endDate, today, Success(series), start, dates)
  }

  /** Every point of the series is the sum of what its accounts are worth on that day, debts counting against it. */
  lemma {:induction false} PointsAreSumsOverAccounts(
    accounts: seq<Account>, points: seq<Snapshot>, txns: seq<Txn>, filter: Option<set<Id>>,
    startDate: int, endDate: int, today: int, start: int, dates: seq<int>, series: seq<Point>, i: nat)
    requires OneEach(accounts) && i < |series|
    requires Shows(accounts, points, txns, filter, startDate, endDate, today, start, dates, series)
    ensures series[i].day == start + i
    ensures series[i].value
         == SumOfShares(filter, points, txns, accounts, start, today, Min(start + i, Min(endDate, today)), start + i)
  {
    PointByShares(filter, points, txns, accounts, start, today, Min(endDate, today), series[i]);
  }

  // ----- one account more

  lemma {:induction false} SharesOfConcat(
    filter: Option<set<Id>>, points: seq<Snapshot>, txns: seq<Txn>, a: seq<Account>, b: seq<Account>,
    start: int, today: int, upTo: int, day: int)
    ensures SumOfShares(filter, points, txns, a + b, start, today, upTo, day)
         == SumOfShares(filter, points, txns, a, start, today, upTo, day)
            + SumOfShares(filter, points, txns, b, start, today, upTo, day)
  {
    if b == [] {
      assert a + b == a;
    } else {
      var n := |b| - 1;
      SharesOfConcat(filter, points, txns, a, b[..n], start, today, upTo, day);
      assert (a + b)[..|a| + n] == a + b[..n];
    }
  }

  lemma {:induction false} WithoutOne(front: seq<Account>, a: Account, back: seq<Account>)
    requires OneEach(front + [a] + back)
    ensures OneEach(front + back)
  {
    var all, rest := front + [a] + back, front + back;
    forall i, j | 0 <= i < j < |rest|
      ensures rest[i].id != rest[j].id
    {
      var i', j' := if i < |front| then i else i + 1, if j < |front| then j else j + 1;
      assert rest[i] == all[i'] && rest[j] == all[j'];
    }
  }

  /** Next to the same request without it, an account changes each point by its own share and nothing else. */
  lemma {:induction false} OneAccountMore(
    front: seq<Account>, a: Account, back: seq<Account>, points: seq<Snapshot>, txns: seq<Txn>, filter: Option<set<Id>>,
    startDate: int, endDate: int, today: int, start: int, dates: seq<int>, dates': seq<int>,
    with: seq<Point>, without: seq<Point>, i: nat)
    requires OneEach(front + [a] + back) && i < |with| && i < |without|
    requires Shows(front + [a] + back, points, txns, filter, startDate, endDate, today, start, dates, with)
    requires Shows(front + back, points, txns, filter, startDate, endDate, today, start, dates', without)
    ensures with[i].day == without[i].day == start + i
    ensures with[i].value - without[i].value
         == Share(filter, points, txns, a, start, today, Min(start + i, Min(endDate, today)), start + i)
  {
    var upTo, day := Min(start + i, Min(endDate, today)), start + i;
    WithoutOne(front, a, back);
    PointsAreSumsOverAccounts(front + [a] + back, points, txns, filter, startDate, endDate, today, start, dates, with, i);
    PointsAreSumsOverAccounts(front + back, points, txns, filter, startDate, endDate, today, start, dates', without, i);
    SharesOfConcat(filter, points, txns, front + [a], back, start, today, upTo, day);
    SharesOfConcat(filter, points, txns, front, [a], start, today, upTo, day);
    SharesOfConcat(filter, points, txns, front, back, start, today, upTo, day);
    assert [a][..0] == [];
  }

  /** A debt lowers every point by its amount, whatever sign it is stored with. */
  lemma {:induction false} DebtLowersNetWorth(
    front: seq<Account>, a: Account, back: seq<Account>, points: seq<Snapshot>, txns: seq<Txn>, filter: Option<set<Id>>,
    startDate: int, endDate: int, today: int, start: int, dates: seq<int>, dates': seq<int>,
    with: seq<Point>, without: seq<Point>, i: nat, b: int)
    requires OneEach(front + [a] + back) && i < |with| && i < |without|
    requires Shows(front + [a] + back, points, txns, filter, startDate, endDate, today, start, dates, with)
    requires Shows(front + back, points, txns, filter, startDate, endDate, today, start, dates', without)
    requires Lower(a.accountType) == "credit" || Lower(a.accountType) == "loan"
    requires a.balance == Some(b) && !HasRecord(points, a.id) && (filter.Some? ==> a.id in filter.value)
    ensures with[i].value == without[i].value - (if b < 0 then -b else b)
  {
    OneAccountMore(
      front, a, back, points, txns, filter, startDate, endDate, today, start, dates, dates', with, without, i);
    assert |"depository"| == 10 && |"credit"| == 6 && |"loan"| == 4;
  }

  /** An investment or a property, or anything else that is neither a debt nor a deposit, raises it by its balance. */
  lemma {:induction false} AssetRaisesNetWorth(
    front: seq<Account>, a: Account, back: seq<Account>, points: seq<Snapshot>, txns: seq<Txn>, filter: Option<set<Id>>,
    startDate: int, endDate: int, today: int, start: int, dates: seq<int>, dates': seq<int>,
    with: seq<Point>, without: seq<Point>, i: nat, b: int)
    requires OneEach(front + [a] + back) && i < |with| && i < |without|
    requires Shows(front + [a] + back, points, txns, filter, startDate, endDate, today, start, dates, with)
    requires Shows(front + back, points, txns, filter, startDate, endDate, today, start, dates', without)
    requires Lower(a.accountType) !in ["credit", "loan", "depository"]
    requires a.balance == Some(b) && !HasRecord(points, a.id) && (filter.Some? ==> a.id in filter.value)
    ensures with[i].value == without[i].value + b
  {
    OneAccountMore(
      front, a, back, points, txns, filter, startDate, endDate, today, start, dates, dates', with, without, i);
  }

  // ----- one account alone

  function Alone(kind: string): Account {
    Account(1, kind, Some(500), None, false)
  }

  lemma {:induction false} AloneIsShown(kind: string, dates: seq<int>, start: int, series: seq<Point>)
    requires Shows([Alone(kind)], [], [], None, 10, 10, 20, start, dates, series)
    requires Lower(kind) != "depository"
    ensures start == 10 && |series| == 1 && series[0] == Point(10, Worth([], Alone(kind), 10))
  {
    var accounts := [Alone(kind)];
    assert accounts[..0] == [];
    KindIsOwed(Alone(kind));
    assert StaticAccounts(accounts, None) == [StaticOf(Alone(kind))] && CashAccounts(accounts, None) == [];
    assert dates == [] by {
      assert forall d :: !IsKnownDate([], CashAccounts(accounts, None), [], StaticAccounts(accounts, None), d);
    }
    PointsAreSumsOverAccounts(accounts, [], [], None, 10, 10, 20, start, dates, series, 0);
  }

  lemma {:induction false} AloneIsWorth(kind: string)
    requires forall i :: 0 <= i < |kind| ==> !('A' <= kind[i] <= 'Z')
    ensures Lower(kind) == kind && Worth([], Alone(kind), 10) == if kind == "credit" || kind == "loan" then -500 else 500
  {
    LowerOfLowerCase(kind);
    assert Held([], Alone(kind), 10) == 500;
  }

  /** A card with 500 on it: -5.00. */
  lemma {:induction false} CardAlone(dates: seq<int>, start: int, series: seq<Point>)
    requires Shows([Alone("credit")], [], [], None, 10, 10, 20, start, dates, series)
    ensures series == [Point(10, -500)]
  {
    AloneIsWorth("credit");
    assert |"credit"| == 6 && |"depository"| == 10;
    AloneIsShown("credit", dates, start, series);
  }

  /** A loan likewise. */
  lemma {:induction false} LoanAlone(dates: seq<int>, start: int, series: seq<Point>)
    requires Shows([Alone("loan")], [], [], None, 10, 10, 20, start, dates, series)
    ensures series == [Point(10, -500)]
  {
    AloneIsWorth("loan");
    assert |"loan"| == 4 && |"depository"| == 10;
    AloneIsShown("loan", dates, start, series);
  }

  /** A house of the same value: 5.00. */
  lemma {:induction false} HouseAlone(dates: seq<int>, start: int, series: seq<Point>)
    requires Shows([Alone("property")], [], [], None, 10, 10, 20, start, dates, series)
    ensures series == [Point(10, 500)]
  {
    AloneIsWorth("property");
    assert |"property"| == 8 && |"credit"| == 6 && |"loan"| == 4 && |"depository"| == 10;
    AloneIsShown("property", dates, start, series);
  }
}
