/** When duplicate pointers stay one step long, when they do not, and what longer chains cost. */
module DuplicateChains {
  import opened Prelude
  import Text
  import opened Store
  import opened PointerForest
  import opened StoreWrites
  import opened StoreRuns
  import opened DuplicateLinks
  import DuplicateMerge
  import AccountMerge

  /** Every hidden row points at a visible one. */
  ghost predicate Flat(txns: map<Id, Txn>) {
    forall t :: t in txns && txns[t].duplicateOf.Some? ==> txns[t].duplicateOf.value in VisibleIds(txns)
  }

  /** Some row is hidden behind `q`. */
  ghost predicate Hides(txns: map<Id, Txn>, q: Id) {
    exists t :: t in txns && txns[t].duplicateOf == Some(q)
  }

  // ----- one statement

  lemma {:induction false} LinkStaysFlatIff(txns: map<Id, Txn>, links: map<Id, Id>)
    requires links.Keys <= VisibleIds(txns) && links.Values <= VisibleIds(txns) && links.Keys !! links.Values
    requires Flat(txns)
    ensures Flat(Link(txns, links)) <==> forall q :: q in links ==> !Hides(txns, q)
  {
    var linked := Link(txns, links);
    if forall q :: q in links ==> !Hides(txns, q) {
      forall t | t in linked && linked[t].duplicateOf.Some?
        ensures linked[t].duplicateOf.value in VisibleIds(linked)
      {
        if t in links {
          assert links[t] in links.Values;
        } else {
          assert Hides(txns, txns[t].duplicateOf.value);
        }
      }
    } else {
      var q :| q in links && Hides(txns, q);
      var t :| t in txns && txns[t].duplicateOf == Some(q);
      assert linked[t].duplicateOf == Some(q) && !linked[q].Visible();
    }
  }

  /** The rows a statement is going to hide, known before it starts. */
  ghost predicate AboutToHide(db: Db, s: Statement, q: Id) {
    match s
    case AutoResolve(user, scope) => HasMatch(db, user, scope, q)
    case MarkDuplicate(id, user) => q == id && exists c :: IsCandidate(db, user, id, c)
    case _ => false
  }

  ghost predicate HidesNoTarget(db: Db, s: Statement) {
    forall q :: AboutToHide(db, s, q) ==> !Hides(db.txns, q)
  }

  lemma {:induction false} AutoResolveStaysFlatIff(db: Db, user: Id, scope: Option<Id>, db': Db, count: nat)
    requires AutoResolved(db, user, scope, db', count) && Flat(db.txns)
    ensures Flat(db'.txns) <==> forall q :: HasMatch(db, user, scope, q) ==> !Hides(db.txns, q)
  {
    var links: map<Id, Id> :| MatchedPairs(db, user, scope, links) && Linked(db, user, links, db') && count == |links|;
    MatchedPairsWellLinked(db, user, scope, links);
    LinkStaysFlatIff(db.txns, links);
    LinkedWhenMatched(db, user, scope, links);
  }

  lemma {:induction false} MarkStaysFlatIff(db: Db, user: Id, id: Id, db': Db, result: Result<Id, DbError>)
    requires Marked(db, user, id, db', result) && Flat(db.txns)
    ensures Flat(db'.txns) <==> HidesNoTarget(db, MarkDuplicate(id, user))
  {
    if result.Success? {
      MarkWellLinked(db, user, id, result.value);
      LinkStaysFlatIff(db.txns, map[id := result.value]);
      assert IsCandidate(db, user, id, result.value);
    }
  }

  lemma {:induction false} SamePointersStayFlat(txns: map<Id, Txn>, txns': map<Id, Txn>)
    requires Flat(txns) && txns.Keys <= txns'.Keys
    requires forall t :: t in txns ==> txns'[t].duplicateOf == txns[t].duplicateOf
    requires forall t :: t in txns' && t !in txns ==> txns'[t].Visible()
    ensures Flat(txns')
  {
    forall t | t in txns' && txns'[t].duplicateOf.Some?
      ensures txns'[t].duplicateOf.value in VisibleIds(txns')
    {
      assert txns[t].duplicateOf.value in VisibleIds(txns);
    }
  }

  lemma {:induction false} DeletionStaysFlat(txns: map<Id, Txn>, gone: set<Id>)
    requires Flat(txns)
    ensures Flat(Without(txns, gone))
  {
  }

  lemma {:induction false} UpsertStaysFlat(db: Db, id: Id, row: Txn, db': Db, result: Result<(), DbError>)
    requires TxnUpserted(db, id, row, db', result) && row.Visible() && Flat(db.txns)
    ensures Flat(db'.txns)
  {
    if t :| t in db.txns && SameProviderId(db.txns[t], row) {
      SamePointersStayFlat(db.txns, db'.txns);
    } else if result.Success? {
      SamePointersStayFlat(db.txns, db'.txns);
    }
  }

  /** A statement makes a chain exactly when it hides a row that already hides another. */
  lemma {:induction false} StatementStaysFlatIff(db: Db, s: Statement, db': Db)
    requires Step(db, s, db') && Flat(db.txns)
    ensures Flat(db'.txns) <==> HidesNoTarget(db, s)
  {
    match s
    case UpsertTransaction(id, row) =>
      var r :| TxnUpserted(db, id, row, db', r);
      UpsertStaysFlat(db, id, row, db', r);
    case UpsertAccount(id, account, now) =>
    case SetOverride(id, user, category, sub, now) =>
    case RemoveOverride(id, user) =>
    case MarkDuplicate(id, user) =>
      var r :| Marked(db, user, id, db', r);
      MarkStaysFlatIff(db, user, id, db', r);
    case AutoResolve(user, scope) =>
      var n :| AutoResolved(db, user, scope, db', n);
      AutoResolveStaysFlatIff(db, user, scope, db', n);
    case MergeAccounts(user, connection) =>
      var r :| AccountMerge.AccountsMerged(db, user, connection, db', r);
      AccountMergeStaysFlat(db, user, connection, db', r);
    case MergeTransactions(user, connection) =>
      var n :| DuplicateMerge.Merged(db, user, connection, db', n);
      DeletionStaysFlat(db.txns, DuplicateMerge.Gone(db, user, connection));
  }

  lemma {:induction false} AccountMergeStaysFlat(db: Db, user: Id, connection: Id, db': Db, r: Result<nat, DbError>)
    requires AccountMerge.AccountsMerged(db, user, connection, db', r) && Flat(db.txns)
    ensures Flat(db'.txns)
  {
    var links: map<Id, Id> :|
      AccountMerge.DuplicateAccounts(db, user, connection, links) && AccountMerge.MovedAndDeleted(db, user, links, db', r);
    if r.Success? {
      MoveStaysFlat(db.txns, user, links);
    }
  }

  lemma {:induction false} MoveStaysFlat(txns: map<Id, Txn>, user: Id, links: map<Id, Id>)
    requires Flat(txns)
    ensures Flat(AccountMerge.Move(txns, user, links))
  {
    var moved := AccountMerge.Move(txns, user, links);
    assert forall t :: t in txns ==> moved[t].duplicateOf == txns[t].duplicateOf;
    SamePointersStayFlat(txns, moved);
  }

  /** A run that starts flat is flat throughout if and only if no statement of it hides a row that
      already hides another. */
  lemma {:induction false} RunStaysFlatIff(dbs: seq<Db>, statements: seq<Statement>)
    requires Run(dbs, statements) && Flat(dbs[0].txns)
    ensures (forall i :: 0 <= i < |dbs| ==> Flat(dbs[i].txns))
       <==> (forall i :: 0 <= i < |statements| ==> HidesNoTarget(dbs[i], statements[i]))
  {
    if forall i :: 0 <= i < |statements| ==> HidesNoTarget(dbs[i], statements[i]) {
      forall i | 0 <= i < |dbs|
        ensures Flat(dbs[i].txns)
      {
        FlatSoFar(dbs, statements, i);
      }
    } else {
      var i :| 0 <= i < |statements| && !HidesNoTarget(dbs[i], statements[i]);
      assert Step(dbs[i], statements[i], dbs[i + 1]);
      if Flat(dbs[i].txns) {
        StatementStaysFlatIff(dbs[i], statements[i], dbs[i + 1]);
      }
    }
  }

  lemma {:induction false} FlatSoFar(dbs: seq<Db>, statements: seq<Statement>, i: nat)
    requires Run(dbs, statements) && Flat(dbs[0].txns) && i < |dbs|
    requires forall j :: 0 <= j < |statements| ==> HidesNoTarget(dbs[j], statements[j])
    ensures Flat(dbs[i].txns)
  {
    if i > 0 {
      FlatSoFar(dbs, statements, i - 1);
      assert Step(dbs[i - 1], statements[i - 1], dbs[i - 1 + 1]);
      StatementStaysFlatIff(dbs[i - 1], statements[i - 1], dbs[i]);
    }
  }

  // ----- what the read query looks at

  /** Row `p` is hidden directly behind `r` and has an override of `user`. */
  ghost predicate ChosenBehind(db: Db, user: Id, r: Id, p: Id) {
    p in db.txns && db.txns[p].duplicateOf == Some(r) && (p, user) in db.overrides
  }

  /** The query finds some override for `r`: on the row, or one step behind it and no further. */
  ghost predicate ShowsChoice(db: Db, user: Id, r: Id) {
    (r, user) in db.overrides || exists p :: ChosenBehind(db, user, r, p)
  }

  lemma {:induction false} RepresentedDirectly(txns: map<Id, Txn>, r: Id, x: Id)
    requires Flat(txns) && Represents(txns, r, x)
    ensures x == r || (x in txns && txns[x].duplicateOf == Some(r))
  {
    var n: nat :| Follow(txns, x, n) == Some(r);
    if n > 0 {
      var p := txns[x].duplicateOf.value;
      assert p in VisibleIds(txns);
      assert Follow(txns, x, n) == Follow(txns, p, n - 1);
    }
  }

  // ----- chains do arise

  function Copy(pending: bool, date: int, provider: Option<string>, target: Option<Id>): Txn {
    Txn(1, Some(1), provider, 500, date, None, pending, 0, target)
  }

  /** Three copies of one charge: 1 is pending, 2 on the same day, 3 posted a day later. */
  function Copies(pending: bool, first: Option<Id>, second: Option<Id>, choice: OverrideTable): Db {
    Db(map[1 := Copy(true, 0, None, first), 2 := Copy(pending, 0, Some("b"), second), 3 := Copy(false, 1, None, None)],
       OneAccount(), choice)
  }

  function OneAccount(): map<Id, Account> {
    map[1 := Account(Some(1), None, None, "", "depository", None, None, 0)]
  }

  lemma {:induction false} NoMerchantNoKey(t: Txn)
    requires t.merchant.None?
    ensures t.Key() == ""
  {
    assert Text.Alphanumeric("") == "";
  }

  /** Once row 1 is hidden behind the pending row 2, auto-resolve hides row 2 behind row 3. */
  lemma {:induction false} SecondIsHidden(choice: OverrideTable)
    requires (2, 1) !in choice
    ensures AutoResolved(Copies(true, Some(2), None, choice), 1, None, Copies(true, Some(2), Some(3), choice), 1)
  {
    var db, db' := Copies(true, Some(2), None, choice), Copies(true, Some(2), Some(3), choice);
    var links: map<Id, Id> := map[2 := 3];
    NoMerchantNoKey(db.txns[2]);
    NoMerchantNoKey(db.txns[3]);
    assert PendingRows(db, 1, None) == {2} && PostedRows(db, 1, None) == {3};
    assert BestMatch(db, 1, None, 2, 3);
    assert MatchedPairs(db, 1, None, links);
    assert Link(db.txns, links) == db'.txns;
    assert Linked(db, 1, links, db');
    assert |links| == 1;
  }

  lemma {:induction false} ChainAtTheEnd(choice: OverrideTable)
    requires (2, 1) !in choice && (3, 1) !in choice
    ensures var last := Copies(true, Some(2), Some(3), choice);
            && Follow(last.txns, 1, 2) == Some(3) && Represents(last.txns, 3, 1) && !Flat(last.txns)
            && !ShowsChoice(last, 1, 3)
  {
    var last := Copies(true, Some(2), Some(3), choice);
    assert Follow(last.txns, 3, 0) == Some(3);
    assert Follow(last.txns, 2, 1) == Some(3);
    assert Follow(last.txns, 1, 2) == Some(3);
    assert !last.txns[2].Visible() && last.txns[1].duplicateOf == Some(2);
  }

  lemma {:induction false} SecondComesBack(choice: OverrideTable)
    ensures TxnUpserted(
              Copies(false, Some(2), None, choice), 9, Copy(true, 0, Some("b"), None),
              Copies(true, Some(2), None, choice), Success(()))
  {
    var db, db' := Copies(false, Some(2), None, choice), Copies(true, Some(2), None, choice);
    assert Refreshed(db.txns[2], Copy(true, 0, Some("b"), None)) == db'.txns[2];
    assert db.txns[2 := db'.txns[2]] == db'.txns;
  }

  /** Row 1 behind row 2, and nothing else hidden. */
  ghost predicate OneBehindTwo(txns: map<Id, Txn>) {
    && 1 in txns && 2 in txns
    && forall t :: t in txns ==>
         && Owner(txns[t]) == (Some(1), 1) && (txns[t].providerId.Some? ==> t == 2)
         && txns[t].duplicateOf == if t == 1 then Some(2) else None
  }

  lemma {:induction false} OneBehindTwoIsFlatForest(txns: map<Id, Txn>)
    requires OneBehindTwo(txns)
    ensures Forest(txns) && SameOwner(txns) && Flat(txns)
  {
    assert Ranked(txns, map t | t in txns :: if t == 1 then 0 else 1);
    assert 2 in VisibleIds(txns);
  }

  lemma {:induction false} OneProviderIdIsUnique(txns: map<Id, Txn>, id: Id)
    requires forall t :: t in txns && txns[t].providerId.Some? ==> t == id
    ensures ProviderIdsUnique(txns)
  {
  }

  lemma {:induction false} OneAccountIsUnique(accounts: map<Id, Account>, id: Id)
    requires accounts.Keys == {id}
    ensures ProviderAccountsUnique(accounts)
  {
  }

  lemma {:induction false} OneBehindTwoKeepsConstraints(txns: map<Id, Txn>, accounts: map<Id, Account>)
    requires OneBehindTwo(txns) && accounts.Keys == {1}
    ensures AccountsExist(txns, accounts) && PointersExist(txns) && ProviderIdsUnique(txns) && ProviderAccountsUnique(accounts)
  {
    OneProviderIdIsUnique(txns, 2);
    OneAccountIsUnique(accounts, 1);
  }

  lemma {:induction false} OneBehindTwoIsConsistent(db: Db)
    requires OneBehindTwo(db.txns) && db.accounts.Keys == {1} && OverridesExist(db.overrides, db.txns)
    ensures Consistent(db) && Flat(db.txns)
  {
    OneBehindTwoIsFlatForest(db.txns);
    OneBehindTwoKeepsConstraints(db.txns, db.accounts);
  }

  function ThroughFirst(): OverrideTable {
    map[(1, 1) := Override("Travel", None, 0)]
  }

  lemma {:induction false} BeforeReimport()
    ensures var first := Copies(false, Some(2), None, ThroughFirst());
            Consistent(first) && Flat(first.txns) && ShowsChoice(first, 1, 2)
  {
    var first := Copies(false, Some(2), None, ThroughFirst());
    assert ChosenBehind(first, 1, 2, 1);
    assert OneBehindTwo(first.txns) && OverridesExist(first.overrides, first.txns);
    OneBehindTwoIsConsistent(first);
  }

  lemma {:induction false} TwoSteps(a: Db, s: Statement, b: Db, t: Statement, c: Db)
    requires Step(a, s, b) && Step(b, t, c)
    ensures Run([a, b, c], [s, t])
  {
  }

  lemma {:induction false} ReimportRun(choice: OverrideTable)
    requires (2, 1) !in choice
    ensures Run(
              [Copies(false, Some(2), None, choice), Copies(true, Some(2), None, choice), Copies(true, Some(2), Some(3), choice)],
              [UpsertTransaction(9, Copy(true, 0, Some("b"), None)), AutoResolve(1, None)])
  {
    var a, b, c :=
      Copies(false, Some(2), None, choice), Copies(true, Some(2), None, choice), Copies(true, Some(2), Some(3), choice);
    SecondComesBack(choice);
    SecondIsHidden(choice);
    assert Step(a, UpsertTransaction(9, Copy(true, 0, Some("b"), None)), b);
    assert Step(b, AutoResolve(1, None), c);
    TwoSteps(a, UpsertTransaction(9, Copy(true, 0, Some("b"), None)), b, AutoResolve(1, None), c);
  }

  /** A chain from a flat store: the target of a pointer is imported again as pending and then hidden
      itself. The category chosen on row 1 showed on row 2 and shows on no row afterwards. */
  lemma {:induction false} ChainByReimport()
    ensures var choice := ThroughFirst();
            var first, flipped, last :=
              Copies(false, Some(2), None, choice), Copies(true, Some(2), None, choice), Copies(true, Some(2), Some(3), choice);
            && Run([first, flipped, last], [UpsertTransaction(9, Copy(true, 0, Some("b"), None)), AutoResolve(1, None)])
            && Consistent(first) && Flat(first.txns) && ShowsChoice(first, 1, 2)
            && Follow(last.txns, 1, 2) == Some(3) && Represents(last.txns, 3, 1) && !Flat(last.txns)
            && !ShowsChoice(last, 1, 3)
  {
    ReimportRun(ThroughFirst());
    BeforeReimport();
    ChainAtTheEnd(ThroughFirst());
  }

  // ----- the other way: a pending row marked behind another pending row

  /** Rows 1 and 2 are both pending and nothing is posted yet. */
  function TwoPending(first: Option<Id>): Db {
    Db(map[1 := Copy(true, 0, None, first), 2 := Copy(true, 0, Some("b"), None)], OneAccount(), map[])
  }

  lemma {:induction false} MarkedBehindPending()
    ensures Marked(TwoPending(None), 1, 1, TwoPending(Some(2)), Success(2))
  {
    var db, db' := TwoPending(None), TwoPending(Some(2));
    assert FirstCandidate(db, 1, 1, 2);
    assert Link(db.txns, map[1 := 2]) == db'.txns;
  }

  lemma {:induction false} PostedArrives()
    ensures TxnUpserted(
              TwoPending(Some(2)), 3, Copy(false, 1, None, None), Copies(true, Some(2), None, map[]), Success(()))
  {
    var db, db' := TwoPending(Some(2)), Copies(true, Some(2), None, map[]);
    assert db.txns[3 := Copy(false, 1, None, None)] == db'.txns;
  }

  /** The same chain from rows that were never hidden: the user marks one pending row as a duplicate of
      another, and auto-resolve hides that one when the posted row arrives. */
  lemma {:induction false} ChainByMark() returns (first: Db, marked: Db, arrived: Db, last: Db)
    ensures Step(first, MarkDuplicate(1, 1), marked)
    ensures exists row :: Step(marked, UpsertTransaction(3, row), arrived)
    ensures Step(arrived, AutoResolve(1, None), last)
    ensures Consistent(first) && VisibleIds(first.txns) == first.txns.Keys
    ensures Follow(last.txns, 1, 2) == Some(3) && !Flat(last.txns)
  {
    first, marked := TwoPending(None), TwoPending(Some(2));
    arrived, last := Copies(true, Some(2), None, map[]), Copies(true, Some(2), Some(3), map[]);
    MarkedBehindPending();
    PostedArrives();
    SecondIsHidden(map[]);
    ChainAtTheEnd(map[]);
    TwoPendingConsistent();
    assert Step(marked, UpsertTransaction(3, Copy(false, 1, None, None)), arrived);
  }

  lemma {:induction false} TwoPendingConsistent()
    ensures Consistent(TwoPending(None)) && VisibleIds(TwoPending(None).txns) == TwoPending(None).txns.Keys
  {
    OneProviderIdIsUnique(TwoPending(None).txns, 2);
    OneAccountIsUnique(OneAccount(), 1);
    assert Ranked(TwoPending(None).txns, map[1 := 0, 2 := 0]);
  }
}
