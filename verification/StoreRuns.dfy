/** Runs of the store: any interleaving of the modelled statements, for any users and connections. */
module StoreRuns {
  import opened Prelude
  import opened Store
  import opened PointerForest
  import opened StoreWrites
  import DuplicateMerge
  import DuplicateLinks
  import AccountMerge

  datatype Statement =
    | UpsertTransaction(id: Id, row: Txn)
    | UpsertAccount(id: Id, account: Account, now: int)
    | SetOverride(id: Id, user: Id, category: string, subcategory: Option<string>, now: int)
    | RemoveOverride(id: Id, user: Id)
    | MarkDuplicate(id: Id, user: Id)
    | AutoResolve(user: Id, scope: Option<Id>)
    | MergeAccounts(user: Id, connection: Id)
    | MergeTransactions(user: Id, connection: Id)

  ghost predicate Step(db: Db, s: Statement, db': Db) {
    match s
    case UpsertTransaction(id, row) => row.Visible() && exists r :: TxnUpserted(db, id, row, db', r)
    case UpsertAccount(id, account, now) => exists r :: AccountUpserted(db, id, account, now, db', r)
    case SetOverride(id, user, category, sub, now) => exists r :: OverrideSet(db, id, user, category, sub, now, db', r)
    case RemoveOverride(id, user) => OverrideRemoved(db, id, user, db')
    case MarkDuplicate(id, user) => exists r :: DuplicateLinks.Marked(db, user, id, db', r)
    case AutoResolve(user, scope) => exists n :: DuplicateLinks.AutoResolved(db, user, scope, db', n)
    case MergeAccounts(user, connection) => exists r :: AccountMerge.AccountsMerged(db, user, connection, db', r)
    case MergeTransactions(user, connection) => exists n :: DuplicateMerge.Merged(db, user, connection, db', n)
  }

  /** `dbs[i]` is the state before statement `i`, `dbs[i + 1]` the state after it. */
  ghost predicate Run(dbs: seq<Db>, statements: seq<Statement>) {
    |dbs| == |statements| + 1 && forall i :: 0 <= i < |statements| ==> Step(dbs[i], statements[i], dbs[i + 1])
  }

  ghost predicate Consistent(db: Db) {
    Integrity(db) && Forest(db.txns) && SameOwner(db.txns)
  }

  lemma {:induction false} StepKeepsConsistent(db: Db, s: Statement, db': Db)
    requires Consistent(db) && Step(db, s, db')
    ensures Consistent(db')
  {
    match s
    case UpsertTransaction(id, row) =>
      var r :| TxnUpserted(db, id, row, db', r);
      TxnUpsertKeepsStore(db, id, row, db', r);
    case UpsertAccount(id, account, now) =>
      var r :| AccountUpserted(db, id, account, now, db', r);
      AccountUpsertKeepsStore(db, id, account, now, db', r);
    case SetOverride(id, user, category, sub, now) =>
    case RemoveOverride(id, user) =>
    case MarkDuplicate(id, user) =>
      var r :| DuplicateLinks.Marked(db, user, id, db', r);
      DuplicateLinks.MarkKeepsStore(db, user, id, db', r);
    case AutoResolve(user, scope) =>
      var n :| DuplicateLinks.AutoResolved(db, user, scope, db', n);
      DuplicateLinks.AutoResolveKeepsStore(db, user, scope, db', n);
    case MergeAccounts(user, connection) =>
      var r :| AccountMerge.AccountsMerged(db, user, connection, db', r);
      AccountMerge.AccountMergeKeepsStore(db, user, connection, db', r);
    case MergeTransactions(user, connection) =>
      var n :| DuplicateMerge.Merged(db, user, connection, db', n);
      DuplicateMerge.MergeKeepsStore(db, user, connection, db', n);
  }

  lemma {:induction false} RunKeepsConsistent(dbs: seq<Db>, statements: seq<Statement>, i: nat)
    requires Run(dbs, statements) && Consistent(dbs[0]) && i < |dbs|
    ensures Consistent(dbs[i])
  {
    if i > 0 {
      RunKeepsConsistent(dbs, statements, i - 1);
      assert Step(dbs[i - 1], statements[i - 1], dbs[i - 1 + 1]);
      StepKeepsConsistent(dbs[i - 1], statements[i - 1], dbs[i]);
    }
  }

  /** At every point of every run, deletions and account merges included, following the duplicate
      pointers from any row never cycles and ends at exactly one row: a visible one, of the same user
      and account. */
  lemma {:induction false} EveryRowRepresented(
    dbs: seq<Db>, statements: seq<Statement>, i: nat, id: Id)
    returns (root: Id)
    requires Run(dbs, statements) && Consistent(dbs[0]) && i < |dbs| && id in dbs[i].txns
    ensures Represents(dbs[i].txns, root, id) && Owner(dbs[i].txns[root]) == Owner(dbs[i].txns[id])
    ensures forall other :: Represents(dbs[i].txns, other, id) ==> other == root
    ensures forall n: nat :: n > 0 ==> Follow(dbs[i].txns, id, n) != Some(id)
  {
    RunKeepsConsistent(dbs, statements, i);
    root := OneVisibleRepresentative(dbs[i].txns, id);
    forall n: nat | n > 0
      ensures Follow(dbs[i].txns, id, n) != Some(id)
    {
      Acyclic(dbs[i].txns, id, n);
    }
  }

  lemma {:induction false} EmptyStoreConsistent()
    ensures Consistent(Db(map[], map[], map[]))
  {
    assert Ranked(map[], map[]);
  }

  /** The merge never looks at the pointers. */
  lemma {:induction false} PointersDoNotMatter(
    db: Db, user: Id, connection: Id, links: map<Id, Id>, db': Db, a: Id, b: Id)
    requires db'.accounts == db.accounts && db'.txns == Link(db.txns, links)
    ensures DuplicateMerge.Joined(db', user, connection, a, b) ==> DuplicateMerge.Joined(db, user, connection, a, b)
  {
  }

  /** Hiding rows creates no new pair for the merge. */
  lemma {:induction false} HidingKeepsUnmatched(db: Db, user: Id, connection: Id, db': Db, count: nat, a: Id, b: Id)
    requires DuplicateLinks.AutoResolved(db, user, Some(connection), db', count)
    ensures DuplicateMerge.Joined(db', user, connection, a, b) ==> DuplicateMerge.Joined(db, user, connection, a, b)
  {
    var links: map<Id, Id> :| DuplicateLinks.MatchedPairs(db, user, Some(connection), links)
                              && DuplicateLinks.Linked(db, user, links, db') && count == |links|;
    PointersDoNotMatter(db, user, connection, links, db', a, b);
  }

  /** The two statements that end a Teller sync reach a fixed point: merging and resolving once more
      changes nothing, although resolving ran after merging. */
  lemma {:induction false} CleanupIsIdempotent(
    db: Db, user: Id, connection: Id, merged: Db, n: nat, resolved: Db, m: nat, merged': Db, n': nat, resolved': Db, m': nat)
    requires DuplicateMerge.Merged(db, user, connection, merged, n)
    requires DuplicateLinks.AutoResolved(merged, user, Some(connection), resolved, m)
    requires DuplicateMerge.Merged(resolved, user, connection, merged', n')
    requires DuplicateLinks.AutoResolved(merged', user, Some(connection), resolved', m')
    ensures resolved' == resolved && n' == 0 && m' == 0
  {
    DuplicateMerge.SurvivingCandidates(db, user, connection, merged, n);
    forall a, b
      ensures !DuplicateMerge.Joined(resolved, user, connection, a, b)
    {
      DuplicateMerge.SurvivorsNeverMatch(db, user, connection, merged, a, b);
      HidingKeepsUnmatched(merged, user, connection, resolved, m, a, b);
    }
    DuplicateMerge.NothingToMerge(resolved, user, connection);
    DuplicateMerge.MergingNothing(resolved, user, connection, merged', n');
    DuplicateLinks.AutoResolveIsIdempotent(merged, user, Some(connection), resolved, m, resolved', m');
  }

  // ----- a mark undone

  /** One charge three times: row 1 is dated a day before the other two. */
  function ThreeImports(first: Option<Id>): Db {
    Db(map[1 := DuplicateMerge.Imported("r", 2).(date := -1, duplicateOf := first),
           2 := DuplicateMerge.Imported("p", 0), 3 := DuplicateMerge.Imported("q", 1)],
       map[1 := Account(Some(1), Some(1), None, "", "depository", None, None, 0)], map[])
  }

  lemma {:induction false} MarkedBehindOldest()
    ensures DuplicateLinks.Marked(ThreeImports(None), 1, 1, ThreeImports(Some(2)), Success(2))
  {
    var db := ThreeImports(None);
    DuplicateMerge.ImportedKey("p", 0);
    DuplicateMerge.ImportedKey("q", 1);
    assert db.txns[1].Key() == db.txns[2].Key() == db.txns[3].Key();
    assert DuplicateLinks.FirstCandidate(db, 1, 1, 2);
    assert Link(db.txns, map[1 := 2]) == ThreeImports(Some(2)).txns;
  }

  lemma {:induction false} OldestGoes()
    ensures DuplicateMerge.DuplicatePairs(ThreeImports(Some(2)), 1, 1) == {(3, 2)}
    ensures DuplicateMerge.Gone(ThreeImports(Some(2)), 1, 1) == {2}
  {
    var db := ThreeImports(Some(2));
    DuplicateMerge.ImportedKey("p", 0);
    DuplicateMerge.ImportedKey("q", 1);
    assert DuplicateMerge.Candidates(db, 1, 1) == {1, 2, 3};
    assert DuplicateMerge.Joined(db, 1, 1, 2, 3) && DuplicateMerge.Joined(db, 1, 1, 3, 2);
    assert DuplicateMerge.PairOf(db.txns, 2, 3) == (3, 2) && DuplicateMerge.PairOf(db.txns, 3, 2) == (3, 2);
  }

  lemma {:induction false} UnlinkedIsForest(txns: map<Id, Txn>)
    requires forall t :: t in txns ==> txns[t].Visible()
    ensures Forest(txns) && SameOwner(txns)
  {
    assert Ranked(txns, map t | t in txns :: 0);
  }

  lemma {:induction false} UnlinkedOfOneAccount(db: Db)
    requires forall t :: t in db.txns ==> db.txns[t].Visible() && db.txns[t].account == 1
    requires db.accounts.Keys == {1} && db.overrides == map[] && ProviderIdsUnique(db.txns)
    ensures Consistent(db)
  {
    UnlinkedIsForest(db.txns);
  }

  lemma {:induction false} ThreeProviders(txns: map<Id, Txn>)
    requires txns.Keys == {1, 2, 3} && txns[1].providerId != txns[2].providerId
    requires txns[1].providerId != txns[3].providerId && txns[2].providerId != txns[3].providerId
    ensures ProviderIdsUnique(txns)
  {
  }

  lemma {:induction false} ThreeImportsConsistent()
    ensures Consistent(ThreeImports(None))
  {
    assert "r"[0] != "p"[0] && "r"[0] != "q"[0] && "p"[0] != "q"[0];
    ThreeProviders(ThreeImports(None).txns);
    UnlinkedOfOneAccount(ThreeImports(None));
  }

  lemma {:induction false} OneComesBack()
    ensures VisibleIds(ThreeImports(Some(2)).txns) == {2, 3}
    ensures VisibleIds(Without(ThreeImports(Some(2)).txns, {2})) == {1, 3}
  {
  }

  lemma {:induction false} MarkThenMerge(first: Db, marked: Db, merged: Db)
    requires DuplicateLinks.Marked(first, 1, 1, marked, Success(2)) && DuplicateMerge.Merged(marked, 1, 1, merged, 1)
    ensures Step(first, MarkDuplicate(1, 1), marked) && Step(marked, MergeTransactions(1, 1), merged)
  {
  }

  lemma {:induction false} OldestMerged() returns (merged: Db)
    ensures DuplicateMerge.Merged(ThreeImports(Some(2)), 1, 1, merged, 1)
    ensures merged.txns == Without(ThreeImports(Some(2)).txns, {2})
  {
    OldestGoes();
    ghost var marked := ThreeImports(Some(2));
    merged := marked.(txns := Without(marked.txns, {2}));
    DuplicateMerge.MergedFrom(marked, 1, 1, {(3, 2)}, {2}, merged, 1);
  }

  /** The user marks row 1 as a duplicate of row 2; the next merge prefers row 3 to row 2, and row 1 is
      listed again beside row 3. */
  lemma {:induction false} MarkUndoneByMerge() returns (first: Db, marked: Db, merged: Db)
    ensures Consistent(first) && Step(first, MarkDuplicate(1, 1), marked) && Step(marked, MergeTransactions(1, 1), merged)
    ensures VisibleIds(marked.txns) == {2, 3} && VisibleIds(merged.txns) == {1, 3}
  {
    first, marked := ThreeImports(None), ThreeImports(Some(2));
    ThreeImportsConsistent();
    MarkedBehindOldest();
    merged := OldestMerged();
    MarkThenMerge(first, marked, merged);
    OneComesBack();
  }
}
