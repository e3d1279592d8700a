/** `merge_duplicate_provider_transactions`: near-identical provider rows collapse onto one. */
module DuplicateMerge {
  import opened Prelude
  import opened Text
  import opened Store
  import opened PointerForest

  /** The rows of the `transaction_candidates` sub-query. */
  function Candidates(db: Db, user: Id, connection: Id): set<Id> {
    set id | id in db.txns && InScope(db, user, Some(connection), id) && db.txns[id].providerId.Some?
  }

  /** The join condition between two different candidate rows. */
  predicate Matching(older: Txn, newer: Txn) {
    && newer.account == older.account && newer.amount == older.amount && newer.date == older.date
    && older.Key() != "" && newer.Key() != ""
    && (older.Key() == newer.Key() || Contains(newer.Key(), older.Key()) || Contains(older.Key(), newer.Key()))
  }

  predicate PrefersNewer(newer: Txn, older: Txn) {
    || |newer.Key()| > |older.Key()|
    || (|newer.Key()| == |older.Key()| && newer.createdAt >= older.createdAt)
  }

  /** One output row (canonical_id, duplicate_id) of the self-join. */
  function PairOf(txns: map<Id, Txn>, older: Id, newer: Id): (Id, Id)
    requires older in txns && newer in txns
  {
    if PrefersNewer(txns[newer], txns[older]) then (newer, older) else (older, newer)
  }

  predicate Joined(db: Db, user: Id, connection: Id, older: Id, newer: Id) {
    var candidates := Candidates(db, user, connection);
    older in candidates && newer in candidates && older != newer && Matching(db.txns[older], db.txns[newer])
  }

  function DuplicatePairs(db: Db, user: Id, connection: Id): set<(Id, Id)> {
    set older, newer |
      older in Candidates(db, user, connection) && newer in Candidates(db, user, connection) &&
      Joined(db, user, connection, older, newer) :: PairOf(db.txns, older, newer)
  }

  /** The rows the statement deletes. */
  function Gone(db: Db, user: Id, connection: Id): set<Id> {
    set pair | pair in DuplicatePairs(db, user, connection) :: pair.1
  }

  /** The override a canonical row receives: `subcategory_name` is not among the inserted columns. */
  function MovedOverride(o: Override): Override {
    Override(o.category, None, o.createdAt)
  }

  /** The override table after the insert sub-statement and the cascade of the deleted rows. */
  ghost predicate OverridesMoved(
    before: OverrideTable, user: Id, pairs: set<(Id, Id)>, gone: set<Id>, after: OverrideTable)
  {
    && (forall k :: k in after ==> k.0 !in gone)
    && (forall k :: k in before && k.0 !in gone ==> k in after && after[k] == before[k])
    && (forall k :: k in after && k !in before ==>
          k.1 == user && exists d :: (k.0, d) in pairs && (d, user) in before && after[k] == MovedOverride(before[(d, user)]))
    && (forall pair :: pair in pairs && pair.0 !in gone && (pair.1, user) in before ==> (pair.0, user) in after)
  }

  /** The whole statement: state before, state after, and the count it reports. */
  ghost predicate Merged(db: Db, user: Id, connection: Id, db': Db, count: nat) {
    var gone := Gone(db, user, connection);
    && db'.accounts == db.accounts
    && db'.txns == Without(db.txns, gone)
    && OverridesMoved(db.overrides, user, DuplicatePairs(db, user, connection), gone, db'.overrides)
    && count == |gone|
  }

  // ----- what the self-join means

  /** `canonical` is at least as good as `duplicate`: a longer key, or the same length and no older. */
  predicate Outranks(db: Db, user: Id, connection: Id, canonical: Id, duplicate: Id) {
    && Joined(db, user, connection, duplicate, canonical)
    && PrefersNewer(db.txns[canonical], db.txns[duplicate])
  }

  predicate StrictlyOutranks(db: Db, user: Id, connection: Id, canonical: Id, duplicate: Id) {
    && Outranks(db, user, connection, canonical, duplicate)
    && !PrefersNewer(db.txns[duplicate], db.txns[canonical])
  }

  lemma {:induction false} PairsAreOutranked(db: Db, user: Id, connection: Id, canonical: Id, duplicate: Id)
    ensures (canonical, duplicate) in DuplicatePairs(db, user, connection)
       <==> Outranks(db, user, connection, canonical, duplicate)
  {
  }

  /** A row is deleted exactly when some other candidate outranks it. */
  lemma {:induction false} GoneIsOutranked(db: Db, user: Id, connection: Id, id: Id)
    ensures id in Gone(db, user, connection)
       <==> exists canonical :: Outranks(db, user, connection, canonical, id)
  {
    if id in Gone(db, user, connection) {
      var pair :| pair in DuplicatePairs(db, user, connection) && pair.1 == id;
      PairsAreOutranked(db, user, connection, pair.0, id);
    }
    if canonical :| Outranks(db, user, connection, canonical, id) {
      PairsAreOutranked(db, user, connection, canonical, id);
    }
  }

  /** A better key contains the worse one. */
  lemma {:induction false} OutrankingContains(db: Db, user: Id, connection: Id, canonical: Id, duplicate: Id)
    requires Outranks(db, user, connection, canonical, duplicate)
    ensures Contains(db.txns[canonical].Key(), db.txns[duplicate].Key())
  {
    var c, d := db.txns[canonical].Key(), db.txns[duplicate].Key();
    ContainsSelf(c);
    if Contains(d, c) && |c| == |d| {
      ContainsSameLength(d, c);
    }
  }

  lemma {:induction false} OutranksTransitive(db: Db, user: Id, connection: Id, a: Id, b: Id, c: Id)
    requires Outranks(db, user, connection, a, b) && Outranks(db, user, connection, b, c) && a != c
    ensures Outranks(db, user, connection, a, c)
    ensures StrictlyOutranks(db, user, connection, a, b) || StrictlyOutranks(db, user, connection, b, c)
        ==> StrictlyOutranks(db, user, connection, a, c)
  {
    OutrankingContains(db, user, connection, a, b);
    OutrankingContains(db, user, connection, b, c);
    ContainsTransitive(db.txns[a].Key(), db.txns[b].Key(), db.txns[c].Key());
  }

  // ----- a second merge finds nothing

  lemma {:induction false} SurvivingCandidates(db: Db, user: Id, connection: Id, db': Db, count: nat)
    requires Merged(db, user, connection, db', count)
    ensures Candidates(db', user, connection) == Candidates(db, user, connection) - Gone(db, user, connection)
  {
  }

  lemma {:induction false} SurvivorsNeverMatch(db: Db, user: Id, connection: Id, db': Db, a: Id, b: Id)
    requires Candidates(db', user, connection) == Candidates(db, user, connection) - Gone(db, user, connection)
    requires db'.txns == Without(db.txns, Gone(db, user, connection))
    ensures !Joined(db', user, connection, a, b)
  {
    if Joined(db', user, connection, a, b) {
      assert Joined(db, user, connection, a, b) && Joined(db, user, connection, b, a);
      assert Outranks(db, user, connection, a, b) || Outranks(db, user, connection, b, a);
      GoneIsOutranked(db, user, connection, a);
      GoneIsOutranked(db, user, connection, b);
      assert false;
    }
  }

  lemma {:induction false} NothingToMerge(db: Db, user: Id, connection: Id)
    requires forall a, b :: !Joined(db, user, connection, a, b)
    ensures DuplicatePairs(db, user, connection) == {} && Gone(db, user, connection) == {}
  {
  }

  lemma {:induction false} MergingNothing(db: Db, user: Id, connection: Id, db': Db, count: nat)
    requires Merged(db, user, connection, db', count)
    requires DuplicatePairs(db, user, connection) == {} && Gone(db, user, connection) == {}
    ensures db' == db && count == 0
  {
  }

  /** Whatever the ties, two surviving candidates never match, so merging again changes nothing. */
  lemma {:induction false} MergeIsIdempotent(
    db: Db, user: Id, connection: Id, db': Db, count: nat, db'': Db, count': nat)
    requires Merged(db, user, connection, db', count)
    requires Merged(db', user, connection, db'', count')
    ensures db'' == db' && count' == 0
  {
    SurvivingCandidates(db, user, connection, db', count);
    forall a, b
      ensures !Joined(db', user, connection, a, b)
    {
      SurvivorsNeverMatch(db, user, connection, db', a, b);
    }
    NothingToMerge(db', user, connection);
    MergingNothing(db', user, connection, db'', count');
  }

  // ----- every deleted row keeps a representative, except on an unresolved tie

  /** `s` records the same charge as `x`, with a merchant key at least as informative. */
  predicate StandsFor(s: Txn, x: Txn) {
    s.account == x.account && s.amount == x.amount && s.date == x.date && Contains(s.Key(), x.Key())
  }

  /** Same charge, same non-empty key, same `created_at`: each of the two is then the other's duplicate. */
  predicate Tied(db: Db, user: Id, connection: Id, a: Id, b: Id) {
    && Joined(db, user, connection, a, b)
    && db.txns[a].Key() == db.txns[b].Key() && db.txns[a].createdAt == db.txns[b].createdAt
  }

  /** Every tied row has some strictly better row above it. */
  ghost predicate TiesResolved(db: Db, user: Id, connection: Id) {
    forall a, b :: Tied(db, user, connection, a, b) ==>
      exists z :: StrictlyOutranks(db, user, connection, z, a)
  }

  ghost predicate EveryDeletedRepresented(db: Db, user: Id, connection: Id) {
    forall x :: x in Gone(db, user, connection) ==>
      exists s :: s in Candidates(db, user, connection) - Gone(db, user, connection) && StandsFor(db.txns[s], db.txns[x])
  }

  /** Both rows of a tie are deleted. */
  lemma {:induction false} TieDeletesBoth(db: Db, user: Id, connection: Id, a: Id, b: Id)
    requires Tied(db, user, connection, a, b)
    ensures a in Gone(db, user, connection) && b in Gone(db, user, connection)
  {
    assert Outranks(db, user, connection, a, b) && Outranks(db, user, connection, b, a);
    GoneIsOutranked(db, user, connection, a);
    GoneIsOutranked(db, user, connection, b);
  }

  function StrictlyAbove(db: Db, user: Id, connection: Id, x: Id): set<Id> {
    set z | z in Candidates(db, user, connection) && StrictlyOutranks(db, user, connection, z, x)
  }

  /** Climbing through better rows, even deleted ones, ends at a survivor that outranks the start. */
  lemma {:induction false} FindRepresentative(db: Db, user: Id, connection: Id, x: Id) returns (s: Id)
    requires TiesResolved(db, user, connection) && x in Gone(db, user, connection)
    ensures s in Candidates(db, user, connection) - Gone(db, user, connection)
    ensures Outranks(db, user, connection, s, x) && StandsFor(db.txns[s], db.txns[x])
    decreases StrictlyAbove(db, user, connection, x)
  {
    GoneIsOutranked(db, user, connection, x);
    var y :| Outranks(db, user, connection, y, x);
    if !StrictlyOutranks(db, user, connection, y, x) {
      OutrankingContains(db, user, connection, y, x);
      ContainsSameLength(db.txns[y].Key(), db.txns[x].Key());
      assert Tied(db, user, connection, x, y);
      y :| StrictlyOutranks(db, user, connection, y, x);
    }
    OutrankingContains(db, user, connection, y, x);
    if y !in Gone(db, user, connection) {
      s := y;
    } else {
      forall z | z in StrictlyAbove(db, user, connection, y)
        ensures z in StrictlyAbove(db, user, connection, x)
      {
        OutranksTransitive(db, user, connection, z, y, x);
      }
      assert y in StrictlyAbove(db, user, connection, x) && y !in StrictlyAbove(db, user, connection, y);
      s := FindRepresentative(db, user, connection, y);
      OutranksTransitive(db, user, connection, s, y, x);
      OutrankingContains(db, user, connection, s, x);
    }
  }

  lemma {:induction false} UnresolvedTieLosesRow(db: Db, user: Id, connection: Id, a: Id, b: Id, s: Id)
    requires Tied(db, user, connection, a, b)
    requires forall z :: !StrictlyOutranks(db, user, connection, z, a)
    requires s in Candidates(db, user, connection) && StandsFor(db.txns[s], db.txns[a])
    ensures s in Gone(db, user, connection)
  {
    TieDeletesBoth(db, user, connection, a, b);
    if s != a {
      assert Joined(db, user, connection, a, s) && Joined(db, user, connection, s, a);
      assert !StrictlyOutranks(db, user, connection, s, a);
      assert Outranks(db, user, connection, a, s);
      GoneIsOutranked(db, user, connection, s);
    }
  }

  /** The merge never loses a charge if and only if every tie has a strictly better row above it. */
  lemma {:induction false} RepresentedIffTiesResolved(db: Db, user: Id, connection: Id)
    ensures EveryDeletedRepresented(db, user, connection) <==> TiesResolved(db, user, connection)
  {
    if TiesResolved(db, user, connection) {
      forall x | x in Gone(db, user, connection)
        ensures exists s :: s in Candidates(db, user, connection) - Gone(db, user, connection)
                            && StandsFor(db.txns[s], db.txns[x])
      {
        var s := FindRepresentative(db, user, connection, x);
      }
    }
    if EveryDeletedRepresented(db, user, connection) {
      forall a, b | Tied(db, user, connection, a, b)
        ensures exists z :: StrictlyOutranks(db, user, connection, z, a)
      {
        TieDeletesBoth(db, user, connection, a, b);
        var s :| s in Candidates(db, user, connection) - Gone(db, user, connection) && StandsFor(db.txns[s], db.txns[a]);
        if forall z :: !StrictlyOutranks(db, user, connection, z, a) {
          UnresolvedTieLosesRow(db, user, connection, a, b, s);
          assert false;
        }
      }
    }
  }

  lemma {:induction false} TwinsAreTied(db: Db, user: Id, connection: Id, a: Id, b: Id)
    requires a != b && a in Candidates(db, user, connection) && b in Candidates(db, user, connection)
    requires db.txns[b] == db.txns[a].(providerId := db.txns[b].providerId) && db.txns[a].Key() != ""
    ensures Tied(db, user, connection, a, b)
  {
  }

  lemma {:induction false} PairHasTwo(s: set<Id>, a: Id, b: Id)
    requires a != b && a in s && b in s && forall x :: x in s ==> x == a || x == b
    ensures |s| == 2
  {
    assert s == {a, b};
  }

  lemma {:induction false} WithoutAll(txns: map<Id, Txn>, gone: set<Id>)
    requires forall x :: x in txns ==> x in gone
    ensures Without(txns, gone) == map[]
  {
  }

  lemma {:induction false} TwoRowsGone(db: Db, user: Id, connection: Id, a: Id, b: Id)
    requires db.txns.Keys == {a, b} && Tied(db, user, connection, a, b)
    ensures |Gone(db, user, connection)| == 2 && Without(db.txns, Gone(db, user, connection)) == map[]
  {
    TieDeletesBoth(db, user, connection, a, b);
    forall x | x in Gone(db, user, connection)
      ensures x in db.txns
    {
      GoneIsOutranked(db, user, connection, x);
    }
    PairHasTwo(Gone(db, user, connection), a, b);
    WithoutAll(db.txns, Gone(db, user, connection));
  }

  /** Two copies of one charge imported at the same instant are both deleted: nothing of it is left. */
  lemma {:induction false} SimultaneousCopiesVanish(db: Db, user: Id, connection: Id, a: Id, b: Id, db': Db, count: nat)
    requires a != b && db.txns.Keys == {a, b}
    requires a in Candidates(db, user, connection) && b in Candidates(db, user, connection)
    requires db.txns[b] == db.txns[a].(providerId := db.txns[b].providerId) && db.txns[a].Key() != ""
    requires Merged(db, user, connection, db', count)
    ensures db'.txns == map[] && count == 2
  {
    TwinsAreTied(db, user, connection, a, b);
    TwoRowsGone(db, user, connection, a, b);
  }

  // ----- what a merge carries across

  /** Under resolved ties, a deleted row leaves a survivor for the same charge that has an override
      whenever the deleted row had one, and whose visible representative has the same user and account. */
  lemma {:induction false} DeletedRowStaysVisible(
    db: Db, user: Id, connection: Id, db': Db, count: nat, x: Id)
    returns (s: Id, root: Id)
    requires Merged(db, user, connection, db', count)
    requires Forest(db.txns) && SameOwner(db.txns)
    requires TiesResolved(db, user, connection) && x in Gone(db, user, connection)
    ensures s in db'.txns && StandsFor(db'.txns[s], db.txns[x])
    ensures (x, user) in db.overrides ==> (s, user) in db'.overrides
    ensures Represents(db'.txns, root, s) && Owner(db'.txns[root]) == Owner(db.txns[x])
  {
    s := FindRepresentative(db, user, connection, x);
    PairsAreOutranked(db, user, connection, s, x);
    if (x, user) in db.overrides {
      assert (s, x) in DuplicatePairs(db, user, connection) && (s, x).0 !in Gone(db, user, connection);
    }
    WithoutKeepsForest(db.txns, Gone(db, user, connection));
    root := OneVisibleRepresentative(db'.txns, s);
  }

  /** A hidden row that is kept stays hidden, behind the same row, if and only if nothing outranks that row;
      otherwise the merge undoes whatever hid it, and the row is listed beside the survivor. */
  lemma {:induction false} MarkSurvivesMergeIff(db: Db, user: Id, connection: Id, db': Db, count: nat, x: Id, q: Id)
    requires Merged(db, user, connection, db', count)
    requires x in db'.txns && x in db.txns && db.txns[x].duplicateOf == Some(q)
    ensures db'.txns[x].duplicateOf == Some(q) <==> forall z :: !Outranks(db, user, connection, z, q)
    ensures x in VisibleIds(db'.txns) <==> exists z :: Outranks(db, user, connection, z, q)
  {
    GoneIsOutranked(db, user, connection, q);
  }

  lemma {:induction false} MovedFrom(
    before: OverrideTable, user: Id, pairs: set<(Id, Id)>, gone: set<Id>, after: OverrideTable, k: (Id, Id))
    returns (d: Id)
    requires OverridesMoved(before, user, pairs, gone, after) && k in after && k !in before
    ensures k.1 == user && k.0 !in gone && (k.0, d) in pairs && (d, user) in before
    ensures after[k] == MovedOverride(before[(d, user)])
  {
    d :| (k.0, d) in pairs && (d, user) in before && after[k] == MovedOverride(before[(d, user)]);
  }

  /** A survivor that gains an override gains it from a row it outranks, category and time intact,
      but the subcategory the user chose is gone. */
  lemma {:induction false} MovedOverrideLosesSubcategory(
    db: Db, user: Id, connection: Id, db': Db, count: nat, k: (Id, Id))
    returns (d: Id)
    requires Merged(db, user, connection, db', count)
    requires k in db'.overrides && k !in db.overrides
    ensures k.1 == user && Outranks(db, user, connection, k.0, d) && (d, user) in db.overrides
    ensures db'.overrides[k].category == db.overrides[(d, user)].category
    ensures db'.overrides[k].createdAt == db.overrides[(d, user)].createdAt
    ensures db'.overrides[k] == db.overrides[(d, user)] <==> db.overrides[(d, user)].subcategory.None?
  {
    d := MovedFrom(db.overrides, user, DuplicatePairs(db, user, connection), Gone(db, user, connection), db'.overrides, k);
    PairsAreOutranked(db, user, connection, k.0, d);
  }

  lemma {:induction false} MovedOverridesHaveRows(
    db: Db, user: Id, pairs: set<(Id, Id)>, gone: set<Id>, after: OverrideTable)
    requires OverridesMoved(db.overrides, user, pairs, gone, after)
    requires forall k :: k in db.overrides ==> k.0 in db.txns
    requires forall pair :: pair in pairs ==> pair.0 in db.txns
    ensures forall k :: k in after ==> k.0 in Without(db.txns, gone)
  {
  }

  lemma {:induction false} PairsAreRows(db: Db, user: Id, connection: Id)
    ensures forall pair :: pair in DuplicatePairs(db, user, connection) ==> pair.0 in db.txns
  {
  }

  lemma {:induction false} WithoutKeepsConstraints(db: Db, gone: set<Id>)
    requires AccountsExist(db.txns, db.accounts) && PointersExist(db.txns) && ProviderIdsUnique(db.txns)
    ensures AccountsExist(Without(db.txns, gone), db.accounts) && PointersExist(Without(db.txns, gone))
    ensures ProviderIdsUnique(Without(db.txns, gone))
  {
  }

  lemma {:induction false} MergeKeepsStore(db: Db, user: Id, connection: Id, db': Db, count: nat)
    requires Merged(db, user, connection, db', count)
    requires Integrity(db) && Forest(db.txns) && SameOwner(db.txns)
    ensures Integrity(db') && Forest(db'.txns) && SameOwner(db'.txns)
  {
    var pairs, gone := DuplicatePairs(db, user, connection), Gone(db, user, connection);
    WithoutKeepsForest(db.txns, gone);
    PairsAreRows(db, user, connection);
    MovedOverridesHaveRows(db, user, pairs, gone, db'.overrides);
    WithoutKeepsConstraints(db, gone);
  }

  // ----- a subcategory lost

  function Imported(provider: string, createdAt: int): Txn {
    Txn(1, Some(1), Some(provider), 500, 0, Some("a"), false, createdAt, None)
  }

  /** Two imports of one charge; the user put the older one under Travel, Hotels. */
  function BeforeMerge(): Db {
    Db(map[1 := Imported("p", 0), 2 := Imported("q", 1)],
       map[1 := Account(Some(1), Some(1), None, "", "depository", None, None, 0)],
       map[(1, 1) := Override("Travel", Some("Hotels"), 0)])
  }

  function AfterMerge(): Db {
    BeforeMerge().(txns := map[2 := Imported("q", 1)], overrides := map[(2, 1) := Override("Travel", None, 0)])
  }

  lemma {:induction false} ImportedKey(provider: string, createdAt: int)
    ensures Imported(provider, createdAt).Key() == "a"
  {
    assert "a"[1..] == "";
    assert Alphanumeric("a") == "a";
    assert Lower("a") == "a";
  }

  lemma {:induction false} OnePair()
    ensures DuplicatePairs(BeforeMerge(), 1, 1) == {(2, 1)} && Gone(BeforeMerge(), 1, 1) == {1}
  {
    var db := BeforeMerge();
    ImportedKey("p", 0);
    ImportedKey("q", 1);
    assert Candidates(db, 1, 1) == {1, 2};
    assert Joined(db, 1, 1, 1, 2) && Joined(db, 1, 1, 2, 1);
    assert PairOf(db.txns, 1, 2) == (2, 1) && PairOf(db.txns, 2, 1) == (2, 1);
    assert DuplicatePairs(db, 1, 1) == {(2, 1)};
  }

  lemma {:induction false} TravelMoves()
    ensures OverridesMoved(BeforeMerge().overrides, 1, {(2, 1)}, {1}, AfterMerge().overrides)
  {
    assert (2, 1) in {(2, 1)};
  }

  lemma {:induction false} MergedFrom(
    db: Db, user: Id, connection: Id, pairs: set<(Id, Id)>, gone: set<Id>, db': Db, count: nat)
    requires DuplicatePairs(db, user, connection) == pairs && Gone(db, user, connection) == gone
    requires db'.accounts == db.accounts && db'.txns == Without(db.txns, gone) && count == |gone|
    requires OverridesMoved(db.overrides, user, pairs, gone, db'.overrides)
    ensures Merged(db, user, connection, db', count)
  {
  }

  lemma {:induction false} OlderRowGoes()
    ensures AfterMerge().txns == Without(BeforeMerge().txns, {1}) && AfterMerge().accounts == BeforeMerge().accounts
  {
  }

  /** After the merge the newer row is under Travel alone. */
  lemma {:induction false} HotelsLost()
    ensures Merged(BeforeMerge(), 1, 1, AfterMerge(), 1)
  {
    OnePair();
    TravelMoves();
    OlderRowGoes();
    assert |{1}| == 1;
    MergedFrom(BeforeMerge(), 1, 1, {(2, 1)}, {1}, AfterMerge(), 1);
  }
}
