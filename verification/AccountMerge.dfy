/** `merge_duplicate_provider_accounts`: accounts imported twice under one connection collapse onto one. */
module AccountMerge {
  import opened Prelude
  import opened Text
  import opened Store
  import opened PointerForest

  /** The rows of `ranked_accounts`. */
  function ProviderAccounts(db: Db, user: Id, connection: Id): set<Id> {
    set a | a in db.accounts && db.accounts[a].user == Some(user)
            && db.accounts[a].connection == Some(connection) && db.accounts[a].providerAccountId.Some?
  }

  function MaskOrEmpty(a: Account): string {
    if a.mask.Some? then a.mask.value else ""
  }

  /** One connection, the same name up to case, the same mask, a missing one being empty, and the same type. */
  predicate SamePartition(a: Account, b: Account) {
    && a.connection == b.connection && Lower(a.name) == Lower(b.name)
    && MaskOrEmpty(a) == MaskOrEmpty(b) && a.accountType == b.accountType
  }

  /** Accounts with a balance come first, then the last updated, then the largest id. */
  predicate RanksAbove(db: Db, a: Id, b: Id)
    requires a in db.accounts && b in db.accounts
  {
    var x, y := db.accounts[a], db.accounts[b];
    if x.balance.Some? != y.balance.Some? then x.balance.Some?
    else if x.updatedAt != y.updatedAt then x.updatedAt > y.updatedAt
    else a > b
  }

  predicate Beats(db: Db, user: Id, connection: Id, a: Id, b: Id) {
    && a in ProviderAccounts(db, user, connection) && b in ProviderAccounts(db, user, connection)
    && a != b && SamePartition(db.accounts[a], db.accounts[b]) && RanksAbove(db, a, b)
  }

  /** `canonical` ranks first in the partition of `a`, and `a` does not. */
  ghost predicate Canonical(db: Db, user: Id, connection: Id, canonical: Id, a: Id) {
    && Beats(db, user, connection, canonical, a)
    && forall b :: !Beats(db, user, connection, b, canonical)
  }

  ghost predicate DuplicateAccounts(db: Db, user: Id, connection: Id, links: map<Id, Id>) {
    && (forall a :: a in links ==> Canonical(db, user, connection, links[a], a))
    && (forall a, b :: Beats(db, user, connection, b, a) ==> a in links)
  }

  /** The rows of `user` move to the canonical accounts. */
  function Move(txns: map<Id, Txn>, user: Id, links: map<Id, Id>): (moved: map<Id, Txn>)
    ensures moved.Keys == txns.Keys
  {
    map t | t in txns ::
      if txns[t].user == Some(user) && txns[t].account in links
      then txns[t].(account := links[txns[t].account]) else txns[t]
  }

  /** A row of somebody else still references an account about to be deleted. */
  ghost predicate Stranded(txns: map<Id, Txn>, user: Id, links: map<Id, Id>) {
    exists t :: t in txns && txns[t].account in links && txns[t].user != Some(user)
  }

  ghost predicate MovedAndDeleted(db: Db, user: Id, links: map<Id, Id>, db': Db, result: Result<nat, DbError>) {
    if Stranded(db.txns, user, links)
    then db' == db && result == Failure(ForeignKeyViolation)
    else db' == Db(Move(db.txns, user, links), db.accounts - links.Keys, db.overrides) && result == Success(|links|)
  }

  ghost predicate AccountsMerged(db: Db, user: Id, connection: Id, db': Db, result: Result<nat, DbError>) {
    exists links: map<Id, Id> ::
      DuplicateAccounts(db, user, connection, links) && MovedAndDeleted(db, user, links, db', result)
  }

  /** Ranking is a strict total order, so a partition has one first row. */
  lemma {:induction false} RankingIsTotal(db: Db, user: Id, connection: Id, a: Id, b: Id, c: Id)
    ensures !(Beats(db, user, connection, a, b) && Beats(db, user, connection, b, a))
    ensures Beats(db, user, connection, a, b) && Beats(db, user, connection, b, c) ==> Beats(db, user, connection, a, c)
    ensures a in ProviderAccounts(db, user, connection) && b in ProviderAccounts(db, user, connection) && a != b
              && SamePartition(db.accounts[a], db.accounts[b])
        ==> Beats(db, user, connection, a, b) || Beats(db, user, connection, b, a)
  {
  }

  /** The canonical account is never deleted, and has a balance whenever some account of its partition has one. */
  lemma {:induction false} CanonicalAccount(db: Db, user: Id, connection: Id, links: map<Id, Id>, a: Id)
    requires DuplicateAccounts(db, user, connection, links) && a in links
    ensures links[a] in db.accounts && links[a] !in links
    ensures SamePartition(db.accounts[links[a]], db.accounts[a]) && db.accounts[links[a]].user == Some(user)
    ensures db.accounts[a].balance.Some? ==> db.accounts[links[a]].balance.Some?
  {
  }

  lemma {:induction false} MoveKeepsOwner(txns: map<Id, Txn>, user: Id, links: map<Id, Id>)
    requires SameOwner(txns)
    ensures SameOwner(Move(txns, user, links))
  {
  }

  lemma {:induction false} MoveKeepsPointers(txns: map<Id, Txn>, user: Id, links: map<Id, Id>)
    requires Forest(txns) && PointersExist(txns) && ProviderIdsUnique(txns)
    ensures Forest(Move(txns, user, links))
    ensures PointersExist(Move(txns, user, links)) && ProviderIdsUnique(Move(txns, user, links))
    ensures VisibleIds(Move(txns, user, links)) == VisibleIds(txns)
  {
    var moved := Move(txns, user, links);
    forall t | t in moved
      ensures moved[t].duplicateOf == txns[t].duplicateOf
    {
    }
    SamePointersKeepForest(txns, moved);
    MoveKeepsUnique(txns, user, links);
  }

  lemma {:induction false} MoveKeepsUnique(txns: map<Id, Txn>, user: Id, links: map<Id, Id>)
    requires ProviderIdsUnique(txns)
    ensures ProviderIdsUnique(Move(txns, user, links))
  {
    var moved := Move(txns, user, links);
    forall t, u | t in moved && u in moved && SameProviderId(moved[t], moved[u])
      ensures t == u
    {
      assert SameProviderId(txns[t], txns[u]);
    }
  }

  lemma {:induction false} MoveKeepsAccounts(db: Db, user: Id, links: map<Id, Id>)
    requires AccountsExist(db.txns, db.accounts) && !Stranded(db.txns, user, links)
    requires forall a :: a in links ==> links[a] in db.accounts && links[a] !in links
    ensures AccountsExist(Move(db.txns, user, links), db.accounts - links.Keys)
  {
  }

  lemma {:induction false} DeletionKeepsUnique(accounts: map<Id, Account>, gone: set<Id>)
    requires ProviderAccountsUnique(accounts)
    ensures ProviderAccountsUnique(accounts - gone)
  {
  }

  /** The merge keeps every constraint, and no row appears or disappears from view. */
  lemma {:induction false} AccountMergeKeepsStore(
    db: Db, user: Id, connection: Id, db': Db, result: Result<nat, DbError>)
    requires AccountsMerged(db, user, connection, db', result)
    requires Integrity(db) && Forest(db.txns) && SameOwner(db.txns)
    ensures Integrity(db') && Forest(db'.txns) && SameOwner(db'.txns)
    ensures VisibleIds(db'.txns) == VisibleIds(db.txns)
  {
    var links: map<Id, Id> :| DuplicateAccounts(db, user, connection, links) && MovedAndDeleted(db, user, links, db', result);
    if result.Success? {
      MoveKeepsPointers(db.txns, user, links);
      MoveKeepsOwner(db.txns, user, links);
      forall a | a in links
        ensures links[a] in db.accounts && links[a] !in links
      {
        CanonicalAccount(db, user, connection, links, a);
      }
      MoveKeepsAccounts(db, user, links);
      DeletionKeepsUnique(db.accounts, links.Keys);
      assert OverridesExist(db'.overrides, db'.txns);
    }
  }

  lemma {:induction false} NoPairLeft(db: Db, user: Id, connection: Id, links: map<Id, Id>, db': Db, a: Id, b: Id)
    requires DuplicateAccounts(db, user, connection, links) && db'.accounts == db.accounts - links.Keys
    ensures !Beats(db', user, connection, a, b)
  {
    if Beats(db', user, connection, a, b) {
      assert Beats(db, user, connection, a, b);
      assert false;
    }
  }

  lemma {:induction false} MovingNothing(db: Db, user: Id, links: map<Id, Id>, db': Db, result: Result<nat, DbError>)
    requires MovedAndDeleted(db, user, links, db', result) && links == map[]
    ensures db' == db && result == Success(0)
  {
  }

  lemma {:induction false} NothingToMerge(db: Db, user: Id, connection: Id, links: map<Id, Id>)
    requires DuplicateAccounts(db, user, connection, links) && forall a, b :: !Beats(db, user, connection, a, b)
    ensures links == map[]
  {
    assert forall a :: a in links ==> Canonical(db, user, connection, links[a], a);
    assert links.Keys == {};
  }

  /** After a successful merge no partition has two accounts left, so merging again changes nothing. */
  lemma {:induction false} AccountMergeIsIdempotent(
    db: Db, user: Id, connection: Id, db': Db, result: Result<nat, DbError>, db'': Db, again: Result<nat, DbError>)
    requires AccountsMerged(db, user, connection, db', result) && result.Success?
    requires AccountsMerged(db', user, connection, db'', again)
    ensures forall a, b :: !Beats(db', user, connection, a, b)
    ensures db'' == db' && again == Success(0)
  {
    var first: map<Id, Id> :| DuplicateAccounts(db, user, connection, first) && MovedAndDeleted(db, user, first, db', result);
    forall a, b
      ensures !Beats(db', user, connection, a, b)
    {
      NoPairLeft(db, user, connection, first, db', a, b);
    }
    var links: map<Id, Id> :| DuplicateAccounts(db', user, connection, links) && MovedAndDeleted(db', user, links, db'', again);
    NothingToMerge(db', user, connection, links);
    MovingNothing(db', user, links, db'', again);
  }
}
