/** The single-row writes: transaction and account upserts, and category overrides. */
module StoreWrites {
  import opened Prelude
  import opened Store
  import opened PointerForest

  /** The columns a re-import under a known provider id refreshes. */
  function Refreshed(stored: Txn, row: Txn): Txn {
    stored.(amount := row.amount, merchant := row.merchant, pending := row.pending)
  }

  /** `upsert_transaction`. The insert never names `duplicate_of_transaction_id`, so `row` is visible. */
  ghost predicate TxnUpserted(db: Db, id: Id, row: Txn, db': Db, result: Result<(), DbError>) {
    && (forall t :: t in db.txns && SameProviderId(db.txns[t], row) ==>
          result == Success(()) && db' == db.(txns := db.txns[t := Refreshed(db.txns[t], row)]))
    && ((forall t :: t in db.txns ==> !SameProviderId(db.txns[t], row)) ==>
          if id in db.txns then result == Failure(PrimaryKeyViolation) && db' == db
          else if row.account !in db.accounts then result == Failure(ForeignKeyViolation) && db' == db
          else result == Success(()) && db' == db.(txns := db.txns[id := row]))
  }

  /** A re-import of a known account: the owner stays, a missing balance keeps the old one. */
  function RefreshedAccount(stored: Account, row: Account, now: int): Account {
    row.(user := stored.user, providerAccountId := stored.providerAccountId,
         balance := if row.balance.Some? then row.balance else stored.balance, updatedAt := now)
  }

  /** `upsert_account` at time `now`. */
  ghost predicate AccountUpserted(db: Db, id: Id, row: Account, now: int, db': Db, result: Result<(), DbError>) {
    && (forall a :: a in db.accounts && SameProviderAccount(db.accounts[a], row) ==>
          result == Success(()) && db' == db.(accounts := db.accounts[a := RefreshedAccount(db.accounts[a], row, now)]))
    && ((forall a :: a in db.accounts ==> !SameProviderAccount(db.accounts[a], row)) ==>
          if id in db.accounts then result == Failure(PrimaryKeyViolation) && db' == db
          else result == Success(()) && db' == db.(accounts := db.accounts[id := row.(updatedAt := now)]))
  }

  /** `set_transaction_category_override`: a repeated choice keeps its first `created_at`. */
  ghost predicate OverrideSet(
    db: Db, id: Id, user: Id, category: string, subcategory: Option<string>, now: int, db': Db, result: Result<(), DbError>)
  {
    if id !in db.txns then result == Failure(ForeignKeyViolation) && db' == db
    else
      var created := if (id, user) in db.overrides then db.overrides[(id, user)].createdAt else now;
      && result == Success(())
      && db' == db.(overrides := db.overrides[(id, user) := Override(category, subcategory, created)])
  }

  ghost predicate OverrideRemoved(db: Db, id: Id, user: Id, db': Db) {
    db' == db.(overrides := db.overrides - {(id, user)})
  }

  /** A choice replaces the one there was and keeps the time of the first; it fails only for a row that does not
      exist, and no other choice changes. */
  lemma {:induction false} ChoiceReplacesChoice(
    db: Db, id: Id, user: Id, category: string, subcategory: Option<string>, now: int, db': Db, result: Result<(), DbError>)
    requires OverrideSet(db, id, user, category, subcategory, now, db', result)
    ensures result.Success? <==> id in db.txns
    ensures result.Failure? ==> db' == db
    ensures result.Success? ==>
              && (id, user) in db'.overrides && db'.txns == db.txns && db'.accounts == db.accounts
              && db'.overrides[(id, user)].category == category && db'.overrides[(id, user)].subcategory == subcategory
              && db'.overrides[(id, user)].createdAt
                 == (if (id, user) in db.overrides then db.overrides[(id, user)].createdAt else now)
              && db'.overrides - {(id, user)} == db.overrides - {(id, user)}
  {
  }

  lemma {:induction false} RefreshKeepsUnique(txns: map<Id, Txn>, t: Id, row: Txn)
    requires ProviderIdsUnique(txns) && t in txns && row.providerId == txns[t].providerId
    ensures ProviderIdsUnique(txns[t := row])
  {
  }

  lemma {:induction false} InsertKeepsUnique(txns: map<Id, Txn>, id: Id, row: Txn)
    requires ProviderIdsUnique(txns) && id !in txns
    requires forall t :: t in txns ==> !SameProviderId(txns[t], row)
    ensures ProviderIdsUnique(txns[id := row])
  {
  }

  lemma {:induction false} RefreshKeepsStore(db: Db, t: Id, row: Txn)
    requires Integrity(db) && Forest(db.txns) && SameOwner(db.txns) && t in db.txns
    ensures Integrity(db.(txns := db.txns[t := Refreshed(db.txns[t], row)]))
    ensures Forest(db.txns[t := Refreshed(db.txns[t], row)]) && SameOwner(db.txns[t := Refreshed(db.txns[t], row)])
  {
    var updated := db.txns[t := Refreshed(db.txns[t], row)];
    forall u | u in updated
      ensures updated[u].duplicateOf == db.txns[u].duplicateOf && Owner(updated[u]) == Owner(db.txns[u])
    {
    }
    SamePointersKeepForest(db.txns, updated);
    RefreshKeepsUnique(db.txns, t, updated[t]);
  }

  lemma {:induction false} InsertKeepsStore(db: Db, id: Id, row: Txn)
    requires Integrity(db) && Forest(db.txns) && SameOwner(db.txns)
    requires id !in db.txns && row.Visible() && row.account in db.accounts
    requires forall t :: t in db.txns ==> !SameProviderId(db.txns[t], row)
    ensures Integrity(db.(txns := db.txns[id := row]))
    ensures Forest(db.txns[id := row]) && SameOwner(db.txns[id := row])
  {
    InsertKeepsForest(db.txns, id, row);
    InsertKeepsUnique(db.txns, id, row);
  }

  lemma {:induction false} TxnUpsertKeepsStore(db: Db, id: Id, row: Txn, db': Db, result: Result<(), DbError>)
    requires TxnUpserted(db, id, row, db', result) && row.Visible()
    requires Integrity(db) && Forest(db.txns) && SameOwner(db.txns)
    ensures Integrity(db') && Forest(db'.txns) && SameOwner(db'.txns)
  {
    if t :| t in db.txns && SameProviderId(db.txns[t], row) {
      RefreshKeepsStore(db, t, row);
    } else if result.Success? {
      InsertKeepsStore(db, id, row);
    }
  }

  lemma {:induction false} AccountUpsertKeepsStore(
    db: Db, id: Id, row: Account, now: int, db': Db, result: Result<(), DbError>)
    requires AccountUpserted(db, id, row, now, db', result)
    requires Integrity(db)
    ensures Integrity(db') && db'.txns == db.txns
  {
    forall u, v | u in db'.accounts && v in db'.accounts && SameProviderAccount(db'.accounts[u], db'.accounts[v])
      ensures u == v
    {
      if u in db.accounts && v in db.accounts {
        assert SameProviderAccount(db.accounts[u], db.accounts[v]);
      }
    }
  }

  /** What an import of a known row changes: amount, merchant and the pending flag of that row. A row that was
      hidden stays hidden, and its day, account and owner are those of the first import. */
  lemma {:induction false} ReimportKeepsTheRest(db: Db, id: Id, row: Txn, db': Db, result: Result<(), DbError>, t: Id)
    requires TxnUpserted(db, id, row, db', result)
    requires t in db.txns && row.providerId.Some? && db.txns[t].providerId == row.providerId
    ensures result.Success? && db'.txns.Keys == db.txns.Keys && db'.accounts == db.accounts && db'.overrides == db.overrides
    ensures forall u :: u in db.txns && u != t ==> db'.txns[u] == db.txns[u]
    ensures db'.txns[t].amount == row.amount && db'.txns[t].merchant == row.merchant && db'.txns[t].pending == row.pending
    ensures db'.txns[t].account == db.txns[t].account && db'.txns[t].user == db.txns[t].user
    ensures db'.txns[t].date == db.txns[t].date && db'.txns[t].createdAt == db.txns[t].createdAt
    ensures db'.txns[t].duplicateOf == db.txns[t].duplicateOf && db'.txns[t].providerId == db.txns[t].providerId
  {
    assert SameProviderId(db.txns[t], row);
  }

  /** An import of a known account renews everything but its owner, and its balance only when one is given. */
  lemma {:induction false} AccountReimportKeepsOwner(
    db: Db, id: Id, row: Account, now: int, db': Db, result: Result<(), DbError>, a: Id)
    requires AccountUpserted(db, id, row, now, db', result)
    requires a in db.accounts && row.providerAccountId.Some? && db.accounts[a].providerAccountId == row.providerAccountId
    ensures result.Success? && db'.accounts.Keys == db.accounts.Keys && db'.txns == db.txns && db'.overrides == db.overrides
    ensures forall b :: b in db.accounts && b != a ==> db'.accounts[b] == db.accounts[b]
    ensures db'.accounts[a].user == db.accounts[a].user && db'.accounts[a].updatedAt == now
    ensures db'.accounts[a].balance == match row.balance { case Some(b) => Some(b) case None => db.accounts[a].balance }
    ensures db'.accounts[a].name == row.name && db'.accounts[a].mask == row.mask
    ensures db'.accounts[a].accountType == row.accountType && db'.accounts[a].connection == row.connection
  {
    assert SameProviderAccount(db.accounts[a], row);
  }
}
