/** The tables behind `repository_service.rs` and their schema constraints. */
module Store {
  import opened Prelude
  import opened Text

  /** A UUID; PostgreSQL orders them totally and so does this. */
  type Id = nat

  datatype Txn = Txn(
    account: Id,
    user: Option<Id>,
    providerId: Option<string>,
    amount: int,
    date: int,
    merchant: Option<string>,
    pending: bool,
    createdAt: int,
    duplicateOf: Option<Id>)
  {
    function Key(): string { MerchantKey(merchant) }

    /** The read queries only return rows with a null `duplicate_of_transaction_id`. */
    predicate Visible() { duplicateOf.None? }
  }

  datatype Account = Account(
    user: Option<Id>,
    connection: Option<Id>,
    providerAccountId: Option<string>,
    name: string,
    accountType: string,
    balance: Option<int>,
    mask: Option<string>,
    updatedAt: int)

  datatype Override = Override(category: string, subcategory: Option<string>, createdAt: int)

  /** Rows of `transaction_category_overrides` are keyed by (transaction_id, user_id). */
  type OverrideTable = map<(Id, Id), Override>

  datatype Db = Db(txns: map<Id, Txn>, accounts: map<Id, Account>, overrides: OverrideTable)

  datatype DbError = PrimaryKeyViolation | ForeignKeyViolation | NoDuplicateCandidate

  /** Two non-null `provider_transaction_id` values collide; nulls never do. */
  predicate SameProviderId(a: Txn, b: Txn) {
    a.providerId.Some? && a.providerId == b.providerId
  }

  predicate SameProviderAccount(a: Account, b: Account) {
    a.providerAccountId.Some? && a.providerAccountId == b.providerAccountId
  }

  ghost predicate AccountsExist(txns: map<Id, Txn>, accounts: map<Id, Account>) {
    forall t :: t in txns ==> txns[t].account in accounts
  }

  ghost predicate PointersExist(txns: map<Id, Txn>) {
    forall t :: t in txns && txns[t].duplicateOf.Some? ==> txns[t].duplicateOf.value in txns
  }

  ghost predicate OverridesExist(overrides: OverrideTable, txns: map<Id, Txn>) {
    forall k :: k in overrides ==> k.0 in txns
  }

  ghost predicate ProviderIdsUnique(txns: map<Id, Txn>) {
    forall t, u :: t in txns && u in txns && SameProviderId(txns[t], txns[u]) ==> t == u
  }

  ghost predicate ProviderAccountsUnique(accounts: map<Id, Account>) {
    forall a, b :: a in accounts && b in accounts && SameProviderAccount(accounts[a], accounts[b]) ==> a == b
  }

  /** The foreign keys and unique constraints of the schema. */
  ghost predicate Integrity(db: Db) {
    && AccountsExist(db.txns, db.accounts) && PointersExist(db.txns) && OverridesExist(db.overrides, db.txns)
    && ProviderIdsUnique(db.txns) && ProviderAccountsUnique(db.accounts)
  }

  function VisibleIds(txns: map<Id, Txn>): set<Id> {
    set t | t in txns && txns[t].Visible()
  }

  /** The row joins an account and falls in the scope of a call for `user` and an optional connection. */
  predicate InScope(db: Db, user: Id, connection: Option<Id>, id: Id) {
    && id in db.txns
    && db.txns[id].user == Some(user)
    && db.txns[id].account in db.accounts
    && (connection.None? || db.accounts[db.txns[id].account].connection == connection)
  }

  /** Every linked row points at its target. */
  function Link(txns: map<Id, Txn>, links: map<Id, Id>): (linked: map<Id, Txn>)
    ensures linked.Keys == txns.Keys
  {
    map t | t in txns :: if t in links then txns[t].(duplicateOf := Some(links[t])) else txns[t]
  }

  /** What may be left when targets that have an override keep it and the override of
      each linked row is offered to its target: the order in which a target's offers arrive is free. */
  ghost predicate OverridesOffered(before: OverrideTable, user: Id, links: map<Id, Id>, after: OverrideTable) {
    && (forall k :: k in before ==> k in after && after[k] == before[k])
    && (forall k :: k in after && k !in before ==>
          k.1 == user && exists p :: p in links && links[p] == k.0 && (p, user) in before && after[k] == before[(p, user)])
    && (forall p :: p in links && (p, user) in before ==> (links[p], user) in after)
  }

  lemma {:induction false} LinkHidesExactly(txns: map<Id, Txn>, links: map<Id, Id>)
    requires links.Keys <= VisibleIds(txns)
    ensures VisibleIds(Link(txns, links)) == VisibleIds(txns) - links.Keys
    ensures |VisibleIds(Link(txns, links))| == |VisibleIds(txns)| - |links|
  {
  }
}
