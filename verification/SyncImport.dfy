/** The rows a sync brings in: which statements it runs against the tables, and what they leave there. */
module SyncImport {
  import opened Prelude
  import opened Store
  import opened StoreRuns
  import opened StoreWrites
  import opened RepositoryService
  import opened SyncProtocol
  import DuplicateMerge
  import DuplicateLinks

  /** The id of an account that is not known. */
  const NIL: Id := 0

  /** An account as the provider delivers it; `written` says whether the database takes the write. */
  datatype FetchedAccount = FetchedAccount(id: Id, account: Account, written: bool)

  datatype FetchedTxn = FetchedTxn(id: Id, txn: Txn, providerAccount: Option<string>, written: bool)

  /** Which of the statements that end a sync get through. */
  datatype Cleanup = Cleanup(accountsMerged: bool, txnsMerged: bool, resolved: bool)

  // ----- the run a sync performs

  ghost predicate Leads(first: Db, dbs: seq<Db>, statements: seq<Statement>, last: Db) {
    Run(dbs, statements) && dbs[0] == first && dbs[|dbs| - 1] == last
  }

  /** A sequence of states joined by labelled steps. */
  ghost predicate Chained<S(!new), L(!new)>(step: (S, L, S) -> bool, states: seq<S>, labels: seq<L>) {
    |states| == |labels| + 1 && forall i :: 0 <= i < |labels| ==> step(states[i], labels[i], states[i + 1])
  }

  lemma {:induction false} ChainedThrough<S(!new), L(!new)>(
    step: (S, L, S) -> bool, states: seq<S>, labels: seq<L>, states': seq<S>, labels': seq<L>)
    requires Chained(step, states, labels) && Chained(step, states', labels')
    requires states[|states| - 1] == states'[0]
    ensures Chained(step, states + states'[1..], labels + labels')
  {
    var all, run := states + states'[1..], labels + labels';
    forall i | 0 <= i < |run|
      ensures step(all[i], run[i], all[i + 1])
    {
      if i >= |labels| {
        var k := i - |labels|;
        assert all[i] == states'[k] && all[i + 1] == states'[k + 1];
      }
    }
  }

  lemma {:induction false} LeadsThrough(
    first: Db, dbs: seq<Db>, statements: seq<Statement>, middle: Db,
    dbs': seq<Db>, statements': seq<Statement>, last: Db)
    requires Leads(first, dbs, statements, middle) && Leads(middle, dbs', statements', last)
    ensures Leads(first, dbs + dbs'[1..], statements + statements', last)
  {
    ChainedThrough((a, s, b) => Step(a, s, b), dbs, statements, dbs', statements');
  }

  lemma {:induction false} LeadsOn(
    first: Db, dbs: seq<Db>, statements: seq<Statement>, last: Db, s: Statement, next: Db)
    requires Leads(first, dbs, statements, last) && Step(last, s, next)
    ensures Leads(first, dbs + [next], statements + [s], next)
  {
    LeadsThrough(first, dbs, statements, last, [last, next], [s], next);
  }

  // ----- accounts

  function OwnedAccount(a: Account, user: Id, connection: Id): Account {
    a.(user := Some(user), connection := Some(connection))
  }

  function AccountStatements(user: Id, connection: Id, accounts: seq<FetchedAccount>, now: int): seq<Statement> {
    if accounts == [] then []
    else
      var n := |accounts| - 1;
      var a := accounts[n];
      AccountStatements(user, connection, accounts[..n], now) +
      (if a.written then [UpsertAccount(a.id, OwnedAccount(a.account, user, connection), now)] else [])
  }

  method ImportAccounts(repo: Repository, user: Id, connection: Id, accounts: seq<FetchedAccount>, now: int)
    returns (ghost dbs: seq<Db>)
    requires Consistent(repo.State())
    modifies repo
    ensures Consistent(repo.State())
    ensures Leads(old(repo.State()), dbs, AccountStatements(user, connection, accounts, now), repo.State())
  {
    ghost var first := repo.State();
    dbs := [first];
    for i := 0 to |accounts|
      invariant Consistent(repo.State())
      invariant Leads(first, dbs, AccountStatements(user, connection, accounts[..i], now), repo.State())
    {
      assert accounts[..i + 1][..i] == accounts[..i];
      if accounts[i].written {
        ghost var before := repo.State();
        var row := OwnedAccount(accounts[i].account, user, connection);
        var result := repo.UpsertAccount(accounts[i].id, row, now);
        ghost var s := UpsertAccount(accounts[i].id, row, now);
        StepKeepsConsistent(before, s, repo.State());
        LeadsOn(first, dbs, AccountStatements(user, connection, accounts[..i], now), before, s, repo.State());
        dbs := dbs + [repo.State()];
      }
    }
    assert accounts[..|accounts|] == accounts;
  }

  // ----- transactions

  /** Plaid rows look for their account among all of the user's, Teller rows among the connection's. */
  predicate IsAccountOf(p: Provider, accounts: map<Id, Account>, user: Id, connection: Id, name: string, a: Id) {
    && a in accounts && accounts[a].user == Some(user) && accounts[a].providerAccountId == Some(name)
    && (p.Teller? ==> accounts[a].connection == Some(connection))
  }

  ghost function KnownAccount(p: Provider, accounts: map<Id, Account>, user: Id, connection: Id, t: FetchedTxn): Option<Id> {
    if t.providerAccount.Some? && exists a :: IsAccountOf(p, accounts, user, connection, t.providerAccount.value, a)
    then
      var a :| IsAccountOf(p, accounts, user, connection, t.providerAccount.value, a);
      Some(a)
    else None
  }

  /** Where a row goes; None when it is skipped. A Plaid row of an unknown account keeps the one it has. */
  ghost function TargetOf(p: Provider, accounts: map<Id, Account>, user: Id, connection: Id, t: FetchedTxn): Option<Id> {
    var known := KnownAccount(p, accounts, user, connection, t);
    if known.None? && p.Plaid? && t.txn.account != NIL then Some(t.txn.account) else known
  }

  function OwnedTxn(t: Txn, user: Id, account: Id): Txn {
    t.(user := Some(user), account := account, duplicateOf := None)
  }

  /** The statement run for one row, if any. */
  ghost function RowStatements(
    p: Provider, accounts: map<Id, Account>, user: Id, connection: Id, t: FetchedTxn): seq<Statement>
  {
    var target := TargetOf(p, accounts, user, connection, t);
    if target.Some? && t.written then [UpsertTransaction(t.id, OwnedTxn(t.txn, user, target.value))] else []
  }

  ghost function TxnStatements(
    p: Provider, accounts: map<Id, Account>, user: Id, connection: Id, txns: seq<FetchedTxn>): seq<Statement>
  {
    if txns == [] then []
    else
      var n := |txns| - 1;
      TxnStatements(p, accounts, user, connection, txns[..n]) + RowStatements(p, accounts, user, connection, txns[n])
  }

  /** The account of this user that the provider names; Teller asks for one of this connection. */
  predicate BelongsOn(p: Provider, accounts: map<Id, Account>, user: Id, connection: Id, t: FetchedTxn, a: Id) {
    && a in accounts && t.providerAccount.Some? && accounts[a].providerAccountId == t.providerAccount
    && accounts[a].user == Some(user) && (p == Teller ==> accounts[a].connection == Some(connection))
  }

  /** A fetched row is written to the account it belongs on, as a visible row of the user. Without such an account
      Plaid writes it to the account it already names, and Teller skips it; nor is a row written that the
      database does not take. */
  lemma {:induction false} RowIsWrittenTo(
    p: Provider, accounts: map<Id, Account>, user: Id, connection: Id, t: FetchedTxn, a: Id)
    requires ProviderAccountsUnique(accounts)
    ensures !t.written ==> RowStatements(p, accounts, user, connection, t) == []
    ensures t.written && BelongsOn(p, accounts, user, connection, t, a) ==>
              RowStatements(p, accounts, user, connection, t) == [WrittenTo(t, user, a)]
    ensures t.written && !HasPlace(p, accounts, user, connection, t) ==>
              RowStatements(p, accounts, user, connection, t)
              == if p == Plaid && t.txn.account != 0 then [WrittenTo(t, user, t.txn.account)] else []
  {
    if t.providerAccount.Some? {
      forall b
        ensures IsAccountOf(p, accounts, user, connection, t.providerAccount.value, b) <==>
                BelongsOn(p, accounts, user, connection, t, b)
        ensures BelongsOn(p, accounts, user, connection, t, a) && BelongsOn(p, accounts, user, connection, t, b) ==> b == a
      {
        assert BelongsOn(p, accounts, user, connection, t, a) && BelongsOn(p, accounts, user, connection, t, b) ==>
            SameProviderAccount(accounts[b], accounts[a]);
      }
    }
  }

  ghost predicate HasPlace(p: Provider, accounts: map<Id, Account>, user: Id, connection: Id, t: FetchedTxn) {
    exists b :: BelongsOn(p, accounts, user, connection, t, b)
  }

  function WrittenTo(t: FetchedTxn, user: Id, a: Id): Statement {
    UpsertTransaction(t.id, t.txn.(user := Some(user), account := a, duplicateOf := None))
  }

  method FindAccount(p: Provider, repo: Repository, user: Id, connection: Id, t: FetchedTxn) returns (a: Option<Id>)
    requires ProviderAccountsUnique(repo.accounts)
    ensures a == TargetOf(p, repo.accounts, user, connection, t)
  {
    a := None;
    if t.providerAccount.Some? {
      var name := t.providerAccount.value;
      if b :| b in repo.accounts && IsAccountOf(p, repo.accounts, user, connection, name, b) {
        assert forall c :: IsAccountOf(p, repo.accounts, user, connection, name, c) ==>
            SameProviderAccount(repo.accounts[c], repo.accounts[b]);
        a := Some(b);
      }
    }
    if a.None? && p.Plaid? && t.txn.account != NIL {
      a := Some(t.txn.account);
    }
  }

  ghost predicate HasProviderId(db: Db, id: Option<string>) {
    id.Some? ==> exists t :: t in db.txns && db.txns[t].providerId == id
  }

  lemma {:induction false} UpsertStores(db: Db, id: Id, row: Txn, db': Db, r: Result<(), DbError>)
    requires TxnUpserted(db, id, row, db', r) && r.Success?
    ensures HasProviderId(db', row.providerId)
  {
    if t :| t in db.txns && SameProviderId(db.txns[t], row) {
      assert db'.txns[t].providerId == row.providerId;
    } else {
      assert db'.txns[id].providerId == row.providerId;
    }
  }

  lemma {:induction false} UpsertKeepsStored(
    db: Db, id: Id, row: Txn, db': Db, r: Result<(), DbError>, other: Option<string>)
    requires TxnUpserted(db, id, row, db', r) && HasProviderId(db, other)
    ensures HasProviderId(db', other)
  {
    if other.Some? {
      var u :| u in db.txns && db.txns[u].providerId == other;
      assert u in db'.txns && db'.txns[u].providerId == other;
    }
  }

  lemma {:induction false} UpsertKeepsAccounts(db: Db, id: Id, row: Txn, db': Db, r: Result<(), DbError>)
    requires TxnUpserted(db, id, row, db', r)
    ensures db'.accounts == db.accounts
  {
  }

  /** A row counts as synced: for Teller when it was stored, for Plaid also when it was not. */
  ghost predicate Reported(p: Provider, accounts: map<Id, Account>, user: Id, connection: Id, t: FetchedTxn) {
    TargetOf(p, accounts, user, connection, t).Some? && (p.Teller? ==> t.written)
  }

  lemma {:induction false} AllStayStored(
    db: Db, id: Id, row: Txn, db': Db, r: Result<(), DbError>, synced: seq<FetchedTxn>)
    requires TxnUpserted(db, id, row, db', r)
    ensures forall t :: t in synced && HasProviderId(db, t.txn.providerId) ==> HasProviderId(db', t.txn.providerId)
  {
    forall t | t in synced && HasProviderId(db, t.txn.providerId)
      ensures HasProviderId(db', t.txn.providerId)
    {
      UpsertKeepsStored(db, id, row, db', r, t.txn.providerId);
    }
  }

  method WriteRow(repo: Repository, id: Id, row: Txn, ghost synced: seq<FetchedTxn>) returns (stored: bool)
    requires Consistent(repo.State()) && row.Visible()
    modifies repo
    ensures Consistent(repo.State()) && repo.accounts == old(repo.accounts)
    ensures Step(old(repo.State()), UpsertTransaction(id, row), repo.State())
    ensures stored ==> HasProviderId(repo.State(), row.providerId)
    ensures forall t :: t in synced && HasProviderId(old(repo.State()), t.txn.providerId) ==>
              HasProviderId(repo.State(), t.txn.providerId)
  {
    ghost var before := repo.State();
    var result := repo.UpsertTransaction(id, row);
    stored := result.Success?;
    StepKeepsConsistent(before, UpsertTransaction(id, row), repo.State());
    UpsertKeepsAccounts(before, id, row, repo.State(), result);
    AllStayStored(before, id, row, repo.State(), result, synced);
    if stored {
      UpsertStores(before, id, row, repo.State(), result);
    }
  }

  ghost predicate AllStored(db: Db, synced: seq<FetchedTxn>) {
    forall t :: t in synced ==> HasProviderId(db, t.txn.providerId)
  }

  /** The rows of `done` that count as synced; a Teller row only when it was stored. */
  ghost predicate SyncedOf(
    p: Provider, accounts: map<Id, Account>, user: Id, connection: Id, done: seq<FetchedTxn>, synced: seq<FetchedTxn>)
  {
    && (forall t :: t in synced ==> t in done && Reported(p, accounts, user, connection, t))
    && (forall t :: t in done && p.Plaid? && Reported(p, accounts, user, connection, t) ==> t in synced)
  }

  /** Where the loop stands after the rows of `done`. */
  ghost predicate Imported(
    p: Provider, first: Db, accounts: map<Id, Account>, user: Id, connection: Id, done: seq<FetchedTxn>, dbs: seq<Db>,
    now: Db, synced: seq<FetchedTxn>)
  {
    && Leads(first, dbs, TxnStatements(p, accounts, user, connection, done), now)
    && SyncedOf(p, accounts, user, connection, done, synced) && (p.Teller? ==> AllStored(now, synced))
  }

  lemma {:induction false} StatementsAtTheEnd(
    p: Provider, accounts: map<Id, Account>, user: Id, connection: Id, done: seq<FetchedTxn>, t: FetchedTxn)
    ensures TxnStatements(p, accounts, user, connection, done + [t])
         == TxnStatements(p, accounts, user, connection, done) + RowStatements(p, accounts, user, connection, t)
  {
    assert (done + [t])[..|done|] == done;
  }

  lemma {:induction false} SyncedAtTheEnd(
    p: Provider, accounts: map<Id, Account>, user: Id, connection: Id, done: seq<FetchedTxn>, t: FetchedTxn,
    synced: seq<FetchedTxn>)
    requires SyncedOf(p, accounts, user, connection, done, synced)
    ensures !Reported(p, accounts, user, connection, t) || p.Teller? ==>
              SyncedOf(p, accounts, user, connection, done + [t], synced)
    ensures Reported(p, accounts, user, connection, t) ==> SyncedOf(p, accounts, user, connection, done + [t], synced + [t])
  {
  }

  /** One turn of the loop. */
  method ImportRow(
    p: Provider, repo: Repository, user: Id, connection: Id, t: FetchedTxn, synced: seq<FetchedTxn>,
    ghost first: Db, ghost done: seq<FetchedTxn>, ghost dbs: seq<Db>)
    returns (synced': seq<FetchedTxn>, ghost dbs': seq<Db>)
    requires Consistent(repo.State())
    requires Imported(p, first, repo.accounts, user, connection, done, dbs, repo.State(), synced)
    modifies repo
    ensures Consistent(repo.State()) && repo.accounts == old(repo.accounts)
    ensures Imported(p, first, repo.accounts, user, connection, done + [t], dbs', repo.State(), synced')
  {
    ghost var accounts := repo.accounts;
    StatementsAtTheEnd(p, accounts, user, connection, done, t);
    SyncedAtTheEnd(p, accounts, user, connection, done, t, synced);
    synced', dbs' := synced, dbs;
    var target := FindAccount(p, repo, user, connection, t);
    if target.None? {
      return;
    }
    var stored := false;
    if t.written {
      ghost var before := repo.State();
      var row := OwnedTxn(t.txn, user, target.value);
      stored := WriteRow(repo, t.id, row, synced);
      LeadsOn(
        first, dbs, TxnStatements(p, accounts, user, connection, done), before, UpsertTransaction(t.id, row), repo.State());
      dbs' := dbs + [repo.State()];
    }
    if p.Plaid? || stored {
      synced' := synced + [t];
    }
  }

  /** The loop over the fetched rows. */
  method ImportTxns(p: Provider, repo: Repository, user: Id, connection: Id, txns: seq<FetchedTxn>)
    returns (synced: seq<FetchedTxn>, ghost dbs: seq<Db>)
    requires Consistent(repo.State())
    modifies repo
    ensures Consistent(repo.State()) && repo.accounts == old(repo.accounts)
    ensures Leads(old(repo.State()), dbs, TxnStatements(p, old(repo.accounts), user, connection, txns), repo.State())
    ensures forall t :: t in synced ==> t in txns && Reported(p, old(repo.accounts), user, connection, t)
    ensures forall t :: t in txns && p.Plaid? && Reported(p, old(repo.accounts), user, connection, t) ==> t in synced
    ensures forall t :: t in synced && p.Teller? ==> HasProviderId(repo.State(), t.txn.providerId)
  {
    ghost var first := repo.State();
    dbs := [first];
    synced := [];
    for i := 0 to |txns|
      invariant Consistent(repo.State()) && repo.accounts == old(repo.accounts)
      invariant Imported(p, first, repo.accounts, user, connection, txns[..i], dbs, repo.State(), synced)
    {
      synced, dbs := ImportRow(p, repo, user, connection, txns[i], synced, first, txns[..i], dbs);
      assert txns[..i + 1] == txns[..i] + [txns[i]];
    }
    assert txns[..|txns|] == txns;
  }

  // ----- the statements around the rows

  /** No pair left to merge on the connection, and no pending row with a posted match. */
  ghost predicate Clean(p: Provider, c: Cleanup, db: Db, user: Id, connection: Id) {
    && (p.Teller? && c.txnsMerged && c.resolved ==> forall a, b :: !DuplicateMerge.Joined(db, user, connection, a, b))
    && (c.resolved ==> forall q :: !DuplicateLinks.HasMatch(db, user, Some(connection), q))
  }

  function CleanupStatements(p: Provider, c: Cleanup, user: Id, connection: Id): seq<Statement> {
    (if p.Teller? && c.txnsMerged then [MergeTransactions(user, connection)] else []) +
    (if c.resolved then [AutoResolve(user, Some(connection))] else [])
  }

  lemma {:induction false} MergedThenResolvedIsClean(
    db: Db, merged: Db, resolved: Db, n: nat, m: nat, user: Id, connection: Id)
    requires DuplicateMerge.Merged(db, user, connection, merged, n)
    requires DuplicateLinks.AutoResolved(merged, user, Some(connection), resolved, m)
    ensures forall a, b :: !DuplicateMerge.Joined(resolved, user, connection, a, b)
  {
    DuplicateMerge.SurvivingCandidates(db, user, connection, merged, n);
    forall a, b
      ensures !DuplicateMerge.Joined(resolved, user, connection, a, b)
    {
      DuplicateMerge.SurvivorsNeverMatch(db, user, connection, merged, a, b);
      HidingKeepsUnmatched(merged, user, connection, resolved, m, a, b);
    }
  }

  lemma {:induction false} ResolvedIsClean(db: Db, user: Id, connection: Id, db': Db, count: nat)
    requires DuplicateLinks.AutoResolved(db, user, Some(connection), db', count)
    ensures forall q :: !DuplicateLinks.HasMatch(db', user, Some(connection), q)
  {
    forall q
      ensures !DuplicateLinks.HasMatch(db', user, Some(connection), q)
    {
      DuplicateLinks.NoMatchLeft(db, user, Some(connection), db', count, q);
    }
  }

  /** Whether the merge ran between the two states. */
  ghost predicate MergePhase(p: Provider, c: Cleanup, user: Id, connection: Id, first: Db, merged: Db) {
    if p.Teller? && c.txnsMerged then exists n :: DuplicateMerge.Merged(first, user, connection, merged, n)
    else merged == first
  }

  ghost predicate ResolvePhase(c: Cleanup, user: Id, connection: Id, merged: Db, last: Db) {
    if c.resolved then exists m :: DuplicateLinks.AutoResolved(merged, user, Some(connection), last, m)
    else last == merged
  }

  lemma {:induction false} PhasesClean(
    p: Provider, c: Cleanup, user: Id, connection: Id, first: Db, merged: Db, last: Db)
    requires MergePhase(p, c, user, connection, first, merged) && ResolvePhase(c, user, connection, merged, last)
    ensures Clean(p, c, last, user, connection)
  {
    if c.resolved {
      var m :| DuplicateLinks.AutoResolved(merged, user, Some(connection), last, m);
      ResolvedIsClean(merged, user, connection, last, m);
      if p.Teller? && c.txnsMerged {
        var n :| DuplicateMerge.Merged(first, user, connection, merged, n);
        MergedThenResolvedIsClean(first, merged, last, n, m, user, connection);
      }
    }
  }

  method MergeRows(p: Provider, repo: Repository, user: Id, connection: Id, c: Cleanup)
    returns (ghost dbs: seq<Db>, ghost statements: seq<Statement>)
    requires Consistent(repo.State())
    modifies repo
    ensures Consistent(repo.State()) && MergePhase(p, c, user, connection, old(repo.State()), repo.State())
    ensures Leads(old(repo.State()), dbs, statements, repo.State())
    ensures statements == if p.Teller? && c.txnsMerged then [MergeTransactions(user, connection)] else []
  {
    ghost var first := repo.State();
    dbs, statements := [first], [];
    if p.Teller? && c.txnsMerged {
      var count := repo.MergeDuplicateProviderTransactions(user, connection);
      StepKeepsConsistent(first, MergeTransactions(user, connection), repo.State());
      dbs, statements := [first, repo.State()], [MergeTransactions(user, connection)];
    }
  }

  method ResolveRows(repo: Repository, user: Id, connection: Id, c: Cleanup)
    returns (ghost dbs: seq<Db>, ghost statements: seq<Statement>)
    requires Consistent(repo.State())
    modifies repo
    ensures Consistent(repo.State()) && ResolvePhase(c, user, connection, old(repo.State()), repo.State())
    ensures Leads(old(repo.State()), dbs, statements, repo.State())
    ensures statements == if c.resolved then [AutoResolve(user, Some(connection))] else []
  {
    ghost var first := repo.State();
    dbs, statements := [first], [];
    if c.resolved {
      var count := repo.AutoResolvePendingDuplicates(user, Some(connection));
      StepKeepsConsistent(first, AutoResolve(user, Some(connection)), repo.State());
      dbs, statements := [first, repo.State()], [AutoResolve(user, Some(connection))];
    }
  }

  /** What ends a sync: a Teller sync merges first, and both resolve pending rows. */
  method CleanUp(p: Provider, repo: Repository, user: Id, connection: Id, c: Cleanup) returns (ghost dbs: seq<Db>)
    requires Consistent(repo.State())
    modifies repo
    ensures Consistent(repo.State()) && Clean(p, c, repo.State(), user, connection)
    ensures Leads(old(repo.State()), dbs, CleanupStatements(p, c, user, connection), repo.State())
  {
    ghost var first := repo.State();
    ghost var dbs1, statements1 := MergeRows(p, repo, user, connection, c);
    ghost var merged := repo.State();
    ghost var dbs2, statements2 := ResolveRows(repo, user, connection, c);
    PhasesClean(p, c, user, connection, first, merged, repo.State());
    LeadsThrough(first, dbs1, statements1, merged, dbs2, statements2, repo.State());
    dbs := dbs1 + dbs2[1..];
  }

  // ----- a whole sync

  method MergeAccountRows(p: Provider, repo: Repository, user: Id, connection: Id, c: Cleanup)
    returns (ghost dbs: seq<Db>, ghost statements: seq<Statement>)
    requires Consistent(repo.State())
    modifies repo
    ensures Consistent(repo.State()) && Leads(old(repo.State()), dbs, statements, repo.State())
    ensures statements == if p.Teller? && c.accountsMerged then [MergeAccounts(user, connection)] else []
  {
    ghost var first := repo.State();
    dbs, statements := [first], [];
    if p.Teller? && c.accountsMerged {
      var result := repo.MergeDuplicateProviderAccounts(user, connection);
      StepKeepsConsistent(first, MergeAccounts(user, connection), repo.State());
      dbs, statements := [first, repo.State()], [MergeAccounts(user, connection)];
    }
  }

  /** The first half of a sync: the accounts, in both senses of the word. */
  function AccountPhase(
    p: Provider, user: Id, connection: Id, fetched: seq<FetchedAccount>, now: int, c: Cleanup): seq<Statement>
  {
    AccountStatements(user, connection, fetched, now) +
    (if p.Teller? && c.accountsMerged then [MergeAccounts(user, connection)] else [])
  }

  /** The second half: the rows, looked up in the account table `accounts`, and the cleanup. */
  ghost function RowPhase(
    p: Provider, user: Id, connection: Id, accounts: map<Id, Account>, txns: seq<FetchedTxn>, c: Cleanup): seq<Statement>
  {
    TxnStatements(p, accounts, user, connection, txns) + CleanupStatements(p, c, user, connection)
  }

  method ImportAccountPhase(
    p: Provider, repo: Repository, user: Id, connection: Id, fetched: seq<FetchedAccount>, now: int, c: Cleanup)
    returns (ghost dbs: seq<Db>)
    requires Consistent(repo.State())
    modifies repo
    ensures Consistent(repo.State())
    ensures Leads(old(repo.State()), dbs, AccountPhase(p, user, connection, fetched, now, c), repo.State())
  {
    ghost var first := repo.State();
    ghost var dbs1 := ImportAccounts(repo, user, connection, fetched, now);
    ghost var imported := repo.State();
    ghost var dbs2, merging := MergeAccountRows(p, repo, user, connection, c);
    LeadsThrough(first, dbs1, AccountStatements(user, connection, fetched, now), imported, dbs2, merging, repo.State());
    dbs := dbs1 + dbs2[1..];
  }

  /** What the caller may rely on for the rows a sync reports. */
  ghost predicate Synced(
    p: Provider, user: Id, connection: Id, accounts: map<Id, Account>, txns: seq<FetchedTxn>, synced: seq<FetchedTxn>,
    stored: Db)
  {
    && (forall t :: t in synced ==> t in txns && Reported(p, accounts, user, connection, t))
    && (forall t :: t in txns && p.Plaid? && Reported(p, accounts, user, connection, t) ==> t in synced)
    && (forall t :: t in synced && p.Teller? ==> HasProviderId(stored, t.txn.providerId))
  }

  method ImportRowPhase(
    p: Provider, repo: Repository, user: Id, connection: Id, txns: seq<FetchedTxn>, c: Cleanup)
    returns (synced: seq<FetchedTxn>, ghost dbs: seq<Db>, ghost stored: Db)
    requires Consistent(repo.State())
    modifies repo
    ensures Consistent(repo.State()) && Clean(p, c, repo.State(), user, connection)
    ensures Leads(old(repo.State()), dbs, RowPhase(p, user, connection, old(repo.accounts), txns, c), repo.State())
    ensures stored in dbs && Synced(p, user, connection, old(repo.accounts), txns, synced, stored)
  {
    ghost var first, accounts := repo.State(), repo.accounts;
    ghost var dbs1;
    synced, dbs1 := ImportTxns(p, repo, user, connection, txns);
    stored := repo.State();
    ghost var dbs2 := CleanUp(p, repo, user, connection, c);
    LeadsThrough(
      first, dbs1, TxnStatements(p, accounts, user, connection, txns), stored,
      dbs2, CleanupStatements(p, c, user, connection), repo.State());
    dbs := dbs1 + dbs2[1..];
    assert stored == dbs1[|dbs1| - 1] == dbs[|dbs1| - 1];
  }

  // ----- connection and tables together

  /** The provider has delivered the accounts. */
  predicate AccountsArrive(w: World) {
    Ready(w) && w.provided.Success?
  }

  /** What an attempt does to the tables: nothing before the accounts arrive, the accounts alone when the
      rows do not, and otherwise both halves. */
  ghost predicate TablesAfter(
    p: Provider, w: World, user: Id, connection: Id, fetched: seq<FetchedAccount>, now: int, txns: seq<FetchedTxn>,
    c: Cleanup, first: Db, ready: Db, last: Db, dbs: seq<Db>, rowDbs: seq<Db>)
  {
    && (if AccountsArrive(w) then Leads(first, dbs, AccountPhase(p, user, connection, fetched, now, c), ready)
        else ready == first)
    && (if Fetches(w)
        then
          && Leads(ready, rowDbs, RowPhase(p, user, connection, ready.accounts, txns, c), last)
          && Clean(p, c, last, user, connection)
        else last == ready)
  }

  /** The tables stay as they are unless the user signed in with a registered provider that delivered accounts. */
  lemma {:induction false} NothingArrivesUnlessDelivered(
    p: Provider, w: World, user: Id, connection: Id, fetched: seq<FetchedAccount>, now: int, txns: seq<FetchedTxn>,
    c: Cleanup, first: Db, ready: Db, last: Db, dbs: seq<Db>, rowDbs: seq<Db>)
    requires TablesAfter(p, w, user, connection, fetched, now, txns, c, first, ready, last, dbs, rowDbs)
    ensures w.credentials != Success(true) || !w.registered || w.provided.Failure? ==> last == first
    ensures w.credentials == Success(true) && w.registered && w.provided.Success? ==>
              Leads(first, dbs, AccountPhase(p, user, connection, fetched, now, c), ready)
  {
  }

  /** A whole attempt. Whatever fails on the way, the store stays consistent and its tables are where exactly
      the statements that got through lead. A row reported as synced by Teller was stored before the
      cleanup, one reported by Plaid only if its write worked; a cleanup that got through leaves nothing for
      it to do; and the connection moves as its own rules say. */
  method Sync(
    p: Provider, service: ConnectionService, c: ProviderConnection, repo: Repository, w: World,
    user: Id, connection: Id, fetched: seq<FetchedAccount>, now: int, txns: seq<FetchedTxn>, cleanup: Cleanup)
    returns (
      r: Result<Window, SyncError>, synced: seq<FetchedTxn>,
      ghost ready: Db, ghost dbs: seq<Db>, ghost rowDbs: seq<Db>, ghost stored: Db)
    requires Consistent(repo.State())
    modifies service, c, repo
    ensures Consistent(repo.State())
    ensures TablesAfter(
              p, w, user, connection, fetched, now, txns, cleanup, old(repo.State()), ready, repo.State(), dbs, rowDbs)
    ensures if Fetches(w) then stored in rowDbs && Synced(p, user, connection, ready.accounts, txns, synced, stored)
            else synced == []
    ensures c.AsRow() == Memory(p, old(c.AsRow()), w)
    ensures r.Success? <==> Succeeds(p, w)
  {
    dbs, rowDbs, synced := [], [], [];
    if AccountsArrive(w) {
      dbs := ImportAccountPhase(p, repo, user, connection, fetched, now, cleanup);
    }
    ready, stored := repo.State(), repo.State();
    if Fetches(w) {
      synced, rowDbs, stored := ImportRowPhase(p, repo, user, connection, txns, cleanup);
    }
    var asked;
    match p {
      case Plaid => r, asked := service.SyncProviderConnection(c, w);
      case Teller => r, asked := service.SyncTellerConnection(c, w);
    }
  }
}
