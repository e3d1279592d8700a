/** What the duplicate statements do, in terms of the columns of the rows alone. */
module DuplicateColumns {
  import opened Prelude
  import opened Text
  import opened Store
  import opened PointerForest
  import DuplicateMerge
  import DuplicateLinks
  import AccountMerge

  // ----- the merge of transactions

  /** A row of `user` that came from a provider, on an account of `connection`. */
  predicate IsImport(db: Db, user: Id, connection: Id, x: Id) {
    && x in db.txns && db.txns[x].user == Some(user) && db.txns[x].providerId.Some?
    && db.txns[x].account in db.accounts && db.accounts[db.txns[x].account].connection == Some(connection)
  }

  /** `y` records the charge of `x` under a key that contains the key of `x`, and is longer or not older. */
  predicate Supersedes(y: Txn, x: Txn) {
    var k, l := MerchantKey(y.merchant), MerchantKey(x.merchant);
    && y.account == x.account && y.amount == x.amount && y.date == x.date
    && l != "" && Contains(k, l) && (|k| > |l| || y.createdAt >= x.createdAt)
  }

  ghost predicate Superseded(db: Db, user: Id, connection: Id, x: Id, y: Id) {
    x != y && IsImport(db, user, connection, x) && IsImport(db, user, connection, y) && Supersedes(db.txns[y], db.txns[x])
  }

  lemma {:induction false} OutranksIff(db: Db, user: Id, connection: Id, y: Id, x: Id)
    ensures DuplicateMerge.Outranks(db, user, connection, y, x) <==> Superseded(db, user, connection, x, y)
  {
    if DuplicateMerge.Outranks(db, user, connection, y, x) {
      DuplicateMerge.OutrankingContains(db, user, connection, y, x);
    }
    if Superseded(db, user, connection, x, y) && |db.txns[y].Key()| == |db.txns[x].Key()| {
      ContainsSameLength(db.txns[y].Key(), db.txns[x].Key());
    }
  }

  /** The merge deletes a row exactly when the row and another that supersedes it were both imported for
      this user under this connection. */
  lemma {:induction false} MergeDeletesIff(db: Db, user: Id, connection: Id, db': Db, count: nat, x: Id)
    requires DuplicateMerge.Merged(db, user, connection, db', count) && x in db.txns
    ensures x !in db'.txns <==> exists y :: Superseded(db, user, connection, x, y)
    ensures x !in db'.txns ==>
              && db.txns[x].user == Some(user) && db.txns[x].providerId.Some? && db.txns[x].account in db.accounts
              && db.accounts[db.txns[x].account].connection == Some(connection)
  {
    DuplicateMerge.GoneIsOutranked(db, user, connection, x);
    if y :| DuplicateMerge.Outranks(db, user, connection, y, x) {
      OutranksIff(db, user, connection, y, x);
    }
    if y :| Superseded(db, user, connection, x, y) {
      OutranksIff(db, user, connection, y, x);
    }
  }

  /** A row is untouched, but for a pointer to a deleted row, which becomes null. */
  predicate SameButForPointer(db: Db, db': Db, t: Id) {
    && t in db.txns && t in db'.txns && db'.txns[t] == db.txns[t].(duplicateOf := db'.txns[t].duplicateOf)
    && (db'.txns[t].duplicateOf == db.txns[t].duplicateOf
        || (db'.txns[t].duplicateOf.None? && db.txns[t].duplicateOf.value !in db'.txns))
  }

  /** Whatever the merge keeps it keeps as it was, and rows that are not imports of this user and connection
      keep their overrides too. */
  lemma {:induction false} MergeLeavesOthers(db: Db, user: Id, connection: Id, db': Db, count: nat, t: Id, other: Id)
    requires DuplicateMerge.Merged(db, user, connection, db', count) && t in db.txns
    ensures db'.accounts == db.accounts && db'.txns.Keys <= db.txns.Keys
    ensures t in db'.txns ==> SameButForPointer(db, db', t)
    ensures !IsImport(db, user, connection, t) ==> t in db'.txns && SameOverride(db, db', (t, other))
    ensures t in db'.txns && other != user ==> SameOverride(db, db', (t, other))
  {
    MergeDeletesIff(db, user, connection, db', count, t);
    var k := (t, other);
    if k in db'.overrides && k !in db.overrides {
      var d := DuplicateMerge.MovedFrom(
        db.overrides, user, DuplicateMerge.DuplicatePairs(db, user, connection), DuplicateMerge.Gone(db, user, connection),
        db'.overrides, k);
      DuplicateMerge.PairsAreOutranked(db, user, connection, t, d);
    }
  }

  predicate SameOverride(db: Db, db': Db, k: (Id, Id)) {
    (k in db'.overrides <==> k in db.overrides) && (k in db.overrides ==> db'.overrides[k] == db.overrides[k])
  }

  /** A row with an override, which `c` supersedes. */
  ghost predicate Gives(db: Db, user: Id, connection: Id, d: Id, c: Id) {
    Superseded(db, user, connection, d, c) && (d, user) in db.overrides
  }

  /** A kept row without an override has one afterwards exactly when it supersedes a row that had one; it is
      that of such a row, less its subcategory. */
  lemma {:induction false} MergeMovesOverrideIff(db: Db, user: Id, connection: Id, db': Db, count: nat, c: Id)
    requires DuplicateMerge.Merged(db, user, connection, db', count) && c in db'.txns && (c, user) !in db.overrides
    ensures (c, user) in db'.overrides <==> exists d: Id :: Gives(db, user, connection, d, c)
    ensures (c, user) in db'.overrides ==>
              exists d: Id :: Gives(db, user, connection, d, c) &&
                db'.overrides[(c, user)] == db.overrides[(d, user)].(subcategory := None)
  {
    var pairs := DuplicateMerge.DuplicatePairs(db, user, connection);
    if (c, user) in db'.overrides {
      var d := DuplicateMerge.MovedFrom(
        db.overrides, user, pairs, DuplicateMerge.Gone(db, user, connection), db'.overrides, (c, user));
      DuplicateMerge.PairsAreOutranked(db, user, connection, c, d);
      OutranksIff(db, user, connection, c, d);
      assert Gives(db, user, connection, d, c);
    }
    if d: Id :| Gives(db, user, connection, d, c) {
      OutranksIff(db, user, connection, c, d);
      DuplicateMerge.PairsAreOutranked(db, user, connection, c, d);
      assert (c, d) in pairs && (c, d).0 !in DuplicateMerge.Gone(db, user, connection) && ((c, d).1, user) in db.overrides;
    }
  }

  // ----- auto-resolve

  /** A listed row of `user` with an amount, on an account the call is about. */
  predicate IsOpen(db: Db, user: Id, scope: Option<Id>, x: Id) {
    && x in db.txns && db.txns[x].user == Some(user) && db.txns[x].duplicateOf.None? && db.txns[x].amount != 0
    && db.txns[x].account in db.accounts
    && (scope.Some? ==> db.accounts[db.txns[x].account].connection == scope)
  }

  /** The names two merchants may share: either key, the first six characters of either when both have as
      many, and two brands. */
  function Names(k: string, l: string): set<string> {
    {k, l, "verizon", "amazon"} + (if |k| >= 6 && |l| >= 6 then {k[..6], l[..6]} else {})
  }

  predicate ShareAName(k: string, l: string) {
    exists n :: n in Names(k, l) && Contains(k, n) && Contains(l, n)
  }

  lemma {:induction false} PrefixOccurs(k: string, n: nat)
    requires n <= |k|
    ensures Contains(k, k[..n])
  {
    assert OccursAt(k, k[..n], 0);
  }

  lemma {:induction false} SharedNameIsAgreement(k: string, l: string)
    ensures ShareAName(k, l) <==> DuplicateLinks.KeysAgree(k, l)
  {
    ContainsSelf(k);
    ContainsSelf(l);
    if |k| >= 6 && |l| >= 6 {
      PrefixOccurs(k, 6);
      PrefixOccurs(l, 6);
      assert k[..6] in Names(k, l) && l[..6] in Names(k, l);
    }
    assert k in Names(k, l) && l in Names(k, l) && "verizon" in Names(k, l) && "amazon" in Names(k, l);
  }

  /** Open rows, one pending and one posted, of the same account and amount, at most a week apart, whose
      merchants share a name. */
  predicate Resembles(db: Db, user: Id, scope: Option<Id>, p: Id, q: Id) {
    && IsOpen(db, user, scope, p) && IsOpen(db, user, scope, q) && db.txns[p].pending && !db.txns[q].pending
    && db.txns[q].account == db.txns[p].account && db.txns[q].amount == db.txns[p].amount
    && -7 <= db.txns[q].date - db.txns[p].date <= 7
    && ShareAName(MerchantKey(db.txns[p].merchant), MerchantKey(db.txns[q].merchant))
  }

  lemma {:induction false} ResemblesIsMatch(db: Db, user: Id, scope: Option<Id>, p: Id, q: Id)
    ensures Resembles(db, user, scope, p, q) <==>
            && p in DuplicateLinks.PendingRows(db, user, scope) && q in DuplicateLinks.PostedRows(db, user, scope)
            && DuplicateLinks.AutoMatch(db.txns[p], db.txns[q])
  {
    if p in db.txns && q in db.txns {
      SharedNameIsAgreement(MerchantKey(db.txns[p].merchant), MerchantKey(db.txns[q].merchant));
    }
  }

  /** Auto-resolve hides a row exactly when it resembles a posted one, behind a posted row it resembles: none
      is nearer in time, and of equally near ones it is the earlier. */
  lemma {:induction false} ResolveHidesIff(db: Db, user: Id, scope: Option<Id>, db': Db, count: nat, p: Id)
    requires DuplicateLinks.AutoResolved(db, user, scope, db', count) && p in db.txns
    ensures p in db'.txns
    ensures db'.txns[p] != db.txns[p] <==> exists q :: Resembles(db, user, scope, p, q)
    ensures db'.txns[p] != db.txns[p] ==> NearestResembled(db, user, scope, p, db'.txns[p].duplicateOf)
  {
    DuplicateLinks.HiddenRowPointsAtNearest(db, user, scope, db', count, p);
    forall q
      ensures Resembles(db, user, scope, p, q) ==> DuplicateLinks.HasMatch(db, user, scope, p)
    {
      ResemblesIsMatch(db, user, scope, p, q);
    }
    if DuplicateLinks.HasMatch(db, user, scope, p) {
      BestIsNearest(db, user, scope, p, db'.txns[p].duplicateOf.value);
    }
  }

  ghost predicate NearestResembled(db: Db, user: Id, scope: Option<Id>, p: Id, target: Option<Id>) {
    && target.Some? && Resembles(db, user, scope, p, target.value)
    && forall r :: Resembles(db, user, scope, p, r) ==>
         var here, there := db.txns[target.value].date - db.txns[p].date, db.txns[r].date - db.txns[p].date;
         Abs(here) < Abs(there) || (Abs(here) == Abs(there) && here <= there)
  }

  lemma {:induction false} BestIsNearest(db: Db, user: Id, scope: Option<Id>, p: Id, q: Id)
    requires DuplicateLinks.BestMatch(db, user, scope, p, q)
    ensures NearestResembled(db, user, scope, p, Some(q))
  {
    ResemblesIsMatch(db, user, scope, p, q);
    forall r | Resembles(db, user, scope, p, r)
      ensures DuplicateLinks.NoFarther(db.txns[p], db.txns[q], db.txns[r])
    {
      ResemblesIsMatch(db, user, scope, p, r);
    }
  }

  /** Neither key occurs in the other, one is too short for the prefix test or the prefixes do not occur
      either, and the two are not of one brand. */
  predicate Strangers(k: string, l: string) {
    && !Contains(k, l) && !Contains(l, k)
    && (|k| < 6 || |l| < 6 || (!Contains(k, l[..6]) && !Contains(l, k[..6])))
    && !(Contains(k, "verizon") && Contains(l, "verizon")) && !(Contains(k, "amazon") && Contains(l, "amazon"))
  }

  /** One key occurs in the other, both start with the same six characters, or both name one brand. */
  predicate Relatives(k: string, l: string) {
    || Contains(k, l) || Contains(l, k) || (|k| >= 6 && |l| >= 6 && k[..6] == l[..6])
    || (Contains(k, "verizon") && Contains(l, "verizon")) || (Contains(k, "amazon") && Contains(l, "amazon"))
  }

  lemma {:induction false} StrangersShareNothing(k: string, l: string)
    requires Strangers(k, l)
    ensures !ShareAName(k, l)
  {
    SharedNameIsAgreement(k, l);
    ContainsSelf(k);
  }

  lemma {:induction false} RelativesShareAName(k: string, l: string)
    requires Relatives(k, l)
    ensures ShareAName(k, l)
  {
    SharedNameIsAgreement(k, l);
    if |k| >= 6 && |l| >= 6 {
      PrefixOccurs(k, 6);
    }
  }

  lemma {:induction false} StrangersAreNotLinked(db: Db, user: Id, scope: Option<Id>, db': Db, count: nat, p: Id, q: Id)
    requires DuplicateLinks.AutoResolved(db, user, scope, db', count) && p in db.txns && q in db.txns
    requires db.txns[p].duplicateOf != Some(q)
    requires Strangers(MerchantKey(db.txns[p].merchant), MerchantKey(db.txns[q].merchant))
    ensures p in db'.txns && db'.txns[p].duplicateOf != Some(q)
  {
    ResolveHidesIff(db, user, scope, db', count, p);
    StrangersShareNothing(MerchantKey(db.txns[p].merchant), MerchantKey(db.txns[q].merchant));
  }

  lemma {:induction false} RelativesAreLinked(db: Db, user: Id, scope: Option<Id>, db': Db, count: nat, p: Id, q: Id)
    requires DuplicateLinks.AutoResolved(db, user, scope, db', count)
    requires IsOpen(db, user, scope, p) && IsOpen(db, user, scope, q) && db.txns[p].pending && !db.txns[q].pending
    requires db.txns[q].account == db.txns[p].account && db.txns[q].amount == db.txns[p].amount
    requires -7 <= db.txns[q].date - db.txns[p].date <= 7
    requires Relatives(MerchantKey(db.txns[p].merchant), MerchantKey(db.txns[q].merchant))
    ensures p in db'.txns && db'.txns[p].duplicateOf.Some?
  {
    RelativesShareAName(MerchantKey(db.txns[p].merchant), MerchantKey(db.txns[q].merchant));
    assert Resembles(db, user, scope, p, q);
    ResolveHidesIff(db, user, scope, db', count, p);
  }

  // ----- the manual mark

  /** A listed row of the same user, account and amount, at most a week away, that is posted or as pending as
      the selected one. */
  predicate MayStandFor(db: Db, user: Id, id: Id, c: Id) {
    && id in db.txns && c in db.txns && c != id
    && db.txns[id].user == Some(user) && db.txns[id].duplicateOf.None? && db.txns[id].amount != 0
    && db.txns[c].user == Some(user) && db.txns[c].duplicateOf.None?
    && db.txns[c].account == db.txns[id].account && db.txns[c].amount == db.txns[id].amount
    && -7 <= db.txns[c].date - db.txns[id].date <= 7
    && (db.txns[c].pending ==> db.txns[id].pending)
  }

  /** Both have a key, and one occurs in the other. */
  predicate OneName(a: Txn, b: Txn) {
    var k, l := MerchantKey(a.merchant), MerchantKey(b.merchant);
    k != "" && l != "" && (Contains(k, l) || Contains(l, k))
  }

  /** A mark fails, and changes nothing, exactly when no row may stand for the selected one. */
  lemma {:induction false} MarkFailsIff(db: Db, user: Id, id: Id, db': Db, result: Result<Id, DbError>)
    requires DuplicateLinks.Marked(db, user, id, db', result)
    ensures result.Failure? <==> forall c :: !MayStandFor(db, user, id, c)
    ensures result.Failure? ==> db' == db
  {
    forall c
      ensures MayStandFor(db, user, id, c) <==> DuplicateLinks.IsCandidate(db, user, id, c)
    {
    }
  }

  /** It hides the selected row, and changes no other, behind a row of its own merchant if there is one, a
      posted one if there is one among those, then the oldest, then the one with the smallest id. */
  lemma {:induction false} MarkChooses(db: Db, user: Id, id: Id, db': Db, c: Id, o: Id)
    requires DuplicateLinks.Marked(db, user, id, db', Success(c))
    ensures MayStandFor(db, user, id, c) && db'.txns == db.txns[id := db.txns[id].(duplicateOf := Some(c))]
    ensures MayStandFor(db, user, id, o) && OneName(db.txns[id], db.txns[o]) ==> OneName(db.txns[id], db.txns[c])
    ensures MayStandFor(db, user, id, o) && (OneName(db.txns[id], db.txns[o]) <==> OneName(db.txns[id], db.txns[c])) ==>
              && (db.txns[c].pending ==> db.txns[o].pending)
              && (db.txns[c].pending == db.txns[o].pending ==>
                    && db.txns[c].createdAt <= db.txns[o].createdAt
                    && (db.txns[c].createdAt == db.txns[o].createdAt ==> c <= o))
  {
    assert Link(db.txns, map[id := c]) == db.txns[id := db.txns[id].(duplicateOf := Some(c))];
    SameNameIff(db.txns[id], db.txns[c]);
    if MayStandFor(db, user, id, o) {
      SameNameIff(db.txns[id], db.txns[o]);
      assert DuplicateLinks.IsCandidate(db, user, id, o);
      assert o != c ==> DuplicateLinks.Before(db, id, c, o);
    }
  }

  lemma {:induction false} SameNameIff(a: Txn, b: Txn)
    ensures OneName(a, b) <==> DuplicateLinks.NameMatch(a.Key(), b.Key())
  {
    ContainsSelf(a.Key());
  }

  // ----- the merge of accounts

  /** Two accounts of one user and connection that carry the same name, whatever its case, mask and type. */
  predicate Twins(db: Db, user: Id, connection: Id, a: Id, b: Id) {
    && a in db.accounts && b in db.accounts && a != b
    && (var x, y := db.accounts[a], db.accounts[b];
        && x.user == Some(user) && x.connection == Some(connection) && x.providerAccountId.Some?
        && y.user == Some(user) && y.connection == Some(connection) && y.providerAccountId.Some?
        && Lower(x.name) == Lower(y.name) && x.accountType == y.accountType
        && (x.mask == y.mask || (x.mask.None? && y.mask == Some("")) || (x.mask == Some("") && y.mask.None?)))
  }

  /** `b` knows its balance where `a` does not, or was updated later, or has the larger id, in this order. */
  predicate Preferred(b: Account, a: Account, largerId: bool) {
    || (b.balance.Some? && a.balance.None?)
    || ((b.balance.Some? || a.balance.None?) &&
        (b.updatedAt > a.updatedAt || (b.updatedAt == a.updatedAt && largerId)))
  }

  predicate Outdone(db: Db, user: Id, connection: Id, a: Id, b: Id) {
    Twins(db, user, connection, a, b) && Preferred(db.accounts[b], db.accounts[a], b > a)
  }

  lemma {:induction false} OutdoneIsBeaten(db: Db, user: Id, connection: Id, a: Id, b: Id)
    ensures Outdone(db, user, connection, a, b) <==> AccountMerge.Beats(db, user, connection, b, a)
  {
  }

  /** A successful merge deletes an account exactly when some twin is preferred to it. */
  lemma {:induction false} AccountDeletedIff(db: Db, user: Id, connection: Id, db': Db, n: nat, a: Id)
    requires AccountMerge.AccountsMerged(db, user, connection, db', Success(n)) && a in db.accounts
    ensures a !in db'.accounts <==> exists b :: Outdone(db, user, connection, a, b)
    ensures a in db'.accounts ==> db'.accounts[a] == db.accounts[a]
  {
    var links: map<Id, Id> :|
      AccountMerge.DuplicateAccounts(db, user, connection, links) && AccountMerge.MovedAndDeleted(db, user, links, db', Success(n));
    DeletedIff(db, user, connection, links, a);
  }

  lemma {:induction false} DeletedIff(db: Db, user: Id, connection: Id, links: map<Id, Id>, a: Id)
    requires AccountMerge.DuplicateAccounts(db, user, connection, links)
    ensures a in links <==> exists b :: Outdone(db, user, connection, a, b)
  {
    if a in links {
      OutdoneIsBeaten(db, user, connection, a, links[a]);
    }
    if b :| Outdone(db, user, connection, a, b) {
      OutdoneIsBeaten(db, user, connection, a, b);
    }
  }

  /** A row of the user moves exactly when its account is deleted, to a twin that is kept and that no twin
      is preferred to; nothing else about any row changes. */
  lemma {:induction false} RowMovesIff(db: Db, user: Id, connection: Id, db': Db, n: nat, t: Id)
    requires AccountMerge.AccountsMerged(db, user, connection, db', Success(n)) && t in db.txns
    ensures db'.overrides == db.overrides && t in db'.txns && db'.txns[t] == db.txns[t].(account := db'.txns[t].account)
    ensures db'.txns[t].account != db.txns[t].account <==>
              db.txns[t].account in db.accounts && db.txns[t].account !in db'.accounts
    ensures db'.txns[t].account != db.txns[t].account ==>
              && db'.txns[t].account in db'.accounts
              && Outdone(db, user, connection, db.txns[t].account, db'.txns[t].account)
              && forall b :: !Outdone(db, user, connection, db'.txns[t].account, b)
  {
    var links: map<Id, Id> :|
      AccountMerge.DuplicateAccounts(db, user, connection, links) && AccountMerge.MovedAndDeleted(db, user, links, db', Success(n));
    if db.txns[t].account in links {
      KeptAccountIsBest(db, user, connection, links, db.txns[t].account);
    }
  }

  lemma {:induction false} KeptAccountIsBest(db: Db, user: Id, connection: Id, links: map<Id, Id>, a: Id)
    requires AccountMerge.DuplicateAccounts(db, user, connection, links) && a in links
    ensures a in db.accounts && links[a] in db.accounts && links[a] !in links && Outdone(db, user, connection, a, links[a])
    ensures forall b :: !Outdone(db, user, connection, links[a], b)
  {
    AccountMerge.CanonicalAccount(db, user, connection, links, a);
    OutdoneIsBeaten(db, user, connection, a, links[a]);
    forall b
      ensures !Outdone(db, user, connection, links[a], b)
    {
      OutdoneIsBeaten(db, user, connection, links[a], b);
    }
  }

  /** The merge fails, and changes nothing, exactly when a row of somebody else sits on an account to delete. */
  lemma {:induction false} AccountMergeFailsIff(db: Db, user: Id, connection: Id, db': Db, result: Result<nat, DbError>)
    requires AccountMerge.AccountsMerged(db, user, connection, db', result)
    ensures result.Failure? <==> exists t, b ::
              t in db.txns && db.txns[t].user != Some(user) && Outdone(db, user, connection, db.txns[t].account, b)
    ensures result.Failure? ==> db' == db
  {
    var links: map<Id, Id> :|
      AccountMerge.DuplicateAccounts(db, user, connection, links) && AccountMerge.MovedAndDeleted(db, user, links, db', result);
    forall t | t in db.txns
      ensures db.txns[t].account in links <==> exists b :: Outdone(db, user, connection, db.txns[t].account, b)
    {
      DeletedIff(db, user, connection, links, db.txns[t].account);
    }
  }

  // ----- concrete stores

  function Charge(account: Id, provider: Option<string>, merchant: string, pending: bool, date: int, createdAt: int): Txn {
    Txn(account, Some(1), provider, 500, date, Some(merchant), pending, createdAt, None)
  }

  function Bank(connection: Id): Account {
    Account(Some(1), Some(connection), None, "", "depository", None, None, 0)
  }

  /** Two imports of one charge on account 2, which is on connection 2. */
  function OnSecondConnection(): Db {
    Db(map[1 := Charge(2, Some("p"), "a", false, 0, 0), 2 := Charge(2, Some("q"), "a", false, 0, 1)],
       map[1 := Bank(1), 2 := Bank(2)], map[])
  }

  lemma {:induction false} NoImportNoMerge(db: Db, user: Id, connection: Id, db': Db, count: nat)
    requires DuplicateMerge.Merged(db, user, connection, db', count)
    requires forall x :: !IsImport(db, user, connection, x)
    ensures db' == db && count == 0
  {
    forall a, b
      ensures !DuplicateMerge.Joined(db, user, connection, a, b)
    {
      assert DuplicateMerge.Joined(db, user, connection, a, b) ==> IsImport(db, user, connection, a);
    }
    DuplicateMerge.NothingToMerge(db, user, connection);
    DuplicateMerge.MergingNothing(db, user, connection, db', count);
  }

  /** A merge of connection 1 leaves them alone. */
  lemma {:induction false} OtherConnectionStays(db': Db, count: nat)
    requires DuplicateMerge.Merged(OnSecondConnection(), 1, 1, db', count)
    ensures db' == OnSecondConnection() && count == 0
  {
    NoImportNoMerge(OnSecondConnection(), 1, 1, db', count);
  }

  /** A pending charge of merchant a and a posted one of merchant b, three days apart. */
  function TwoMerchants(): Db {
    Db(map[1 := Charge(1, None, "a", true, 0, 0), 2 := Charge(1, None, "b", false, 3, 1)], map[1 := Bank(1)], map[])
  }

  lemma {:induction false} NothingResembled(db: Db, user: Id, scope: Option<Id>, db': Db, count: nat)
    requires DuplicateLinks.AutoResolved(db, user, scope, db', count)
    requires forall p, q :: !Resembles(db, user, scope, p, q)
    ensures db' == db && count == 0
  {
    var links: map<Id, Id> :|
      DuplicateLinks.MatchedPairs(db, user, scope, links) && DuplicateLinks.Linked(db, user, links, db') && count == |links|;
    forall p
      ensures p !in links
    {
      if p in links {
        ResemblesIsMatch(db, user, scope, p, links[p]);
      }
    }
    DuplicateLinks.LinkingNothing(db, user, links, db');
  }

  lemma {:induction false} OneLetterKey(merchant: string)
    requires |merchant| == 1 && 'a' <= merchant[0] <= 'z'
    ensures MerchantKey(Some(merchant)) == merchant
  {
    assert Alphanumeric(merchant[1..]) == "";
    assert Alphanumeric(merchant) == merchant;
    assert Lower(merchant) == merchant;
  }

  lemma {:induction false} DifferentLetters(k: string, l: string)
    requires |k| == |l| == 1 && k != l
    ensures Strangers(k, l)
  {
    assert |"verizon"| == 7 && |"amazon"| == 6;
  }

  lemma {:induction false} TwoStrangers(db: Db, user: Id, scope: Option<Id>)
    requires db.txns.Keys == {1, 2} && db.txns[1].pending && !db.txns[2].pending
    requires Strangers(MerchantKey(db.txns[1].merchant), MerchantKey(db.txns[2].merchant))
    ensures forall p, q :: !Resembles(db, user, scope, p, q)
  {
    StrangersShareNothing(MerchantKey(db.txns[1].merchant), MerchantKey(db.txns[2].merchant));
  }

  lemma {:induction false} LettersAreStrangers(p: Txn, q: Txn)
    requires p.merchant == Some("a") && q.merchant == Some("b")
    ensures Strangers(MerchantKey(p.merchant), MerchantKey(q.merchant))
  {
    OneLetterKey("a");
    OneLetterKey("b");
    assert "a"[0] != "b"[0];
    DifferentLetters("a", "b");
  }

  lemma {:induction false} StrangersStay(db: Db, user: Id, scope: Option<Id>, db': Db, count: nat)
    requires DuplicateLinks.AutoResolved(db, user, scope, db', count)
    requires db.txns.Keys == {1, 2} && db.txns[1].pending && !db.txns[2].pending
    requires Strangers(MerchantKey(db.txns[1].merchant), MerchantKey(db.txns[2].merchant))
    ensures db' == db && count == 0
  {
    TwoStrangers(db, user, scope);
    NothingResembled(db, user, scope, db', count);
  }

  /** Auto-resolve leaves them alone, too. */
  lemma {:induction false} TwoMerchantsStay(db': Db, count: nat)
    requires DuplicateLinks.AutoResolved(TwoMerchants(), 1, None, db', count)
    ensures db' == TwoMerchants() && count == 0
  {
    LettersAreStrangers(TwoMerchants().txns[1], TwoMerchants().txns[2]);
    StrangersStay(TwoMerchants(), 1, None, db', count);
  }
}
