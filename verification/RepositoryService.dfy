/** `PostgresRepository`: the tables as fields, one method per statement, run against the state the
    statement started from (all sub-queries of one SQL statement read the same snapshot). */
module RepositoryService {
  import opened Prelude
  import opened Store
  import opened StoreWrites
  import opened DuplicateMerge
  import opened DuplicateLinks
  import opened AccountMerge
  import PointerForest

  /** The nearest posted match of a pending row, earliest first among equally near ones. */
  method NearestPosted(db: Db, user: Id, connection: Option<Id>, p: Id) returns (best: Option<Id>)
    requires p in PendingRows(db, user, connection)
    ensures best.Some? ==> BestMatch(db, user, connection, p, best.value)
    ensures best.None? ==> !HasMatch(db, user, connection, p)
  {
    var posted := PostedRows(db, user, connection);
    var todo := posted;
    best := None;
    while todo != {}
      invariant todo <= posted
      invariant best.Some? ==> best.value in posted && AutoMatch(db.txns[p], db.txns[best.value])
      invariant forall r :: r in posted - todo && AutoMatch(db.txns[p], db.txns[r]) ==>
                  best.Some? && NoFarther(db.txns[p], db.txns[best.value], db.txns[r])
      decreases |todo|
    {
      var r :| r in todo;
      todo := todo - {r};
      if AutoMatch(db.txns[p], db.txns[r]) &&
         (best.None? || !NoFarther(db.txns[p], db.txns[best.value], db.txns[r])) {
        best := Some(r);
      }
    }
  }

  method MatchPending(db: Db, user: Id, connection: Option<Id>) returns (links: map<Id, Id>)
    ensures MatchedPairs(db, user, connection, links)
  {
    var pending := PendingRows(db, user, connection);
    var todo := pending;
    links := map[];
    while todo != {}
      invariant todo <= pending
      invariant forall p :: p in links ==> BestMatch(db, user, connection, p, links[p])
      invariant forall p :: p in pending - todo && HasMatch(db, user, connection, p) ==> p in links
      decreases |todo|
    {
      var p :| p in todo;
      todo := todo - {p};
      var best := NearestPosted(db, user, connection, p);
      if best.Some? {
        links := links[p := best.value];
      }
    }
  }

  /** Each override is offered to its target in turn; a target that has one keeps it. */
  method OfferOverrides(before: OverrideTable, user: Id, links: map<Id, Id>) returns (after: OverrideTable)
    ensures OverridesOffered(before, user, links, after)
  {
    after := before;
    var todo := links.Keys;
    while todo != {}
      invariant todo <= links.Keys
      invariant forall k :: k in before ==> k in after && after[k] == before[k]
      invariant forall k :: k in after && k !in before ==>
                  k.1 == user && exists p :: p in links && links[p] == k.0 && (p, user) in before
                                             && after[k] == before[(p, user)]
      invariant forall p :: p in links.Keys - todo && (p, user) in before ==> (links[p], user) in after
      decreases |todo|
    {
      var p :| p in todo;
      todo := todo - {p};
      if (p, user) in before && (links[p], user) !in after {
        after := after[(links[p], user) := before[(p, user)]];
      }
    }
  }

  lemma {:induction false} BeforeIsTransitive(db: Db, id: Id, a: Id, b: Id, c: Id)
    requires id in db.txns && a in db.txns && b in db.txns && c in db.txns
    requires Before(db, id, a, b) && Before(db, id, b, c)
    ensures Before(db, id, a, c)
  {
  }

  method FindCandidate(db: Db, user: Id, id: Id) returns (first: Option<Id>)
    ensures first.Some? ==> FirstCandidate(db, user, id, first.value)
    ensures first.None? ==> forall c :: !IsCandidate(db, user, id, c)
  {
    var all := db.txns.Keys;
    var todo := all;
    first := None;
    while todo != {}
      invariant todo <= all
      invariant first.Some? ==> IsCandidate(db, user, id, first.value) && first.value !in todo
      invariant forall c :: c in all - todo && IsCandidate(db, user, id, c) ==>
                  first.Some? && (c == first.value || Before(db, id, first.value, c))
      decreases |todo|
    {
      var c :| c in todo;
      todo := todo - {c};
      if IsCandidate(db, user, id, c) {
        if first.None? {
          first := Some(c);
        } else if Before(db, id, c, first.value) {
          forall other | other in all - todo && IsCandidate(db, user, id, other) && other != c
            ensures Before(db, id, c, other)
          {
            if other != first.value {
              BeforeIsTransitive(db, id, c, first.value, other);
            }
          }
          first := Some(c);
        }
      }
    }
  }

  method FindPairs(db: Db, user: Id, connection: Id) returns (pairs: set<(Id, Id)>)
    ensures pairs == DuplicatePairs(db, user, connection)
  {
    pairs := set older, newer |
      older in Candidates(db, user, connection) && newer in Candidates(db, user, connection) &&
      Joined(db, user, connection, older, newer) :: PairOf(db.txns, older, newer);
  }

  /** The insert of `moved_overrides`, followed by the cascade of the deleted rows. */
  method MoveOverrides(before: OverrideTable, user: Id, pairs: set<(Id, Id)>, gone: set<Id>)
    returns (after: OverrideTable)
    ensures OverridesMoved(before, user, pairs, gone, after)
  {
    var inserted := before;
    var todo := pairs;
    while todo != {}
      invariant todo <= pairs
      invariant forall k :: k in before ==> k in inserted && inserted[k] == before[k]
      invariant forall k :: k in inserted && k !in before ==>
                  k.1 == user && exists d :: (k.0, d) in pairs && (d, user) in before
                                             && inserted[k] == MovedOverride(before[(d, user)])
      invariant forall pair :: pair in pairs - todo && (pair.1, user) in before ==> (pair.0, user) in inserted
      decreases |todo|
    {
      var pair :| pair in todo;
      todo := todo - {pair};
      if (pair.1, user) in before && (pair.0, user) !in inserted {
        assert (pair.0, pair.1) in pairs;
        inserted := inserted[(pair.0, user) := MovedOverride(before[(pair.1, user)])];
      }
    }
    after := map k | k in inserted && k.0 !in gone :: inserted[k];
  }

  /** The account ranked first in the partition of `a`. */
  method FirstOfPartition(db: Db, user: Id, connection: Id, a: Id) returns (first: Id)
    requires a in ProviderAccounts(db, user, connection)
    ensures first == a || Beats(db, user, connection, first, a)
    ensures forall b :: !Beats(db, user, connection, b, first)
  {
    var all := ProviderAccounts(db, user, connection);
    var todo := all;
    first := a;
    while todo != {}
      invariant todo <= all && first in all
      invariant first == a || Beats(db, user, connection, first, a)
      invariant forall b :: b in all - todo ==> !Beats(db, user, connection, b, first)
      decreases |todo|
    {
      var b :| b in todo;
      todo := todo - {b};
      if Beats(db, user, connection, b, first) {
        RankingIsTotal(db, user, connection, b, first, a);
        forall c | c in all - todo
          ensures !Beats(db, user, connection, c, b)
        {
          RankingIsTotal(db, user, connection, c, b, first);
          RankingIsTotal(db, user, connection, b, c, b);
        }
        first := b;
      }
    }
  }

  method FindDuplicateAccounts(db: Db, user: Id, connection: Id) returns (links: map<Id, Id>)
    ensures DuplicateAccounts(db, user, connection, links)
  {
    var all := ProviderAccounts(db, user, connection);
    var todo := all;
    links := map[];
    while todo != {}
      invariant todo <= all && links.Keys <= all
      invariant forall a :: a in links ==> Canonical(db, user, connection, links[a], a)
      invariant forall a, b :: a in all - todo && Beats(db, user, connection, b, a) ==> a in links
      decreases |todo|
    {
      var a :| a in todo;
      todo := todo - {a};
      var first := FirstOfPartition(db, user, connection, a);
      if first != a {
        links := links[a := first];
      }
    }
  }

  class Repository {
    var txns: map<Id, Txn>
    var accounts: map<Id, Account>
    var overrides: OverrideTable

    function State(): Db
      reads this
    {
      Db(txns, accounts, overrides)
    }

    constructor ()
      ensures State() == Db(map[], map[], map[])
    {
      txns, accounts, overrides := map[], map[], map[];
    }

    method UpsertTransaction(id: Id, row: Txn) returns (result: Result<(), DbError>)
      requires ProviderIdsUnique(txns) && row.Visible()
      modifies this
      ensures TxnUpserted(old(State()), id, row, State(), result)
    {
      if t :| t in txns && SameProviderId(txns[t], row) {
        assert forall u :: u in txns && SameProviderId(txns[u], row) ==> SameProviderId(txns[u], txns[t]);
        txns := txns[t := Refreshed(txns[t], row)];
        result := Success(());
      } else if id in txns {
        result := Failure(PrimaryKeyViolation);
      } else if row.account !in accounts {
        result := Failure(ForeignKeyViolation);
      } else {
        txns := txns[id := row];
        result := Success(());
      }
    }

    method UpsertAccount(id: Id, row: Account, now: int) returns (result: Result<(), DbError>)
      requires ProviderAccountsUnique(accounts)
      modifies this
      ensures AccountUpserted(old(State()), id, row, now, State(), result)
    {
      if a :| a in accounts && SameProviderAccount(accounts[a], row) {
        assert forall b :: b in accounts && SameProviderAccount(accounts[b], row) ==>
            SameProviderAccount(accounts[b], accounts[a]);
        accounts := accounts[a := RefreshedAccount(accounts[a], row, now)];
        result := Success(());
      } else if id in accounts {
        result := Failure(PrimaryKeyViolation);
      } else {
        accounts := accounts[id := row.(updatedAt := now)];
        result := Success(());
      }
    }

    method SetCategoryOverride(id: Id, user: Id, category: string, subcategory: Option<string>, now: int)
      returns (result: Result<(), DbError>)
      modifies this
      ensures OverrideSet(old(State()), id, user, category, subcategory, now, State(), result)
    {
      if id !in txns {
        return Failure(ForeignKeyViolation);
      }
      var created := if (id, user) in overrides then overrides[(id, user)].createdAt else now;
      overrides := overrides[(id, user) := Override(category, subcategory, created)];
      return Success(());
    }

    method RemoveCategoryOverride(id: Id, user: Id)
      modifies this
      ensures OverrideRemoved(old(State()), id, user, State())
    {
      overrides := overrides - {(id, user)};
    }

    method MarkTransactionDuplicate(id: Id, user: Id) returns (result: Result<Id, DbError>)
      modifies this
      ensures Marked(old(State()), user, id, State(), result)
    {
      var candidate := FindCandidate(State(), user, id);
      match candidate
      case None =>
        result := Failure(NoDuplicateCandidate);
      case Some(c) =>
        var links: map<Id, Id> := map[id := c];
        overrides := OfferOverrides(overrides, user, links);
        txns := Link(txns, links);
        result := Success(c);
    }

    method AutoResolvePendingDuplicates(user: Id, connection: Option<Id>) returns (count: nat)
      modifies this
      ensures AutoResolved(old(State()), user, connection, State(), count)
      ensures |VisibleIds(txns)| == |VisibleIds(old(txns))| - count
    {
      var links := MatchPending(State(), user, connection);
      overrides := OfferOverrides(overrides, user, links);
      txns := Link(txns, links);
      count := |links|;
      assert Linked(old(State()), user, links, State());
      AutoResolveHidesCount(old(State()), user, connection, State(), count);
    }

    method MergeDuplicateProviderAccounts(user: Id, connection: Id) returns (result: Result<nat, DbError>)
      modifies this
      ensures AccountsMerged(old(State()), user, connection, State(), result)
    {
      var links := FindDuplicateAccounts(State(), user, connection);
      if t :| t in txns && txns[t].account in links && txns[t].user != Some(user) {
        result := Failure(ForeignKeyViolation);
      } else {
        txns := Move(txns, user, links);
        accounts := accounts - links.Keys;
        result := Success(|links|);
      }
      assert MovedAndDeleted(old(State()), user, links, State(), result);
    }

    method MergeDuplicateProviderTransactions(user: Id, connection: Id) returns (count: nat)
      modifies this
      ensures Merged(old(State()), user, connection, State(), count)
    {
      var pairs := FindPairs(State(), user, connection);
      var gone := set pair | pair in pairs :: pair.1;
      overrides := MoveOverrides(overrides, user, pairs, gone);
      txns := PointerForest.Without(txns, gone);
      count := |gone|;
    }
  }
}
