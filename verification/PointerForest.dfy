/** The graph of `duplicate_of_transaction_id` pointers: what every statement has to keep. */
module PointerForest {
  import opened Prelude
  import opened Store

  /** A rank that grows along every pointer; its existence rules cycles out. */
  ghost predicate Ranked(txns: map<Id, Txn>, rank: map<Id, nat>) {
    && rank.Keys == txns.Keys
    && forall t :: t in txns && txns[t].duplicateOf.Some? ==>
         txns[t].duplicateOf.value in txns && rank[t] < rank[txns[t].duplicateOf.value]
  }

  ghost predicate Forest(txns: map<Id, Txn>) {
    exists rank: map<Id, nat> :: Ranked(txns, rank)
  }

  /** A row and the row it duplicates belong to the same user and account. */
  ghost predicate SameOwner(txns: map<Id, Txn>) {
    forall t :: t in txns && txns[t].duplicateOf.Some? && txns[t].duplicateOf.value in txns ==>
      Owner(txns[t]) == Owner(txns[txns[t].duplicateOf.value])
  }

  function Owner(t: Txn): (Option<Id>, Id) {
    (t.user, t.account)
  }

  /** The row reached after following `n` pointers from `id`, if there are that many. */
  ghost function Follow(txns: map<Id, Txn>, id: Id, n: nat): Option<Id>
    decreases n
  {
    if n == 0 then Some(id)
    else if id !in txns || txns[id].Visible() then None
    else Follow(txns, txns[id].duplicateOf.value, n - 1)
  }

  /** `root` is a visible row at the end of the chain that starts at `id`. */
  ghost predicate Represents(txns: map<Id, Txn>, root: Id, id: Id) {
    root in VisibleIds(txns) && exists n: nat :: Follow(txns, id, n) == Some(root)
  }

  lemma {:induction false} FollowTwice(txns: map<Id, Txn>, id: Id, n: nat, m: nat)
    requires Follow(txns, id, n).Some?
    ensures Follow(txns, id, n + m) == Follow(txns, Follow(txns, id, n).value, m)
    decreases n
  {
    if n > 0 {
      FollowTwice(txns, txns[id].duplicateOf.value, n - 1, m);
    }
  }

  lemma {:induction false} FollowClimbs(txns: map<Id, Txn>, rank: map<Id, nat>, id: Id, n: nat)
    requires Ranked(txns, rank) && id in txns && n > 0 && Follow(txns, id, n).Some?
    ensures Follow(txns, id, n).value in txns && rank[id] < rank[Follow(txns, id, n).value]
    decreases n
  {
    if n > 1 {
      FollowClimbs(txns, rank, txns[id].duplicateOf.value, n - 1);
    }
  }

  /** No chain of duplicates ever returns to its start. */
  lemma {:induction false} Acyclic(txns: map<Id, Txn>, id: Id, n: nat)
    requires Forest(txns) && id in txns && n > 0
    ensures Follow(txns, id, n) != Some(id)
  {
    var rank :| Ranked(txns, rank);
    if Follow(txns, id, n) == Some(id) {
      FollowClimbs(txns, rank, id, n);
    }
  }

  lemma {:induction false} RankBound(txns: map<Id, Txn>, rank: map<Id, nat>, ids: set<Id>) returns (bound: nat)
    requires ids <= rank.Keys
    ensures forall t :: t in ids ==> rank[t] <= bound
    decreases ids
  {
    if ids == {} {
      bound := 0;
    } else {
      var t :| t in ids;
      var rest := RankBound(txns, rank, ids - {t});
      bound := Max(rest, rank[t]);
    }
  }

  lemma {:induction false} ReachRoot(txns: map<Id, Txn>, rank: map<Id, nat>, bound: nat, id: Id)
    returns (n: nat, root: Id)
    requires Ranked(txns, rank) && SameOwner(txns) && id in txns
    requires forall t :: t in txns ==> rank[t] <= bound
    ensures Follow(txns, id, n) == Some(root) && root in VisibleIds(txns)
    ensures Owner(txns[root]) == Owner(txns[id])
    decreases bound - rank[id]
  {
    if txns[id].Visible() {
      n, root := 0, id;
    } else {
      var m, r := ReachRoot(txns, rank, bound, txns[id].duplicateOf.value);
      n, root := m + 1, r;
    }
  }

  /** Every row is represented by exactly one visible row, and that row has the same user and account. */
  lemma {:induction false} OneVisibleRepresentative(txns: map<Id, Txn>, id: Id) returns (root: Id)
    requires Forest(txns) && SameOwner(txns) && id in txns
    ensures Represents(txns, root, id) && Owner(txns[root]) == Owner(txns[id])
    ensures forall other :: Represents(txns, other, id) ==> other == root
  {
    var rank :| Ranked(txns, rank);
    var bound := RankBound(txns, rank, txns.Keys);
    var n, r := ReachRoot(txns, rank, bound, id);
    root := r;
    forall other | Represents(txns, other, id)
      ensures other == root
    {
      var m: nat :| Follow(txns, id, m) == Some(other);
      if n <= m {
        FollowTwice(txns, id, n, m - n);
      } else {
        FollowTwice(txns, id, m, n - m);
      }
    }
  }

  /** Linking visible rows to other visible rows that are not linked themselves keeps the forest. */
  lemma {:induction false} LinkKeepsForest(txns: map<Id, Txn>, links: map<Id, Id>)
    requires Forest(txns)
    requires links.Keys <= VisibleIds(txns) && links.Values <= VisibleIds(txns) && links.Keys !! links.Values
    ensures Forest(Link(txns, links))
  {
    var rank :| Ranked(txns, rank);
    var bound := RankBound(txns, rank, txns.Keys);
    var lifted: map<Id, nat> := map t | t in txns :: if t in links.Values then bound + 1 else rank[t];
    var linked := Link(txns, links);
    forall t | t in linked && linked[t].duplicateOf.Some?
      ensures linked[t].duplicateOf.value in linked && lifted[t] < lifted[linked[t].duplicateOf.value]
    {
      if t in links {
        assert links[t] in links.Values;
      } else {
        assert linked[t] == txns[t] && t !in links.Values;
      }
    }
    assert Ranked(linked, lifted);
  }

  lemma {:induction false} LinkKeepsOwner(txns: map<Id, Txn>, links: map<Id, Id>)
    requires SameOwner(txns)
    requires forall t :: t in links && t in txns ==> links[t] in txns && Owner(txns[t]) == Owner(txns[links[t]])
    ensures SameOwner(Link(txns, links))
  {
  }

  /** Deleting rows under ON DELETE SET NULL keeps the forest. */
  function Without(txns: map<Id, Txn>, gone: set<Id>): (kept: map<Id, Txn>)
    ensures kept.Keys == txns.Keys - gone
  {
    map t | t in txns && t !in gone ::
      if txns[t].duplicateOf.Some? && txns[t].duplicateOf.value in gone then txns[t].(duplicateOf := None) else txns[t]
  }

  /** A deletion shows again the rows that were hidden behind a deleted one. */
  lemma {:induction false} WithoutShowsAgain(txns: map<Id, Txn>, gone: set<Id>)
    ensures VisibleIds(Without(txns, gone))
         == (VisibleIds(txns) - gone)
            + (set t | t in txns && t !in gone && txns[t].duplicateOf.Some? && txns[t].duplicateOf.value in gone)
  {
  }

  lemma {:induction false} WithoutKeepsForest(txns: map<Id, Txn>, gone: set<Id>)
    requires Forest(txns) && SameOwner(txns)
    ensures Forest(Without(txns, gone)) && SameOwner(Without(txns, gone))
  {
    var rank :| Ranked(txns, rank);
    var kept := Without(txns, gone);
    var keptRank: map<Id, nat> := map t | t in kept :: rank[t];
    assert Ranked(kept, keptRank);
  }

  /** The pointer graph only depends on which rows exist and where they point. */
  lemma {:induction false} SamePointersKeepForest(txns: map<Id, Txn>, txns': map<Id, Txn>)
    requires Forest(txns)
    requires txns'.Keys == txns.Keys
    requires forall t :: t in txns ==> txns'[t].duplicateOf == txns[t].duplicateOf
    ensures Forest(txns')
  {
    var rank :| Ranked(txns, rank);
    assert Ranked(txns', rank);
  }

  lemma {:induction false} InsertKeepsForest(txns: map<Id, Txn>, id: Id, row: Txn)
    requires Forest(txns) && SameOwner(txns) && id !in txns && row.Visible()
    ensures Forest(txns[id := row]) && SameOwner(txns[id := row])
  {
    var rank :| Ranked(txns, rank);
    assert Ranked(txns[id := row], rank[id := 0]);
  }
}
