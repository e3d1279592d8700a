/** `auto_resolve_pending_duplicates` and `mark_transaction_duplicate`: rows are hidden behind others. */
module DuplicateLinks {
  import opened Prelude
  import opened Text
  import opened Store
  import opened PointerForest

  const MATCH_WINDOW_DAYS := 7
  const KEY_PREFIX := 6

  // ----- the automatic statement

  predicate Resolvable(db: Db, user: Id, connection: Option<Id>, id: Id) {
    InScope(db, user, connection, id) && db.txns[id].Visible() && db.txns[id].amount != 0
  }

  function PendingRows(db: Db, user: Id, connection: Option<Id>): set<Id> {
    set id | id in db.txns && Resolvable(db, user, connection, id) && db.txns[id].pending
  }

  function PostedRows(db: Db, user: Id, connection: Option<Id>): set<Id> {
    set id | id in db.txns && Resolvable(db, user, connection, id) && !db.txns[id].pending
  }

  /** The merchant half of the join; an empty key is contained in every key. */
  predicate KeysAgree(p: string, q: string) {
    || p == q || Contains(q, p) || Contains(p, q)
    || (|p| >= KEY_PREFIX && |q| >= KEY_PREFIX && (Contains(q, p[..KEY_PREFIX]) || Contains(p, q[..KEY_PREFIX])))
    || (Contains(p, "verizon") && Contains(q, "verizon"))
    || (Contains(p, "amazon") && Contains(q, "amazon"))
  }

  function Distance(p: Txn, q: Txn): nat {
    Abs(q.date - p.date)
  }

  predicate AutoMatch(p: Txn, q: Txn) {
    && q.account == p.account && q.amount == p.amount
    && Distance(p, q) <= MATCH_WINDOW_DAYS
    && KeysAgree(p.Key(), q.Key())
  }

  /** `q` is nearer to `p` than `r`, or as near and no later. */
  predicate NoFarther(p: Txn, q: Txn, r: Txn) {
    Distance(p, q) < Distance(p, r) || (Distance(p, q) == Distance(p, r) && q.date <= r.date)
  }

  ghost predicate HasMatch(db: Db, user: Id, connection: Option<Id>, p: Id) {
    && p in PendingRows(db, user, connection)
    && exists q :: q in PostedRows(db, user, connection) && AutoMatch(db.txns[p], db.txns[q])
  }

  /** A match the statement may keep for `p`: one that no other is nearer than. */
  ghost predicate BestMatch(db: Db, user: Id, connection: Option<Id>, p: Id, q: Id) {
    && p in PendingRows(db, user, connection) && q in PostedRows(db, user, connection)
    && AutoMatch(db.txns[p], db.txns[q])
    && forall r :: r in PostedRows(db, user, connection) && AutoMatch(db.txns[p], db.txns[r]) ==>
         NoFarther(db.txns[p], db.txns[q], db.txns[r])
  }

  ghost predicate MatchedPairs(db: Db, user: Id, connection: Option<Id>, links: map<Id, Id>) {
    && (forall p :: p in links ==> BestMatch(db, user, connection, p, links[p]))
    && (forall p :: HasMatch(db, user, connection, p) ==> p in links)
  }

  ghost predicate Linked(db: Db, user: Id, links: map<Id, Id>, db': Db) {
    && db'.accounts == db.accounts
    && db'.txns == Link(db.txns, links)
    && OverridesOffered(db.overrides, user, links, db'.overrides)
  }

  ghost predicate AutoResolved(db: Db, user: Id, connection: Option<Id>, db': Db, count: nat) {
    exists links: map<Id, Id> ::
      MatchedPairs(db, user, connection, links) && Linked(db, user, links, db') && count == |links|
  }

  // ----- the manual statement

  /** `selected` and the join of `candidate`. */
  predicate IsCandidate(db: Db, user: Id, id: Id, c: Id) {
    && id in db.txns && c in db.txns && c != id
    && db.txns[id].user == Some(user) && db.txns[c].user == Some(user)
    && db.txns[id].Visible() && db.txns[c].Visible()
    && db.txns[c].account == db.txns[id].account && db.txns[c].amount == db.txns[id].amount
    && Distance(db.txns[id], db.txns[c]) <= MATCH_WINDOW_DAYS
    && db.txns[id].amount != 0
    && (db.txns[id].pending || !db.txns[c].pending)
  }

  predicate NameMatch(s: string, t: string) {
    s != "" && t != "" && (t == s || Contains(t, s) || Contains(s, t))
  }

  /** Candidates of the same merchant come first, then posted ones, then the oldest, then the smallest id. */
  predicate Before(db: Db, id: Id, a: Id, b: Id)
    requires id in db.txns && a in db.txns && b in db.txns
  {
    var s, x, y := db.txns[id].Key(), db.txns[a], db.txns[b];
    var namedX, namedY := NameMatch(s, x.Key()), NameMatch(s, y.Key());
    if namedX != namedY then namedX
    else if x.pending != y.pending then !x.pending
    else if x.createdAt != y.createdAt then x.createdAt < y.createdAt
    else a < b
  }

  ghost predicate FirstCandidate(db: Db, user: Id, id: Id, c: Id) {
    && IsCandidate(db, user, id, c)
    && forall other :: IsCandidate(db, user, id, other) && other != c ==> Before(db, id, c, other)
  }

  ghost predicate Marked(db: Db, user: Id, id: Id, db': Db, result: Result<Id, DbError>) {
    match result
    case Success(c) => FirstCandidate(db, user, id, c) && Linked(db, user, map[id := c], db')
    case Failure(e) => e == NoDuplicateCandidate && db' == db && forall c :: !IsCandidate(db, user, id, c)
  }

  // ----- shape of a set of links

  /** What both statements guarantee about each link they set: in particular, a posted row is never
      hidden behind a pending one. */
  ghost predicate Linkable(txns: map<Id, Txn>, p: Id, q: Id) {
    && p in VisibleIds(txns) && q in VisibleIds(txns)
    && Owner(txns[p]) == Owner(txns[q]) && txns[p].amount == txns[q].amount != 0
    && Distance(txns[p], txns[q]) <= MATCH_WINDOW_DAYS
    && (txns[p].pending || !txns[q].pending)
  }

  ghost predicate WellLinked(db: Db, links: map<Id, Id>) {
    && links.Keys <= VisibleIds(db.txns) && links.Values <= VisibleIds(db.txns) && links.Keys !! links.Values
    && forall p :: p in links ==> Linkable(db.txns, p, links[p])
  }

  lemma {:induction false} MatchedPairsWellLinked(db: Db, user: Id, connection: Option<Id>, links: map<Id, Id>)
    requires MatchedPairs(db, user, connection, links)
    ensures WellLinked(db, links)
  {
  }

  lemma {:induction false} LinkKeepsConstraints(txns: map<Id, Txn>, accounts: map<Id, Account>, links: map<Id, Id>)
    requires AccountsExist(txns, accounts) && PointersExist(txns) && ProviderIdsUnique(txns)
    requires forall p :: p in links ==> links[p] in txns
    ensures AccountsExist(Link(txns, links), accounts) && PointersExist(Link(txns, links))
    ensures ProviderIdsUnique(Link(txns, links))
  {
  }

  lemma {:induction false} OfferedOverridesHaveRows(
    before: OverrideTable, user: Id, links: map<Id, Id>, after: OverrideTable, txns: map<Id, Txn>)
    requires OverridesOffered(before, user, links, after) && OverridesExist(before, txns)
    requires forall p :: p in links ==> links[p] in txns
    ensures OverridesExist(after, txns)
  {
  }

  lemma {:induction false} LinkedKeepsStore(db: Db, user: Id, links: map<Id, Id>, db': Db)
    requires Linked(db, user, links, db') && WellLinked(db, links)
    requires Integrity(db) && Forest(db.txns) && SameOwner(db.txns)
    ensures Integrity(db') && Forest(db'.txns) && SameOwner(db'.txns)
  {
    forall p | p in links
      ensures links[p] in db.txns && Owner(db.txns[p]) == Owner(db.txns[links[p]])
    {
      assert Linkable(db.txns, p, links[p]);
    }
    LinkKeepsForest(db.txns, links);
    LinkKeepsOwner(db.txns, links);
    LinkKeepsConstraints(db.txns, db.accounts, links);
    OfferedOverridesHaveRows(db.overrides, user, links, db'.overrides, db.txns);
    assert OverridesExist(db'.overrides, db'.txns);
  }

  /** Every row that `p` represented is represented by `p`'s target afterwards, and nothing else moves. */
  lemma {:induction false} LinkMovesRepresentative(txns: map<Id, Txn>, links: map<Id, Id>, root: Id, id: Id, n: nat)
    requires links.Keys <= VisibleIds(txns) && links.Values <= VisibleIds(txns) && links.Keys !! links.Values
    requires root in VisibleIds(txns) && Follow(txns, id, n) == Some(root)
    ensures Represents(Link(txns, links), if root in links then links[root] else root, id)
    decreases n
  {
    var linked := Link(txns, links);
    if n == 0 {
      if root in links {
        assert links[root] in links.Values;
        assert linked[links[root]] == txns[links[root]];
        assert Follow(linked, links[root], 0) == Some(links[root]);
        assert Follow(linked, root, 1) == Some(links[root]);
      } else {
        assert linked[root] == txns[root];
        assert Follow(linked, root, 0) == Some(root);
      }
    } else {
      LinkMovesRepresentative(txns, links, root, txns[id].duplicateOf.value, n - 1);
      assert linked[id] == txns[id];
      var target := if root in links then links[root] else root;
      var m: nat :| Follow(linked, linked[id].duplicateOf.value, m) == Some(target);
      assert Follow(linked, id, m + 1) == Some(target);
    }
  }

  // ----- the automatic statement: outcome

  /** The count reported is the drop in the number of visible rows. */
  lemma {:induction false} AutoResolveHidesCount(db: Db, user: Id, connection: Option<Id>, db': Db, count: nat)
    requires AutoResolved(db, user, connection, db', count)
    ensures |VisibleIds(db'.txns)| == |VisibleIds(db.txns)| - count
  {
    var links: map<Id, Id> :|
      MatchedPairs(db, user, connection, links) && Linked(db, user, links, db') && count == |links|;
    MatchedPairsWellLinked(db, user, connection, links);
    LinkHidesExactly(db.txns, links);
  }

  /** A row is hidden exactly when it was pending with a match; it then points at a posted row of the
      same account and amount, at most a week away, that no matching posted row is closer than. */
  lemma {:induction false} HiddenRowPointsAtNearest(
    db: Db, user: Id, connection: Option<Id>, db': Db, count: nat, p: Id)
    requires AutoResolved(db, user, connection, db', count) && p in db.txns
    ensures HasMatch(db, user, connection, p) <==> db'.txns[p] != db.txns[p]
    ensures HasMatch(db, user, connection, p) ==>
              && db'.txns[p].duplicateOf.Some?
              && BestMatch(db, user, connection, p, db'.txns[p].duplicateOf.value)
              && db'.txns[p] == db.txns[p].(duplicateOf := db'.txns[p].duplicateOf)
              && Represents(db'.txns, db'.txns[p].duplicateOf.value, p)
  {
    var links: map<Id, Id> :|
      MatchedPairs(db, user, connection, links) && Linked(db, user, links, db') && count == |links|;
    MatchedPairsWellLinked(db, user, connection, links);
    if p in links {
      assert BestMatch(db, user, connection, p, links[p]);
      assert Follow(db.txns, p, 0) == Some(p);
      LinkMovesRepresentative(db.txns, links, p, p, 0);
    }
  }

  /** No visible pending row in scope still has a visible posted match in scope. */
  lemma {:induction false} NoMatchLeft(db: Db, user: Id, connection: Option<Id>, db': Db, count: nat, p: Id)
    requires AutoResolved(db, user, connection, db', count)
    ensures !HasMatch(db', user, connection, p)
  {
    var links: map<Id, Id> :|
      MatchedPairs(db, user, connection, links) && Linked(db, user, links, db') && count == |links|;
    if HasMatch(db', user, connection, p) {
      var q :| q in PostedRows(db', user, connection) && AutoMatch(db'.txns[p], db'.txns[q]);
      assert db'.txns[p] == db.txns[p] && db'.txns[q] == db.txns[q];
      assert p in PendingRows(db, user, connection) && q in PostedRows(db, user, connection);
      assert HasMatch(db, user, connection, p);
      assert false;
    }
  }

  lemma {:induction false} LinkingNothing(db: Db, user: Id, links: map<Id, Id>, db': Db)
    requires Linked(db, user, links, db') && links.Keys == {}
    ensures db' == db && |links| == 0
  {
  }

  lemma {:induction false} LinkedWhenMatched(db: Db, user: Id, scope: Option<Id>, links: map<Id, Id>)
    requires MatchedPairs(db, user, scope, links)
    ensures forall q :: q in links <==> HasMatch(db, user, scope, q)
  {
    forall q | q in links
      ensures HasMatch(db, user, scope, q)
    {
      assert BestMatch(db, user, scope, q, links[q]);
    }
  }

  /** Running the statement again at once changes nothing and reports zero. */
  lemma {:induction false} AutoResolveIsIdempotent(
    db: Db, user: Id, connection: Option<Id>, db': Db, count: nat, db'': Db, count': nat)
    requires AutoResolved(db, user, connection, db', count)
    requires AutoResolved(db', user, connection, db'', count')
    ensures db'' == db' && count' == 0
  {
    var links: map<Id, Id> :|
      MatchedPairs(db', user, connection, links) && Linked(db', user, links, db'') && count' == |links|;
    LinkedWhenMatched(db', user, connection, links);
    forall p
      ensures p !in links
    {
      NoMatchLeft(db, user, connection, db', count, p);
    }
    LinkingNothing(db', user, links, db'');
  }

  /** No override changes, and the posted row of a pending row with an override has one afterwards,
      taken from a pending row that was linked to it. */
  lemma {:induction false} OverridesSurviveAutoResolve(
    db: Db, user: Id, connection: Option<Id>, db': Db, count: nat, p: Id)
    requires AutoResolved(db, user, connection, db', count)
    ensures forall k :: k in db.overrides ==> k in db'.overrides && db'.overrides[k] == db.overrides[k]
    ensures HasMatch(db, user, connection, p) && (p, user) in db.overrides ==>
              p in db'.txns && db'.txns[p].duplicateOf.Some? && (db'.txns[p].duplicateOf.value, user) in db'.overrides
  {
  }

  /** An override that appears is a copy of the override of a row hidden by this very call. */
  lemma {:induction false} NewOverrideIsCopied(
    db: Db, user: Id, connection: Option<Id>, db': Db, count: nat, k: (Id, Id))
    returns (p: Id)
    requires AutoResolved(db, user, connection, db', count)
    requires k in db'.overrides && k !in db.overrides
    ensures HasMatch(db, user, connection, p) && p in db'.txns && db'.txns[p].duplicateOf == Some(k.0)
    ensures k.1 == user && (p, user) in db.overrides && db'.overrides[k] == db.overrides[(p, user)]
  {
    var links: map<Id, Id> :|
      MatchedPairs(db, user, connection, links) && Linked(db, user, links, db') && count == |links|;
    p :| p in links && links[p] == k.0 && (p, user) in db.overrides && db'.overrides[k] == db.overrides[(p, user)];
    assert BestMatch(db, user, connection, p, links[p]);
  }

  lemma {:induction false} AutoResolveKeepsStore(db: Db, user: Id, connection: Option<Id>, db': Db, count: nat)
    requires AutoResolved(db, user, connection, db', count)
    requires Integrity(db) && Forest(db.txns) && SameOwner(db.txns)
    ensures Integrity(db') && Forest(db'.txns) && SameOwner(db'.txns)
  {
    var links: map<Id, Id> :|
      MatchedPairs(db, user, connection, links) && Linked(db, user, links, db') && count == |links|;
    MatchedPairsWellLinked(db, user, connection, links);
    LinkedKeepsStore(db, user, links, db');
  }

  // ----- the manual statement: outcome

  /** The canonical row is unique: the tie-break by id makes the order total. */
  lemma {:induction false} CanonicalIsDetermined(db: Db, user: Id, id: Id, a: Id, b: Id)
    requires FirstCandidate(db, user, id, a) && FirstCandidate(db, user, id, b)
    ensures a == b
  {
  }

  /** A successful mark hides the selected row only, behind a row that stays visible; a second mark fails. */
  lemma {:induction false} MarkHidesOnlySelected(
    db: Db, user: Id, id: Id, db': Db, c: Id, db'': Db, again: Result<Id, DbError>)
    requires Marked(db, user, id, db', Success(c))
    requires Marked(db', user, id, db'', again)
    ensures VisibleIds(db'.txns) == VisibleIds(db.txns) - {id} && id in VisibleIds(db.txns)
    ensures c in VisibleIds(db'.txns) && Represents(db'.txns, c, id)
    ensures again == Failure(NoDuplicateCandidate) && db'' == db'
  {
    var links: map<Id, Id> := map[id := c];
    assert links.Values == {c};
    LinkHidesExactly(db.txns, links);
    assert Follow(db.txns, id, 0) == Some(id);
    LinkMovesRepresentative(db.txns, links, id, id, 0);
    assert !db'.txns[id].Visible();
  }

  lemma {:induction false} MarkWellLinked(db: Db, user: Id, id: Id, c: Id)
    requires FirstCandidate(db, user, id, c)
    ensures WellLinked(db, map[id := c])
  {
  }

  lemma {:induction false} MarkKeepsStore(db: Db, user: Id, id: Id, db': Db, result: Result<Id, DbError>)
    requires Marked(db, user, id, db', result)
    requires Integrity(db) && Forest(db.txns) && SameOwner(db.txns)
    ensures Integrity(db') && Forest(db'.txns) && SameOwner(db'.txns)
  {
    if result.Success? {
      MarkWellLinked(db, user, id, result.value);
      LinkedKeepsStore(db, user, map[id := result.value], db');
    }
  }
}
