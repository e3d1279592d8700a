/** `apply_category_rules` over rules in the order `get_category_rules` returns them. */
module CategoryRules {
  import opened Prelude
  import opened Glob
  import opened Sorting
  import opened Text

  datatype Rule = Rule(pattern: string, category: string, subcategory: Option<string>, createdAt: int, updatedAt: int)

  datatype Txn = Txn(
    id: nat, merchant: Option<string>, customCategory: Option<string>,
    ruleCategory: Option<string>, ruleSubcategory: Option<string>)

  /** `a` may come before `b`: longest pattern first, then last updated, then last created. */
  predicate NotAfter(a: Rule, b: Rule) {
    || |a.pattern| > |b.pattern|
    || (|a.pattern| == |b.pattern| &&
        (a.updatedAt > b.updatedAt || (a.updatedAt == b.updatedAt && a.createdAt >= b.createdAt)))
  }

  /** A result of the query: ties may come out either way. */
  predicate Fetched(stored: multiset<Rule>, rules: seq<Rule>) {
    && multiset(rules) == stored
    && forall i, j :: 0 <= i < j < |rules| ==> NotAfter(rules[i], rules[j])
  }

  function MerchantText(t: Txn): string {
    if t.merchant.Some? then t.merchant.value else "<null>"
  }

  predicate Applies(r: Rule, t: Txn) {
    t.customCategory.None? && GlobMatch(r.pattern, MerchantText(t))
  }

  predicate IsFirstMatch(rules: seq<Rule>, t: Txn, i: int) {
    0 <= i < |rules| && Applies(rules[i], t) && forall j :: 0 <= j < i ==> !Applies(rules[j], t)
  }

  function WithRule(t: Txn, r: Rule): Txn {
    t.(ruleCategory := Some(r.category), ruleSubcategory := r.subcategory)
  }

  ghost predicate Categorised(rules: seq<Rule>, before: Txn, after: Txn) {
    if exists i :: IsFirstMatch(rules, before, i)
    then exists i :: IsFirstMatch(rules, before, i) && after == WithRule(before, rules[i])
    else after == before
  }

  method FindRule(rules: seq<Rule>, t: Txn) returns (found: Option<Rule>)
    requires t.customCategory.None?
    ensures found.Some? ==> exists i :: IsFirstMatch(rules, t, i) && found.value == rules[i]
    ensures found.None? ==> forall i :: 0 <= i < |rules| ==> !Applies(rules[i], t)
  {
    for i := 0 to |rules|
      invariant forall j :: 0 <= j < i ==> !Applies(rules[j], t)
    {
      if GlobMatch(rules[i].pattern, MerchantText(t)) {
        assert IsFirstMatch(rules, t, i);
        return Some(rules[i]);
      }
    }
    found := None;
  }

  method ApplyCategoryRules(transactions: array<Txn>, rules: seq<Rule>)
    modifies transactions
    ensures forall k :: 0 <= k < transactions.Length ==> Categorised(rules, old(transactions[k]), transactions[k])
  {
    for n := 0 to transactions.Length
      invariant forall k :: 0 <= k < n ==> Categorised(rules, old(transactions[k]), transactions[k])
      invariant forall k :: n <= k < transactions.Length ==> transactions[k] == old(transactions[k])
    {
      var t := transactions[n];
      if t.customCategory.None? {
        var found := FindRule(rules, t);
        if found.Some? {
          transactions[n] := WithRule(t, found.value);
        }
      }
      assert Categorised(rules, t, transactions[n]);
    }
  }

  // ----- what the order of the rules buys

  lemma {:induction false} FirstMatchExists(rules: seq<Rule>, t: Txn, i: nat) returns (first: nat)
    requires i < |rules| && Applies(rules[i], t)
    ensures IsFirstMatch(rules, t, first) && first <= i
  {
    if j :| 0 <= j < i && Applies(rules[j], t) {
      first := FirstMatchExists(rules, t, j);
    } else {
      first := i;
    }
  }

  lemma {:induction false} FetchedMembers(stored: multiset<Rule>, rules: seq<Rule>, r: Rule)
    requires Fetched(stored, rules)
    ensures r in rules <==> r in stored
  {
  }

  lemma {:induction false} FirstMatchIsTop(stored: multiset<Rule>, rules: seq<Rule>, t: Txn, i: int, r: Rule)
    requires Fetched(stored, rules) && IsFirstMatch(rules, t, i) && r in stored && Applies(r, t)
    ensures NotAfter(rules[i], r)
  {
  }

  lemma {:induction false} SomeFirstMatch(
    stored: multiset<Rule>, rules: seq<Rule>, t: Txn, r: Rule)
    returns (first: int)
    requires Fetched(stored, rules) && r in stored && Applies(r, t)
    ensures IsFirstMatch(rules, t, first)
  {
    FetchedMembers(stored, rules, r);
    var k :| 0 <= k < |rules| && rules[k] == r;
    first := FirstMatchExists(rules, t, k);
  }

  ghost predicate SomeApplies(stored: multiset<Rule>, t: Txn) {
    exists r :: r in stored && Applies(r, t)
  }

  /** A transaction that some stored rule applies to gets the category of a longest matching pattern,
      the latest updated one among those; nothing else about it changes. */
  lemma {:induction false} LongestPatternWins(
    stored: multiset<Rule>, rules: seq<Rule>, before: Txn, after: Txn)
    returns (winner: Rule)
    requires Fetched(stored, rules) && Categorised(rules, before, after) && SomeApplies(stored, before)
    ensures winner in stored && Applies(winner, before) && after == WithRule(before, winner)
    ensures forall r :: r in stored && Applies(r, before) ==> NotAfter(winner, r)
  {
    var some :| some in stored && Applies(some, before);
    var first := SomeFirstMatch(stored, rules, before, some);
    var i :| IsFirstMatch(rules, before, i) && after == WithRule(before, rules[i]);
    winner := rules[i];
    FetchedMembers(stored, rules, winner);
    forall r | r in stored && Applies(r, before)
      ensures NotAfter(winner, r)
    {
      FirstMatchIsTop(stored, rules, before, i, r);
    }
  }

  /** A custom category shuts every rule out, and so does a merchant no pattern matches. */
  lemma {:induction false} UntouchedUnlessApplicable(stored: multiset<Rule>, rules: seq<Rule>, before: Txn, after: Txn)
    requires Fetched(stored, rules) && Categorised(rules, before, after) && !SomeApplies(stored, before)
    ensures after == before
  {
  }

  /** The rules never look at what an earlier pass wrote, so a second pass changes nothing. */
  lemma {:induction false} ApplyingTwiceIsOnce(rules: seq<Rule>, before: Txn, once: Txn, twice: Txn)
    requires Categorised(rules, before, once) && Categorised(rules, once, twice)
    ensures twice == once
  {
  }

  /** A rule the order lets come first among those that apply. */
  ghost predicate Top(stored: multiset<Rule>, t: Txn, r: Rule) {
    r in stored && Applies(r, t) && forall s :: s in stored && Applies(s, t) ==> NotAfter(r, s)
  }

  /** The rules that may come first all set the same category. */
  ghost predicate TopsAgree(stored: multiset<Rule>, t: Txn) {
    forall r, s :: Top(stored, t, r) && Top(stored, t, s) ==> WithRule(t, r) == WithRule(t, s)
  }

  /** Some fetch of the stored rules turns `t` into `after`. */
  ghost predicate CanBecome(stored: multiset<Rule>, t: Txn, after: Txn) {
    exists rules :: Fetched(stored, rules) && Categorised(rules, t, after)
  }

  lemma {:induction false} CategorisedByTop(
    stored: multiset<Rule>, rules: seq<Rule>, before: Txn, after: Txn)
    returns (top: Rule)
    requires Fetched(stored, rules) && Categorised(rules, before, after) && SomeApplies(stored, before)
    ensures Top(stored, before, top) && after == WithRule(before, top)
  {
    top := LongestPatternWins(stored, rules, before, after);
  }

  function OrderOf(): (Rule, Rule) -> bool {
    (a: Rule, b: Rule) => NotAfter(a, b)
  }

  /** The query has an answer: the stored rules can be put in order. */
  lemma {:induction false} SomeFetch(stored: multiset<Rule>) returns (rules: seq<Rule>)
    ensures Fetched(stored, rules)
    decreases |stored|
  {
    if stored == multiset{} {
      rules := [];
    } else {
      var r :| r in stored;
      var rest := SomeFetch(stored - multiset{r});
      rules := Insert(rest, r, OrderOf());
      InsertSorts(rest, r, OrderOf());
      assert forall i, j :: 0 <= i < j < |rules| ==> OrderOf()(rules[i], rules[j]);
    }
  }

  /** Where in an ordered list `r` may be moved to: behind exactly the rules it has to follow. */
  lemma {:induction false} FirstNotBefore(rules: seq<Rule>, r: Rule, j: nat) returns (m: nat)
    requires j < |rules| && NotAfter(r, rules[j])
    ensures m <= j && NotAfter(r, rules[m]) && forall k :: 0 <= k < m ==> !NotAfter(r, rules[k])
  {
    if k :| 0 <= k < j && NotAfter(r, rules[k]) {
      m := FirstNotBefore(rules, r, k);
    } else {
      m := j;
    }
  }

  /** `r` moved from position `i` up to position `m`. */
  function Moved(rules: seq<Rule>, m: nat, i: nat): (r: seq<Rule>)
    requires m <= i < |rules|
    ensures |r| == |rules|
  {
    rules[..m] + [rules[i]] + rules[m..i] + rules[i + 1..]
  }

  lemma {:induction false} MovedIsPermutation(rules: seq<Rule>, m: nat, i: nat)
    requires m <= i < |rules|
    ensures multiset(Moved(rules, m, i)) == multiset(rules)
  {
    assert rules == rules[..m] + rules[m..i] + [rules[i]] + rules[i + 1..];
  }

  lemma {:induction false} MovedIsOrdered(stored: multiset<Rule>, rules: seq<Rule>, m: nat, i: nat)
    requires Fetched(stored, rules) && m <= i < |rules|
    requires NotAfter(rules[i], rules[m])
    ensures Fetched(stored, Moved(rules, m, i))
  {
    MovedIsPermutation(rules, m, i);
    var moved := Moved(rules, m, i);
    forall j, k | 0 <= j < k < |moved|
      ensures NotAfter(moved[j], moved[k])
    {
      var before := j' => if j' < m then j' else if j' == m then i else if j' <= i then j' - 1 else j';
      assert moved[j] == rules[before(j)] && moved[k] == rules[before(k)];
    }
  }

  /** Every rule that may come first does come first in some fetch. */
  lemma {:induction false} TopCanWin(stored: multiset<Rule>, t: Txn, r: Rule)
    requires Top(stored, t, r)
    ensures CanBecome(stored, t, WithRule(t, r))
  {
    var rules := SomeFetch(stored);
    FetchedMembers(stored, rules, r);
    var i :| 0 <= i < |rules| && rules[i] == r;
    var m := FirstNotBefore(rules, r, i);
    MovedIsOrdered(stored, rules, m, i);
    var moved := Moved(rules, m, i);
    forall j | 0 <= j < m
      ensures !Applies(moved[j], t)
    {
      FetchedMembers(stored, rules, rules[j]);
    }
    assert IsFirstMatch(moved, t, m) && moved[m] == r;
  }

  /** Two fetches can categorise a transaction differently if and only if two rules that may both come
      first disagree; nothing further down the order matters. */
  lemma {:induction false} FetchesAgreeIff(stored: multiset<Rule>, t: Txn)
    ensures (forall a, b :: CanBecome(stored, t, a) && CanBecome(stored, t, b) ==> a == b) <==> TopsAgree(stored, t)
  {
    if TopsAgree(stored, t) {
      forall a, b | CanBecome(stored, t, a) && CanBecome(stored, t, b)
        ensures a == b
      {
        var one :| Fetched(stored, one) && Categorised(one, t, a);
        var other :| Fetched(stored, other) && Categorised(other, t, b);
        if SomeApplies(stored, t) {
          var r := CategorisedByTop(stored, one, t, a);
          var s := CategorisedByTop(stored, other, t, b);
        } else {
          UntouchedUnlessApplicable(stored, one, t, a);
          UntouchedUnlessApplicable(stored, other, t, b);
        }
      }
    } else {
      var r, s :| Top(stored, t, r) && Top(stored, t, s) && WithRule(t, r) != WithRule(t, s);
      TopCanWin(stored, t, r);
      TopCanWin(stored, t, s);
    }
  }

  /** Two rules of one character, saved at the same instant, both match a merchant of one character: it is
      under Food or under Travel as the database pleases. */
  lemma {:induction false} ShortRulesTie(r: Rule, s: Rule, t: Txn)
    requires r == Rule("*", "Food", None, 0, 0) && s == Rule("?", "Travel", None, 0, 0)
    requires t == Txn(1, Some("x"), None, None, None)
    ensures CanBecome(multiset{r, s}, t, WithRule(t, r)) && CanBecome(multiset{r, s}, t, WithRule(t, s))
    ensures WithRule(t, r) != WithRule(t, s)
  {
    assert Lower("*") == "*" && Lower("?") == "?" && Lower("x") == "x";
    OneCharacter('*', "x");
    OneCharacter('?', "x");
    assert Fetched(multiset{r, s}, [r, s]) && IsFirstMatch([r, s], t, 0);
    assert Fetched(multiset{r, s}, [s, r]) && IsFirstMatch([s, r], t, 0);
    assert |"Food"| != |"Travel"|;
  }
}
