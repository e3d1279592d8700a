/** `SankeyCalculator.computeSankeyData`, from transactions to the finished graph. */
module Sankey {
  import opened Prelude
  import opened TransactionAmounts
  import opened OrderedTally
  import opened SankeyFlows
  import opened SankeyGraph

  datatype Stats = Stats(totalInflow: int, totalOutflow: int, netSavings: int, topExpense: Option<(string, int)>)

  datatype SankeyResult = SankeyResult(nodes: seq<Node>, links: seq<Link>, stats: Stats, hasData: bool, hasIncome: bool)

  /** Flow is conserved at every node but the hub, node 0. */
  ghost predicate SpokesBalanced(nodes: seq<Node>, links: seq<Link>, income: bool, sub: bool) {
    forall i :: 1 <= i < |nodes| ==> nodes[i].kind != HubNode && Balanced(nodes, links, i, income, sub)
  }

  /** What a node shows, in terms of the transactions alone. */
  ghost predicate Shows(flows: seq<Flow>, key: NodeKey, node: Node) {
    var net := Sum(flows, AllIn) - Sum(flows, AllOut);
    match key
    case IncomeHub => node.kind == HubNode && node.amount == Max(Sum(flows, AllIn), Sum(flows, AllOut))
    case SpendingHub => node.kind == HubNode && node.amount == Sum(flows, AllOut)
    case SourceKey(s) => node.kind == InflowNode && node.name == s && node.amount == Sum(flows, Source(s))
    case DeficitKey => node.kind == DeficitNode && node.amount == -net
    case CategoryKey(c) => node.kind == OutflowNode && node.name == c && node.amount == Sum(flows, Category(c))
    case SubcategoryKey(c, s) =>
      node.kind == SubcategoryNode && node.name == s && (s != "Other" ==> node.amount == Sum(flows, Subcategory(c, s)))
    case SavingsKey => node.kind == SavingsNode && node.amount == net
  }

  ghost predicate Faithful(flows: seq<Flow>, nodes: seq<Node>, keys: seq<NodeKey>) {
    |keys| == |nodes| && forall i :: 0 <= i < |nodes| ==> Shows(flows, keys[i], nodes[i])
  }

  /** A well-formed graph under construction, with the hub at index 0. */
  ghost predicate Sound(g: Graph, flows: seq<Flow>, income: bool, sub: bool)
    reads g
  {
    && g.Valid() && |g.nodes| >= 1 && g.nodes[0].kind == HubNode
    && SpokesBalanced(g.nodes, g.links, income, sub) && Faithful(flows, g.nodes, g.keys)
  }

  lemma {:induction false} ExtensionStaysBalanced(
    nodes: seq<Node>, links: seq<Link>, nodes': seq<Node>, links': seq<Link>, income: bool, sub: bool)
    requires SpokesBalanced(nodes, links, income, sub) && 1 <= |nodes| <= |nodes'| && nodes'[..|nodes|] == nodes
    requires SameFlow(links, links', |nodes|, 0)
    requires forall i :: |nodes| <= i < |nodes'| ==> nodes'[i].kind != HubNode && Balanced(nodes', links', i, income, sub)
    ensures SpokesBalanced(nodes', links', income, sub)
  {
  }

  lemma {:induction false} ExtensionStaysFaithful(
    flows: seq<Flow>, nodes: seq<Node>, keys: seq<NodeKey>, nodes': seq<Node>, keys': seq<NodeKey>)
    requires Faithful(flows, nodes, keys) && |nodes| <= |nodes'| == |keys'|
    requires nodes'[..|nodes|] == nodes && keys'[..|nodes|] == keys
    requires forall i :: |nodes| <= i < |nodes'| ==> Shows(flows, keys'[i], nodes'[i])
    ensures Faithful(flows, nodes', keys')
  {
  }

  lemma {:induction false} SourceExtends(
    flows: seq<Flow>, nodes: seq<Node>, keys: seq<NodeKey>, links: seq<Link>, node: Node, key: NodeKey, links': seq<Link>,
    income: bool, sub: bool)
    requires SpokesBalanced(nodes, links, income, sub) && Faithful(flows, nodes, keys) && |nodes| >= 1
    requires Layer(node.kind) == 0 && Shows(flows, key, node)
    requires Into(links', |nodes|) == 0 && OutOf(links', |nodes|) == node.amount && SameFlow(links, links', |nodes|, 0)
    ensures SpokesBalanced(nodes + [node], links', income, sub) && Faithful(flows, nodes + [node], keys + [key])
  {
  }

  /** A node on the left of the hub that shows what its key stands for. */
  method AddLeftNode(
    g: Graph, ghost key: NodeKey, id: string, name: string, amount: int, kind: NodeKind,
    ghost flows: seq<Flow>, ghost income: bool, ghost sub: bool)
    requires Sound(g, flows, income, sub)
    requires id == IdOf(key) && WellNamed(key) && key !in g.keys && amount > 0 && Layer(kind) == 0
    requires Shows(flows, key, Node(id, name, amount, kind))
    modifies g
    ensures Sound(g, flows, income, sub)
    ensures g.keys == old(g.keys) + [key] && g.nodes[0] == old(g.nodes)[0]
    ensures Into(g.links, 0) == old(Into(g.links, 0)) + amount && OutOf(g.links, 0) == old(OutOf(g.links, 0))
  {
    ghost var nodes, keys, links := g.nodes, g.keys, g.links;
    g.AddSource(0, key, id, name, amount, kind);
    SourceExtends(flows, nodes, keys, links, Node(id, name, amount, kind), key, g.links, income, sub);
  }

  /** `keys` are the income hub and the first `k` sources. */
  ghost predicate SourceKeys(keys: seq<NodeKey>, inflow: Tally<string>, k: nat)
    requires k <= |inflow|
  {
    && |keys| == 1 + k && keys[0] == IncomeHub
    && forall j :: 0 <= j < k ==> keys[1 + j] == SourceKey(inflow[j].0)
  }

  lemma {:induction false} NextSourceUnused(keys: seq<NodeKey>, inflow: Tally<string>, k: nat)
    requires Distinct(inflow) && k < |inflow| && SourceKeys(keys, inflow, k)
    ensures SourceKey(inflow[k].0) !in keys && SourceKeys(keys + [SourceKey(inflow[k].0)], inflow, k + 1)
  {
    forall i | 0 <= i < |keys|
      ensures keys[i] != SourceKey(inflow[k].0)
    {
      assert i > 0 ==> keys[1 + (i - 1)] == SourceKey(inflow[i - 1].0);
    }
  }

  /** Layer 0: one node and link per income source. */
  method AddSources(g: Graph, inflow: Tally<string>, ghost flows: seq<Flow>, ghost income: bool, ghost sub: bool)
    requires Sound(g, flows, income, sub)
    requires SourceKeys(g.keys, inflow, 0)
    requires Distinct(inflow) && AllPositive(inflow) && AllFormatted(inflow)
    requires forall k :: 0 <= k < |inflow| ==> inflow[k].1 == Sum(flows, Source(inflow[k].0))
    modifies g
    ensures Sound(g, flows, income, sub)
    ensures g.nodes[0] == old(g.nodes)[0] && SourceKeys(g.keys, inflow, |inflow|)
    ensures Into(g.links, 0) == old(Into(g.links, 0)) + Total(inflow) && OutOf(g.links, 0) == old(OutOf(g.links, 0))
  {
    ghost var hub, links0 := g.nodes[0], g.links;
    for k := 0 to |inflow|
      invariant Sound(g, flows, income, sub)
      invariant g.nodes[0] == hub && SourceKeys(g.keys, inflow, k)
      invariant Into(g.links, 0) == Into(links0, 0) + Total(inflow[..k]) && OutOf(g.links, 0) == OutOf(links0, 0)
    {
      var (name, amount) := inflow[k];
      TotalOfPrefix(inflow, k);
      NextSourceUnused(g.keys, inflow, k);
      AddLeftNode(g, SourceKey(name), IdOf(SourceKey(name)), name, amount, InflowNode, flows, income, sub);
    }
    assert inflow[..|inflow|] == inflow;
  }

  /** No key of the category `name` has been used yet. */
  ghost predicate Unused(keys: seq<NodeKey>, name: string) {
    CategoryKey(name) !in keys && forall s :: SubcategoryKey(name, s) !in keys
  }

  /** Each entry, except the one that collects minor ones, is the sum of its subcategory. */
  ghost predicate SubcategoriesNamed(flows: seq<Flow>, name: string, subs: Tally<string>) {
    forall e :: e in subs && e.0 != "Other" ==> e.1 == Sum(flows, Subcategory(name, e.0))
  }

  lemma {:induction false} GroupedSubcategoriesNamed(flows: seq<Flow>, name: string, subs: Tally<string>, amount: int)
    requires SubcategoryTallied(flows, name, subs)
    ensures SubcategoriesNamed(flows, name, Grouped(SortDescending(subs), amount))
  {
    var sorted := SortDescending(subs);
    forall e | e in Grouped(sorted, amount) && e.0 != "Other"
      ensures e.1 == Sum(flows, Subcategory(name, e.0))
    {
      GroupedEntries(sorted, amount, e);
      SameMembers(sorted, subs, e);
      var i :| 0 <= i < |subs| && subs[i] == e;
      GetEntry(subs, i);
    }
  }

  lemma {:induction false} CategoryExtends(
    flows: seq<Flow>, nodes: seq<Node>, keys: seq<NodeKey>, links: seq<Link>,
    nodes': seq<Node>, keys': seq<NodeKey>, links': seq<Link>, name: string, amount: int, subs: Tally<string>,
    income: bool, sub: bool)
    requires SpokesBalanced(nodes, links, income, sub) && Faithful(flows, nodes, keys) && |nodes| >= 1
    requires |nodes| < |nodes'| && nodes'[..|nodes|] == nodes && |keys'| == |nodes'| && keys'[..|nodes|] == keys
    requires keys'[|nodes|] == CategoryKey(name) && amount == Sum(flows, Category(name))
    requires nodes'[|nodes|] == Node(IdOf(CategoryKey(name)), name, amount, OutflowNode)
    requires Into(links', |nodes|) == amount && OutOf(links', |nodes|) == if sub then amount else 0
    requires LeavesOf(nodes', keys', links', name, |nodes| + 1, subs) && SameFlow(links, links', |nodes|, 0)
    requires SubcategoriesNamed(flows, name, subs)
    ensures SpokesBalanced(nodes', links', income, sub) && Faithful(flows, nodes', keys')
  {
    ExtensionStaysBalanced(nodes, links, nodes', links', income, sub);
    ExtensionStaysFaithful(flows, nodes, keys, nodes', keys');
  }

  /** The keys used by one more category. */
  ghost predicate CategoryAdded(keys: seq<NodeKey>, keys': seq<NodeKey>, name: string) {
    && |keys| < |keys'| && keys'[..|keys|] == keys && keys'[|keys|] == CategoryKey(name)
    && forall i :: |keys| < i < |keys'| ==> keys'[i].SubcategoryKey? && keys'[i].category == name
  }

  method AddMajorCategory(
    g: Graph, name: string, amount: int, subs: Tally<string>, withSubcategories: bool,
    ghost flows: seq<Flow>, ghost income: bool)
    requires Sound(g, flows, income, withSubcategories)
    requires SubcategoryTallied(flows, name, subs) && amount == Sum(flows, Category(name)) > 0 && Unused(g.keys, name)
    modifies g
    ensures Sound(g, flows, income, withSubcategories)
    ensures g.nodes[0] == old(g.nodes)[0] && CategoryAdded(old(g.keys), g.keys, name)
    ensures Into(g.links, 0) == old(Into(g.links, 0)) && OutOf(g.links, 0) == old(OutOf(g.links, 0)) + amount
  {
    ghost var nodes, keys, links := g.nodes, g.keys, g.links;
    var rawSubs := SortDescending(subs);
    SubcategoriesSorted(flows, name, subs);
    var grouped := GroupMinorSubcategories(rawSubs, amount);
    GroupedIsFaithful(rawSubs, amount);
    GroupedSubcategoriesNamed(flows, name, subs, amount);
    g.AddCategory(0, name, amount, grouped, withSubcategories);
    assert g.nodes[0] == g.nodes[..|nodes|][0];
    CategoryExtends(
      flows, nodes, keys, links, g.nodes, g.keys, g.links, name, amount, grouped, income, withSubcategories);
  }

  /** Keys used by a whole list of categories. */
  ghost predicate CategoriesAdded(keys: seq<NodeKey>, keys': seq<NodeKey>, categories: Tally<string>) {
    && |keys| <= |keys'| && keys'[..|keys|] == keys
    && (forall i :: |keys| <= i < |keys'| ==> keys'[i].CategoryKey? || keys'[i].SubcategoryKey?)
    && (forall k :: 0 <= k < |categories| ==> CategoryKey(categories[k].0) in keys')
  }

  lemma {:induction false} OneMoreCategory(
    keys: seq<NodeKey>, keys': seq<NodeKey>, keys'': seq<NodeKey>, sorted: Tally<string>, k: nat)
    requires k < |sorted| && CategoriesAdded(keys, keys', sorted[..k]) && CategoryAdded(keys', keys'', sorted[k].0)
    ensures CategoriesAdded(keys, keys'', sorted[..k + 1])
  {
  }

  /** The categories from index `k` on are tallied and have no node yet. */
  ghost predicate Pending(
    flows: seq<Flow>, sorted: Tally<string>, subcategories: map<string, Tally<string>>, keys: seq<NodeKey>, k: nat)
  {
    && Distinct(sorted) && AllPositive(sorted)
    && forall j :: k <= j < |sorted| ==>
         && sorted[j].0 in subcategories && sorted[j].1 == Sum(flows, Category(sorted[j].0))
         && SubcategoryTallied(flows, sorted[j].0, subcategories[sorted[j].0])
         && Unused(keys, sorted[j].0)
  }

  lemma {:induction false} PendingAfter(
    flows: seq<Flow>, sorted: Tally<string>, subcategories: map<string, Tally<string>>,
    keys: seq<NodeKey>, keys': seq<NodeKey>, k: nat)
    requires k < |sorted| && Pending(flows, sorted, subcategories, keys, k) && CategoryAdded(keys, keys', sorted[k].0)
    ensures Pending(flows, sorted, subcategories, keys', k + 1)
  {
  }

  /** Layers 2 and 3: the categories by falling amount, each with its grouped subcategories. */
  method AddCategories(
    g: Graph, sorted: Tally<string>, subcategories: map<string, Tally<string>>, withSubcategories: bool,
    ghost flows: seq<Flow>, ghost income: bool)
    requires Sound(g, flows, income, withSubcategories)
    requires Pending(flows, sorted, subcategories, g.keys, 0)
    modifies g
    ensures Sound(g, flows, income, withSubcategories)
    ensures g.nodes[0] == old(g.nodes)[0] && CategoriesAdded(old(g.keys), g.keys, sorted)
    ensures Into(g.links, 0) == old(Into(g.links, 0)) && OutOf(g.links, 0) == old(OutOf(g.links, 0)) + Total(sorted)
  {
    ghost var links0 := g.links;
    for k := 0 to |sorted|
      invariant Sound(g, flows, income, withSubcategories)
      invariant g.nodes[0] == old(g.nodes)[0]
      invariant CategoriesAdded(old(g.keys), g.keys, sorted[..k])
      invariant Pending(flows, sorted, subcategories, g.keys, k)
      invariant Into(g.links, 0) == Into(links0, 0)
      invariant OutOf(g.links, 0) == OutOf(links0, 0) + Total(sorted[..k])
    {
      ghost var keys := g.keys;
      var (name, amount) := sorted[k];
      TotalOfPrefix(sorted, k);
      AddMajorCategory(g, name, amount, subcategories[name], withSubcategories, flows, income);
      PendingAfter(flows, sorted, subcategories, keys, g.keys, k);
      OneMoreCategory(old(g.keys), keys, g.keys, sorted, k);
    }
    assert sorted[..|sorted|] == sorted;
  }

  lemma {:induction false} SubcategoriesSorted(flows: seq<Flow>, name: string, subs: Tally<string>)
    requires SubcategoryTallied(flows, name, subs)
    ensures Distinct(SortDescending(subs)) && AllPositive(SortDescending(subs)) && AllFormatted(SortDescending(subs))
    ensures Total(SortDescending(subs)) == Sum(flows, Category(name))
  {
    var sorted := SortDescending(subs);
    SortKeepsDistinct(subs);
    forall i | 0 <= i < |sorted|
      ensures sorted[i] in subs
    {
      SameMembers(sorted, subs, sorted[i]);
    }
  }

  lemma {:induction false} SourcesListed(flows: seq<Flow>, a: Accumulated)
    requires InflowTallied(flows, a)
    ensures forall k :: 0 <= k < |a.inflow| ==> a.inflow[k].1 == Sum(flows, Source(a.inflow[k].0))
  {
    forall k | 0 <= k < |a.inflow|
      ensures a.inflow[k].1 == Sum(flows, Source(a.inflow[k].0))
    {
      GetEntry(a.inflow, k);
    }
  }

  /** Entry `i` is the first with the largest total among the first `k`. */
  predicate FirstLargest(t: Tally<string>, i: nat, k: nat)
    requires i < k <= |t|
  {
    && (forall j :: 0 <= j < k ==> t[j].1 <= t[i].1)
    && (forall j :: 0 <= j < i ==> t[j].1 < t[i].1)
  }

  /** `topExpenseCategory`: the first category with the largest total. */
  method TopExpense(outflow: Tally<string>) returns (top: Option<(string, int)>)
    requires AllPositive(outflow)
    ensures top.None? <==> outflow == []
    ensures top.Some? ==>
              exists i :: 0 <= i < |outflow| && outflow[i] == top.value && FirstLargest(outflow, i, |outflow|)
  {
    top := None;
    var maxExpense := 0;
    for k := 0 to |outflow|
      invariant top.None? ==> k == 0 && maxExpense == 0
      invariant top.Some? ==> maxExpense == top.value.1
      invariant top.Some? ==>
                  exists i :: 0 <= i < k && outflow[i] == top.value && FirstLargest(outflow, i, k)
    {
      if outflow[k].1 > maxExpense {
        maxExpense := outflow[k].1;
        top := Some(outflow[k]);
        assert FirstLargest(outflow, k, k + 1);
      } else {
        var i :| 0 <= i < k && outflow[i] == top.value && FirstLargest(outflow, i, k);
        assert FirstLargest(outflow, i, k + 1);
      }
    }
  }

  lemma {:induction false} SavingsExtends(
    flows: seq<Flow>, nodes: seq<Node>, keys: seq<NodeKey>, links: seq<Link>, node: Node, links': seq<Link>,
    income: bool, sub: bool)
    requires SpokesBalanced(nodes, links, income, sub) && Faithful(flows, nodes, keys) && |nodes| >= 1
    requires node.kind == SavingsNode && Shows(flows, SavingsKey, node)
    requires Into(links', |nodes|) == node.amount && OutOf(links', |nodes|) == 0 && SameFlow(links, links', |nodes|, 0)
    ensures SpokesBalanced(nodes + [node], links', income, sub) && Faithful(flows, nodes + [node], keys + [SavingsKey])
  {
  }

  /** The surplus, linked from the hub. */
  method AddSavings(g: Graph, amount: int, ghost flows: seq<Flow>, ghost income: bool, ghost sub: bool)
    requires Sound(g, flows, income, sub)
    requires SavingsKey !in g.keys
    requires amount == Sum(flows, AllIn) - Sum(flows, AllOut) > 0
    modifies g
    ensures Sound(g, flows, income, sub)
    ensures g.nodes[0] == old(g.nodes)[0]
    ensures Into(g.links, 0) == old(Into(g.links, 0)) && OutOf(g.links, 0) == old(OutOf(g.links, 0)) + amount
  {
    ghost var nodes, keys, links := g.nodes, g.keys, g.links;
    var id := "savings_net";
    g.AddChild(0, SavingsKey, id, "Net Savings", amount, SavingsNode);
    SavingsExtends(flows, nodes, keys, links, Node(id, "Net Savings", amount, SavingsNode), g.links, income, sub);
  }

  /** Only hub, sources and deficit so far. */
  predicate LeftKeys(keys: seq<NodeKey>) {
    forall i :: 0 <= i < |keys| ==> keys[i].IncomeHub? || keys[i].SpendingHub? || keys[i].SourceKey? || keys[i].DeficitKey?
  }

  lemma {:induction false} NoCategoryYet(keys: seq<NodeKey>, c: string)
    requires LeftKeys(keys)
    ensures Unused(keys, c)
  {
  }

  lemma {:induction false} CategoryEntry(flows: seq<Flow>, a: Accumulated, k: nat)
    requires Tallied(flows, a) && k < |a.outflow|
    ensures SortDescending(a.outflow)[k].0 in a.subcategories
    ensures SortDescending(a.outflow)[k].1 == Sum(flows, Category(SortDescending(a.outflow)[k].0))
    ensures SubcategoryTallied(flows, SortDescending(a.outflow)[k].0, a.subcategories[SortDescending(a.outflow)[k].0])
  {
    SortedEntry(a.outflow, k);
  }

  /** In display order the categories keep their names apart and their sums, and none has a node yet. */
  lemma {:induction false} CategoriesSorted(flows: seq<Flow>, a: Accumulated, sorted: Tally<string>, keys: seq<NodeKey>)
    requires Tallied(flows, a) && LeftKeys(keys) && sorted == SortDescending(a.outflow)
    ensures Pending(flows, sorted, a.subcategories, keys, 0) && Total(sorted) == Sum(flows, AllOut)
  {
    SortKeepsDistinct(a.outflow);
    SortKeepsEntries(a.outflow);
    forall j | 0 <= j < |sorted|
      ensures sorted[j].0 in a.subcategories && sorted[j].1 == Sum(flows, Category(sorted[j].0))
      ensures SubcategoryTallied(flows, sorted[j].0, a.subcategories[sorted[j].0]) && Unused(keys, sorted[j].0)
    {
      CategoryEntry(flows, a, j);
      NoCategoryYet(keys, sorted[j].0);
    }
  }

  lemma {:induction false} NoSavingsYet(keys: seq<NodeKey>, keys': seq<NodeKey>, categories: Tally<string>)
    requires LeftKeys(keys) && CategoriesAdded(keys, keys', categories)
    ensures SavingsKey !in keys'
  {
  }

  /** A complete graph: layered, balanced at every node, and showing exactly the given flows. */
  ghost predicate Conserved(flows: seq<Flow>, nodes: seq<Node>, links: seq<Link>, income: bool, sub: bool) {
    && |nodes| >= 1 && nodes[0].kind == HubNode && nodes[0].amount == Max(Sum(flows, AllIn), Sum(flows, AllOut))
    && (forall i :: 0 <= i < |nodes| ==> Balanced(nodes, links, i, income, sub))
    && (forall i, j :: 0 <= i < j < |nodes| ==> nodes[i].id != nodes[j].id)
    && (forall l :: l in links ==> LinkOk(nodes, l))
    && (forall i :: 0 <= i < |nodes| ==>
          exists key :: WellNamed(key) && nodes[i].id == IdOf(key) && Shows(flows, key, nodes[i]))
  }

  lemma {:induction false} GraphConserved(g: Graph, flows: seq<Flow>, income: bool, sub: bool)
    requires g.Valid() && |g.nodes| >= 1 && g.nodes[0].kind == HubNode
    requires g.nodes[0].amount == Max(Sum(flows, AllIn), Sum(flows, AllOut))
    requires SpokesBalanced(g.nodes, g.links, income, sub) && Faithful(flows, g.nodes, g.keys)
    requires Into(g.links, 0) == (if income then g.nodes[0].amount else 0) && OutOf(g.links, 0) == g.nodes[0].amount
    ensures Conserved(flows, g.nodes, g.links, income, sub)
  {
  }

  lemma {:induction false} OnlySources(keys: seq<NodeKey>, inflow: Tally<string>)
    requires SourceKeys(keys, inflow, |inflow|)
    ensures LeftKeys(keys) && DeficitKey !in keys
  {
    forall i | 0 <= i < |keys|
      ensures keys[i].IncomeHub? || keys[i].SourceKey?
    {
      assert i > 0 ==> keys[1 + (i - 1)] == SourceKey(inflow[i - 1].0);
    }
  }

  /** The hub alone. */
  method StartGraph(
    ghost key: NodeKey, id: string, name: string, amount: int,
    ghost flows: seq<Flow>, ghost income: bool, ghost sub: bool)
    returns (g: Graph)
    requires id == IdOf(key) && WellNamed(key) && Shows(flows, key, Node(id, name, amount, HubNode))
    ensures fresh(g) && Sound(g, flows, income, sub) && g.keys == [key] && g.nodes == [Node(id, name, amount, HubNode)]
    ensures Into(g.links, 0) == 0 && OutOf(g.links, 0) == 0
  {
    g := new Graph();
    var hub := g.AddNode(key, id, name, amount, HubNode);
  }

  /** The gap between spending and income, linked into the hub when there is one. */
  method AddDeficit(g: Graph, netSavings: int, ghost flows: seq<Flow>, ghost sub: bool)
    requires Sound(g, flows, true, sub) && DeficitKey !in g.keys && LeftKeys(g.keys)
    requires netSavings == Sum(flows, AllIn) - Sum(flows, AllOut)
    modifies g
    ensures Sound(g, flows, true, sub) && LeftKeys(g.keys) && g.nodes[0] == old(g.nodes)[0]
    ensures Into(g.links, 0) == old(Into(g.links, 0)) + Max(0, -netSavings) && OutOf(g.links, 0) == old(OutOf(g.links, 0))
  {
    if netSavings < 0 {
      var id := "inflow_from_savings";
      AddLeftNode(g, DeficitKey, id, "From Savings", -netSavings, DeficitNode, flows, true, sub);
    }
  }

  /** The left half: the hub, its income sources and, when spending exceeds income, the deficit. */
  method BuildIncome(a: Accumulated, ghost flows: seq<Flow>, ghost sub: bool) returns (g: Graph)
    requires InflowTallied(flows, a) && a.totalIn > 0 && a.totalOut == Sum(flows, AllOut)
    ensures fresh(g) && Sound(g, flows, true, sub) && LeftKeys(g.keys)
    ensures g.nodes[0].amount == Max(Sum(flows, AllIn), Sum(flows, AllOut))
    ensures Into(g.links, 0) == g.nodes[0].amount && OutOf(g.links, 0) == 0
  {
    var id := "hub_total_income";
    g := StartGraph(IncomeHub, id, "Total Income", Max(a.totalIn, a.totalOut), flows, true, sub);
    SourcesListed(flows, a);
    AddSources(g, a.inflow, flows, true, sub);
    OnlySources(g.keys, a.inflow);
    AddDeficit(g, a.totalIn - a.totalOut, flows, sub);
  }

  /** The right half, common to both layouts: all categories, hung on the hub. */
  method AddSpending(g: Graph, a: Accumulated, ghost flows: seq<Flow>, ghost income: bool, withSubcategories: bool)
    requires Sound(g, flows, income, withSubcategories)
    requires Tallied(flows, a) && LeftKeys(g.keys)
    modifies g
    ensures Sound(g, flows, income, withSubcategories)
    ensures g.nodes[0] == old(g.nodes)[0] && SavingsKey !in g.keys
    ensures Into(g.links, 0) == old(Into(g.links, 0))
    ensures OutOf(g.links, 0) == old(OutOf(g.links, 0)) + Sum(flows, AllOut)
  {
    ghost var left := g.keys;
    var sortedCategories := SortDescending(a.outflow);
    CategoriesSorted(flows, a, sortedCategories, left);
    AddCategories(g, sortedCategories, a.subcategories, withSubcategories, flows, income);
    NoSavingsYet(left, g.keys, sortedCategories);
  }

  /** The surplus, if there is one, closes the gap at the hub. */
  method CloseGap(g: Graph, netSavings: int, ghost flows: seq<Flow>, ghost sub: bool)
    requires Sound(g, flows, true, sub) && SavingsKey !in g.keys
    requires netSavings == Sum(flows, AllIn) - Sum(flows, AllOut)
    requires g.nodes[0].amount == Max(Sum(flows, AllIn), Sum(flows, AllOut))
    requires Into(g.links, 0) == g.nodes[0].amount && OutOf(g.links, 0) == Sum(flows, AllOut)
    modifies g
    ensures Conserved(flows, g.nodes, g.links, true, sub)
  {
    if netSavings > 0 {
      AddSavings(g, netSavings, flows, true, sub);
    }
    GraphConserved(g, flows, true, sub);
  }

  /** Case 1: income sources and, if needed, savings on the left; spending and what is saved on the right. */
  method BuildCashFlow(a: Accumulated, ghost flows: seq<Flow>, withSubcategories: bool) returns (g: Graph)
    requires Tallied(flows, a) && a.totalIn > 0
    ensures fresh(g) && Conserved(flows, g.nodes, g.links, true, withSubcategories)
  {
    g := BuildIncome(a, flows, withSubcategories);
    AddSpending(g, a, flows, true, withSubcategories);
    CloseGap(g, a.totalIn - a.totalOut, flows, withSubcategories);
  }

  /** Case 2: no income recorded, spending only. */
  method BuildSpending(a: Accumulated, ghost flows: seq<Flow>, withSubcategories: bool) returns (g: Graph)
    requires Tallied(flows, a) && a.totalIn <= 0 && a.totalOut > 0
    ensures fresh(g) && Conserved(flows, g.nodes, g.links, false, withSubcategories)
  {
    g := StartGraph(SpendingHub, "hub_total_spending", "Total Spending", a.totalOut, flows, false, withSubcategories);
    AddSpending(g, a, flows, false, withSubcategories);
    PositiveTotal(a.inflow);
    GraphConserved(g, flows, false, withSubcategories);
  }

  method ComputeSankeyData(tax: Taxonomy, txns: seq<ApiTransaction>, withSubcategories: bool) returns (r: SankeyResult)
    ensures r.stats.totalInflow == Sum(Flows(tax, txns), AllIn) && r.stats.totalOutflow == Sum(Flows(tax, txns), AllOut)
    ensures r.stats.netSavings == r.stats.totalInflow - r.stats.totalOutflow
    ensures r.hasIncome <==> r.stats.totalInflow > 0
    ensures r.hasData <==> r.stats.totalInflow > 0 || r.stats.totalOutflow > 0
    ensures !r.hasData ==> r.nodes == [] && r.links == []
    ensures r.hasData ==> Conserved(Flows(tax, txns), r.nodes, r.links, r.hasIncome, withSubcategories)
    ensures r.stats.topExpense.Some? ==>
              && r.stats.topExpense.value.1 == Sum(Flows(tax, txns), Category(r.stats.topExpense.value.0)) > 0
              && forall c :: Sum(Flows(tax, txns), Category(c)) <= r.stats.topExpense.value.1
    ensures r.stats.topExpense.None? <==> r.stats.totalOutflow == 0
  {
    var flows := Flows(tax, txns);
    FlowsWellFormed(tax, txns);
    var a := AccumulateFlows(flows);
    var top := TopExpense(a.outflow);
    TopIsLargest(flows, a, top);
    var stats := Stats(a.totalIn, a.totalOut, a.totalIn - a.totalOut, top);
    if a.totalIn > 0 {
      var g := BuildCashFlow(a, flows, withSubcategories);
      r := SankeyResult(g.nodes, g.links, stats, true, true);
    } else if a.totalOut > 0 {
      var g := BuildSpending(a, flows, withSubcategories);
      r := SankeyResult(g.nodes, g.links, stats, true, false);
    } else {
      r := SankeyResult([], [], stats, false, false);
    }
  }

  lemma {:induction false} PositiveTotal(t: Tally<string>)
    requires AllPositive(t)
    ensures Total(t) >= 0 && (Total(t) == 0 <==> t == [])
  {
    if t != [] {
      PositiveTotal(t[1..]);
    }
  }

  lemma {:induction false} TopIsLargest(flows: seq<Flow>, a: Accumulated, top: Option<(string, int)>)
    requires Tallied(flows, a)
    requires top.None? <==> a.outflow == []
    requires top.Some? ==>
               exists i :: 0 <= i < |a.outflow| && a.outflow[i] == top.value && FirstLargest(a.outflow, i, |a.outflow|)
    ensures top.Some? ==> top.value.1 == Sum(flows, Category(top.value.0)) > 0
    ensures top.Some? ==> forall c :: Sum(flows, Category(c)) <= top.value.1
    ensures top.None? <==> a.totalOut == 0
  {
    PositiveTotal(a.outflow);
    if top.Some? {
      var i :| 0 <= i < |a.outflow| && a.outflow[i] == top.value && FirstLargest(a.outflow, i, |a.outflow|);
      GetEntry(a.outflow, i);
      forall c
        ensures Sum(flows, Category(c)) <= top.value.1
      {
        if j :| 0 <= j < |a.outflow| && a.outflow[j].0 == c {
          GetEntry(a.outflow, j);
        } else {
          GetAbsent(a.outflow, c);
        }
      }
    }
  }
}
