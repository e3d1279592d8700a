/** Second half of `SankeyCalculator.computeSankeyData`: the indexed node and link lists. */
module SankeyGraph {
  import opened OrderedTally
  import opened SankeyFlows

  datatype NodeKind = InflowNode | DeficitNode | HubNode | OutflowNode | SavingsNode | SubcategoryNode

  datatype Node = Node(id: string, name: string, amount: int, kind: NodeKind)

  datatype Link = Link(
    source: nat, target: nat, value: int, sourceId: string, targetId: string, sourceName: string, targetName: string)

  /** What a node stands for; the template strings of the source turn it into an id. */
  datatype NodeKey =
    | IncomeHub
    | SpendingHub
    | SourceKey(name: string)
    | DeficitKey
    | CategoryKey(name: string)
    | SubcategoryKey(category: string, name: string)
    | SavingsKey

  function IdOf(key: NodeKey): string {
    match key
    case IncomeHub => "hub_total_income"
    case SpendingHub => "hub_total_spending"
    case SourceKey(s) => "inflow_" + s
    case DeficitKey => "inflow_from_savings"
    case CategoryKey(c) => "cat_" + c
    case SubcategoryKey(c, s) => "sub_" + c + "_" + s
    case SavingsKey => "savings_net"
  }

  /** Formatted names carry no underscore; category names may. */
  predicate WellNamed(key: NodeKey) {
    match key
    case SourceKey(s) => '_' !in s
    case SubcategoryKey(_, s) => '_' !in s
    case _ => true
  }

  /** The underscore before the subcategory is the last one of the id. */
  lemma {:induction false} LastUnderscore(c: string, s: string)
    requires '_' !in s
    ensures IdOf(SubcategoryKey(c, s))[4 + |c|] == '_'
    ensures forall k :: 4 + |c| < k < |IdOf(SubcategoryKey(c, s))| ==> IdOf(SubcategoryKey(c, s))[k] != '_'
  {
  }

  lemma {:induction false} SubcategoryIdInjective(c: string, s: string, c': string, s': string)
    requires '_' !in s && '_' !in s' && IdOf(SubcategoryKey(c, s)) == IdOf(SubcategoryKey(c', s'))
    ensures c == c' && s == s'
  {
    LastUnderscore(c, s);
    LastUnderscore(c', s');
    var id, id' := IdOf(SubcategoryKey(c, s)), IdOf(SubcategoryKey(c', s'));
    assert c == id[4..4 + |c|] && c' == id'[4..4 + |c'|];
    assert s == id[5 + |c|..] && s' == id'[5 + |c'|..];
  }

  lemma {:induction false} SourceIdIsNotDeficit(s: string)
    requires '_' !in s
    ensures IdOf(SourceKey(s)) != IdOf(DeficitKey)
  {
    assert IdOf(SourceKey(s))[7..] == s;
    assert IdOf(DeficitKey)[7..][4] == '_';
  }

  /** Two different things never share a node id. */
  lemma {:induction false} IdInjective(a: NodeKey, b: NodeKey)
    requires WellNamed(a) && WellNamed(b) && IdOf(a) == IdOf(b)
    ensures a == b
  {
    assert IdOf(a)[0] == IdOf(b)[0] && IdOf(a)[1] == IdOf(b)[1];
    if a.SubcategoryKey? && b.SubcategoryKey? {
      SubcategoryIdInjective(a.category, a.name, b.category, b.name);
    } else if a.SourceKey? && b.SourceKey? {
      assert a.name == IdOf(a)[7..] && b.name == IdOf(b)[7..];
    } else if a.CategoryKey? && b.CategoryKey? {
      assert a.name == IdOf(a)[4..] && b.name == IdOf(b)[4..];
    } else if a.SourceKey? {
      SourceIdIsNotDeficit(a.name);
    } else if b.SourceKey? {
      SourceIdIsNotDeficit(b.name);
    }
  }

  // ----- flow through a node

  function Into(links: seq<Link>, node: nat): int {
    if links == [] then 0
    else Into(links[..|links| - 1], node) + (if links[|links| - 1].target == node then links[|links| - 1].value else 0)
  }

  function OutOf(links: seq<Link>, node: nat): int {
    if links == [] then 0
    else OutOf(links[..|links| - 1], node) + (if links[|links| - 1].source == node then links[|links| - 1].value else 0)
  }

  lemma {:induction false} AppendLink(links: seq<Link>, l: Link, node: nat)
    ensures Into(links + [l], node) == Into(links, node) + (if l.target == node then l.value else 0)
    ensures OutOf(links + [l], node) == OutOf(links, node) + (if l.source == node then l.value else 0)
  {
  }

  lemma {:induction false} NoFlowBeyond(links: seq<Link>, bound: nat, node: nat)
    requires forall l :: l in links ==> l.source < bound && l.target < bound
    requires node >= bound
    ensures Into(links, node) == 0 && OutOf(links, node) == 0
  {
    if links != [] {
      assert links[|links| - 1] in links;
      NoFlowBeyond(links[..|links| - 1], bound, node);
    }
  }

  /** Money only moves one layer to the right: inflow, hub, category or savings, subcategory. */
  function Layer(kind: NodeKind): nat {
    match kind
    case InflowNode => 0
    case DeficitNode => 0
    case HubNode => 1
    case OutflowNode => 2
    case SavingsNode => 2
    case SubcategoryNode => 3
  }

  predicate LinkOk(nodes: seq<Node>, l: Link) {
    && l.source < |nodes| && l.target < |nodes| && l.value > 0
    && l.sourceId == nodes[l.source].id && l.targetId == nodes[l.target].id
    && l.sourceName == nodes[l.source].name && l.targetName == nodes[l.target].name
    && Layer(nodes[l.target].kind) == Layer(nodes[l.source].kind) + 1
  }

  /** The flow through node `i` is the amount shown on it, on every side it has links on. */
  predicate Balanced(nodes: seq<Node>, links: seq<Link>, i: nat, withIncome: bool, withSubcategories: bool)
    requires i < |nodes|
  {
    var shown := nodes[i].amount;
    match nodes[i].kind
    case InflowNode => Into(links, i) == 0 && OutOf(links, i) == shown
    case DeficitNode => Into(links, i) == 0 && OutOf(links, i) == shown
    case HubNode => Into(links, i) == (if withIncome then shown else 0) && OutOf(links, i) == shown
    case OutflowNode => Into(links, i) == shown && OutOf(links, i) == (if withSubcategories then shown else 0)
    case SavingsNode => Into(links, i) == shown && OutOf(links, i) == 0
    case SubcategoryNode => Into(links, i) == shown && OutOf(links, i) == 0
  }

  /** Flow through the nodes below `bound`, other than `hub`, is the same in both lists. */
  ghost predicate SameFlow(before: seq<Link>, after: seq<Link>, bound: nat, hub: nat) {
    forall i: nat :: i < bound && i != hub ==> Into(after, i) == Into(before, i) && OutOf(after, i) == OutOf(before, i)
  }

  /** Every node from `start` on shows an entry of `subs` below the category `name` and receives exactly
      what it shows. */
  ghost predicate LeavesOf(
    nodes: seq<Node>, keys: seq<NodeKey>, links: seq<Link>, name: string, start: nat, subs: Tally<string>)
  {
    && |keys| == |nodes|
    && forall i :: start <= i < |nodes| ==>
         && keys[i] == SubcategoryKey(name, nodes[i].name) && nodes[i].kind == SubcategoryNode
         && (nodes[i].name, nodes[i].amount) in subs
         && Into(links, i) == nodes[i].amount && OutOf(links, i) == 0
  }

  lemma {:induction false} LeavesStay(
    nodes: seq<Node>, keys: seq<NodeKey>, links: seq<Link>, node: Node, key: NodeKey, links': seq<Link>,
    name: string, start: nat, category: nat, subs: Tally<string>)
    requires LeavesOf(nodes, keys, links, name, start, subs) && category < start <= |nodes|
    requires SameFlow(links, links', |nodes|, category)
    requires key == SubcategoryKey(name, node.name) && node.kind == SubcategoryNode && (node.name, node.amount) in subs
    requires Into(links', |nodes|) == node.amount && OutOf(links', |nodes|) == 0
    ensures LeavesOf(nodes + [node], keys + [key], links', name, start, subs)
  {
  }

  /** Later lists keep the earlier nodes in place and the flow through them, up to what leaves `open`. */
  ghost predicate Extends(
    nodes: seq<Node>, keys: seq<NodeKey>, links: seq<Link>,
    nodes': seq<Node>, keys': seq<NodeKey>, links': seq<Link>, open: nat)
  {
    && |keys| == |nodes| <= |nodes'| == |keys'|
    && nodes'[..|nodes|] == nodes && keys'[..|keys|] == keys
    && SameFlow(links, links', |nodes|, open) && Into(links', open) == Into(links, open)
  }

  lemma {:induction false} ExtendsStep(
    nodes: seq<Node>, keys: seq<NodeKey>, links: seq<Link>, nodes': seq<Node>, keys': seq<NodeKey>, links': seq<Link>,
    node: Node, key: NodeKey, links'': seq<Link>, open: nat)
    requires Extends(nodes, keys, links, nodes', keys', links', open)
    requires SameFlow(links', links'', |nodes'|, open) && Into(links'', open) == Into(links', open)
    ensures Extends(nodes, keys, links, nodes' + [node], keys' + [key], links'', open)
  {
  }

  class Graph {
    var nodes: seq<Node>
    var links: seq<Link>
    var index: map<string, nat>
    ghost var keys: seq<NodeKey>

    ghost predicate Valid()
      reads this
    {
      && |keys| == |nodes|
      && (forall i :: 0 <= i < |nodes| ==> nodes[i].id == IdOf(keys[i]) && WellNamed(keys[i]))
      && (forall i, j :: 0 <= i < j < |keys| ==> keys[i] != keys[j])
      && (forall i :: 0 <= i < |nodes| ==> nodes[i].id in index && index[nodes[i].id] == i)
      && (forall id :: id in index ==> index[id] < |nodes| && nodes[index[id]].id == id)
      && (forall l :: l in links ==> LinkOk(nodes, l))
    }

    constructor ()
      ensures Valid() && nodes == [] && links == [] && keys == []
    {
      nodes, links, index, keys := [], [], map[], [];
    }

    /** `addNode`: an id seen before keeps its first node. */
    method AddNode(ghost key: NodeKey, id: string, name: string, amount: int, kind: NodeKind) returns (i: nat)
      requires Valid() && id == IdOf(key) && WellNamed(key)
      modifies this
      ensures Valid() && links == old(links)
      ensures key in old(keys) ==> nodes == old(nodes) && keys == old(keys) && i < |keys| && keys[i] == key
      ensures key !in old(keys) ==>
                && nodes == old(nodes) + [Node(id, name, amount, kind)]
                && keys == old(keys) + [key] && i == |old(nodes)|
    {
      if id in index {
        i := index[id];
        IdInjective(keys[i], key);
        return;
      }
      i := |nodes|;
      assert key !in keys;
      index := index[id := i];
      nodes := nodes + [Node(id, name, amount, kind)];
      keys := keys + [key];
      assert forall l :: l in links ==> LinkOk(nodes, l);
    }

    /** `addLink`: only positive values become links. */
    method AddLink(source: nat, target: nat, value: int)
      requires Valid() && source < |nodes| && target < |nodes|
      requires Layer(nodes[target].kind) == Layer(nodes[source].kind) + 1
      modifies this`links
      ensures Valid()
      ensures value <= 0 ==> links == old(links)
      ensures value > 0 ==> |links| == |old(links)| + 1 && links[..|old(links)|] == old(links)
      ensures value > 0 ==> links[|old(links)|].source == source && links[|old(links)|].target == target
                            && links[|old(links)|].value == value
      ensures value > 0 ==> forall j: nat :: Into(links, j) == Into(old(links), j) + (if j == target then value else 0)
      ensures value > 0 ==> forall j: nat :: OutOf(links, j) == OutOf(old(links), j) + (if j == source then value else 0)
    {
      if value <= 0 {
        return;
      }
      var l := Link(source, target, value, nodes[source].id, nodes[target].id, nodes[source].name, nodes[target].name);
      forall j: nat
        ensures Into(links + [l], j) == Into(links, j) + (if j == target then value else 0)
        ensures OutOf(links + [l], j) == OutOf(links, j) + (if j == source then value else 0)
      {
        AppendLink(links, l, j);
      }
      links := links + [l];
    }

    lemma {:induction false} NothingThroughNext()
      requires Valid()
      ensures Into(links, |nodes|) == 0 && OutOf(links, |nodes|) == 0
    {
      NoFlowBeyond(links, |nodes|, |nodes|);
    }

    /** A node on the left of the hub: an income source, or the deficit covered from savings. */
    method AddSource(hub: nat, ghost key: NodeKey, id: string, name: string, amount: int, kind: NodeKind)
      requires Valid() && hub < |nodes| && nodes[hub].kind == HubNode && Layer(kind) == 0
      requires id == IdOf(key) && WellNamed(key) && key !in keys && amount > 0
      modifies this
      ensures Valid()
      ensures nodes == old(nodes) + [Node(id, name, amount, kind)] && keys == old(keys) + [key]
      ensures SameFlow(old(links), links, |old(nodes)|, hub)
      ensures Into(links, hub) == old(Into(links, hub)) + amount
      ensures OutOf(links, hub) == old(OutOf(links, hub))
      ensures Into(links, |old(nodes)|) == 0 && OutOf(links, |old(nodes)|) == amount
    {
      NothingThroughNext();
      var i := AddNode(key, id, name, amount, kind);
      AddLink(i, hub, amount);
    }

    /** A node that only receives from `parent`: a category below the hub, a subcategory below its category. */
    method AddChild(parent: nat, ghost key: NodeKey, id: string, name: string, amount: int, kind: NodeKind)
      requires Valid() && parent < |nodes| && Layer(kind) == Layer(nodes[parent].kind) + 1
      requires id == IdOf(key) && WellNamed(key) && key !in keys && amount > 0
      modifies this
      ensures Valid()
      ensures nodes == old(nodes) + [Node(id, name, amount, kind)] && keys == old(keys) + [key]
      ensures SameFlow(old(links), links, |old(nodes)|, parent)
      ensures Into(links, parent) == old(Into(links, parent))
      ensures OutOf(links, parent) == old(OutOf(links, parent)) + amount
      ensures Into(links, |old(nodes)|) == amount && OutOf(links, |old(nodes)|) == 0
    {
      NothingThroughNext();
      var i := AddNode(key, id, name, amount, kind);
      AddLink(parent, i, amount);
    }

    /** A subcategory node fed by its category. */
    method AddLeaf(category: nat, name: string, sub: string, value: int) returns (ghost node: Node)
      requires Valid() && category < |nodes| && nodes[category].kind == OutflowNode
      requires '_' !in sub && SubcategoryKey(name, sub) !in keys && value > 0
      modifies this
      ensures Valid()
      ensures nodes == old(nodes) + [node] && keys == old(keys) + [SubcategoryKey(name, sub)]
      ensures node.name == sub && node.amount == value && node.kind == SubcategoryNode
      ensures SameFlow(old(links), links, |old(nodes)|, category)
      ensures Into(links, category) == old(Into(links, category))
      ensures OutOf(links, category) == old(OutOf(links, category)) + value
      ensures Into(links, |old(nodes)|) == value && OutOf(links, |old(nodes)|) == 0
    {
      AddChild(category, SubcategoryKey(name, sub), IdOf(SubcategoryKey(name, sub)), sub, value, SubcategoryNode);
      node := nodes[|nodes| - 1];
    }

    /** The leaf of entry `j`, on top of the leaves already hung below `category`. */
    method AddEntry(
      category: nat, name: string, subs: Tally<string>, j: nat,
      ghost nodes0: seq<Node>, ghost keys0: seq<NodeKey>, ghost links0: seq<Link>)
      requires Valid() && category + 1 == |nodes0| && nodes0[category].kind == OutflowNode
      requires j < |subs| && '_' !in subs[j].0 && subs[j].1 > 0 && SubcategoryKey(name, subs[j].0) !in keys
      requires Extends(nodes0, keys0, links0, nodes, keys, links, category)
      requires LeavesOf(nodes, keys, links, name, |nodes0|, subs)
      modifies this
      ensures Valid() && keys == old(keys) + [SubcategoryKey(name, subs[j].0)]
      ensures Extends(nodes0, keys0, links0, nodes, keys, links, category)
      ensures LeavesOf(nodes, keys, links, name, |nodes0|, subs)
      ensures OutOf(links, category) == old(OutOf(links, category)) + subs[j].1
    {
      ghost var nodes1, keys1, links1 := nodes, keys, links;
      ghost var key := SubcategoryKey(name, subs[j].0);
      assert nodes1[category] == nodes0[category] by { assert nodes1[..|nodes0|][category] == nodes0[category]; }
      ghost var node := AddLeaf(category, name, subs[j].0, subs[j].1);
      assert (node.name, node.amount) == subs[j];
      LeavesStay(nodes1, keys1, links1, node, key, links, name, |nodes0|, category, subs);
      ExtendsStep(nodes0, keys0, links0, nodes1, keys1, links1, node, key, links, category);
    }

    method AddSubcategories(category: nat, name: string, subs: Tally<string>)
      requires Valid() && category + 1 == |nodes| && nodes[category].kind == OutflowNode
      requires Distinct(subs) && AllPositive(subs) && NoUnderscore(subs)
      requires forall s :: SubcategoryKey(name, s) !in keys
      modifies this
      ensures Valid() && Extends(old(nodes), old(keys), old(links), nodes, keys, links, category)
      ensures LeavesOf(nodes, keys, links, name, |old(nodes)|, subs)
      ensures OutOf(links, category) == old(OutOf(links, category)) + Total(subs)
    {
      ghost var nodes0, keys0, links0 := nodes, keys, links;
      for j := 0 to |subs|
        invariant Valid() && Extends(nodes0, keys0, links0, nodes, keys, links, category)
        invariant forall k :: j <= k < |subs| ==> SubcategoryKey(name, subs[k].0) !in keys
        invariant LeavesOf(nodes, keys, links, name, |nodes0|, subs)
        invariant OutOf(links, category) == OutOf(links0, category) + Total(subs[..j])
      {
        TotalOfPrefix(subs, j);
        AddEntry(category, name, subs, j, nodes0, keys0, links0);
      }
      assert subs[..|subs|] == subs;
    }

    /** A category node fed by the hub, with its subcategory nodes when they are shown. */
    method AddCategory(hub: nat, name: string, amount: int, subs: Tally<string>, withSubcategories: bool)
      requires Valid() && hub < |nodes| && nodes[hub].kind == HubNode && amount > 0
      requires Total(subs) == amount && Distinct(subs) && AllPositive(subs) && NoUnderscore(subs)
      requires CategoryKey(name) !in keys && forall s :: SubcategoryKey(name, s) !in keys
      modifies this
      ensures Valid()
      ensures |nodes| > |old(nodes)| && nodes[..|old(nodes)|] == old(nodes) && keys[..|old(nodes)|] == old(keys)
      ensures nodes[|old(nodes)|] == Node(IdOf(CategoryKey(name)), name, amount, OutflowNode)
      ensures keys[|old(nodes)|] == CategoryKey(name)
      ensures Into(links, |old(nodes)|) == amount
      ensures OutOf(links, |old(nodes)|) == if withSubcategories then amount else 0
      ensures LeavesOf(nodes, keys, links, name, |old(nodes)| + 1, subs)
      ensures SameFlow(old(links), links, |old(nodes)|, hub)
      ensures Into(links, hub) == old(Into(links, hub))
      ensures OutOf(links, hub) == old(OutOf(links, hub)) + amount
    {
      var category := |nodes|;
      AddChild(hub, CategoryKey(name), IdOf(CategoryKey(name)), name, amount, OutflowNode);
      ghost var fedNodes, fedKeys := nodes, keys;
      if withSubcategories {
        AddSubcategories(category, name, subs);
        assert nodes[category] == fedNodes[category] && keys[category] == fedKeys[category];
        assert nodes[..category] == fedNodes[..category] && keys[..category] == fedKeys[..category];
      }
    }
  }
}
