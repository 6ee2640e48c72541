/**
 * The greedy clique cover: repeatedly take a largest maximal clique of
 * the nodes not yet covered and record the maximal clique of the whole
 * graph that contains it.
 */
module GraphCalculator {
  import opened Wrappers

  type Node = nat

  /** An undirected graph: an edge (u, v) joins u and v in both directions. */
  datatype Graph = Graph(nodes: set<Node>, edges: set<(Node, Node)>)

  predicate Adjacent(g: Graph, u: Node, v: Node) {
    (u, v) in g.edges || (v, u) in g.edges
  }

  /** Every two distinct nodes of c are adjacent. */
  predicate IsClique(g: Graph, c: set<Node>) {
    forall u, v :: u in c && v in c && u != v ==> Adjacent(g, u, v)
  }

  /** v is adjacent to every node of c other than itself. */
  predicate JoinsAll(g: Graph, c: set<Node>, v: Node) {
    forall u :: u in c && u != v ==> Adjacent(g, u, v)
  }

  /**
   * c is a maximal clique of the subgraph induced by s: a non-empty clique
   * inside s that no further node of s extends.
   */
  ghost predicate IsMaximalClique(g: Graph, s: set<Node>, c: set<Node>) {
    && c != {} && c <= s && IsClique(g, c)
    && forall v :: v in s && v !in c ==> !JoinsAll(g, c, v)
  }

  /** The contract of networkx's find_cliques: on the subgraph induced by s it lists exactly the maximal cliques. */
  ghost predicate FindsMaximalCliques(g: Graph, findCliques: set<Node> -> seq<set<Node>>) {
    forall s, c {:trigger IsMaximalClique(g, s, c)} :: s <= g.nodes ==> (c in findCliques(s) <==> IsMaximalClique(g, s, c))
  }

  /** Every non-empty clique inside s lies in some maximal clique of the subgraph induced by s. */
  lemma {:induction false} ExtendToMaximal(g: Graph, s: set<Node>, c: set<Node>) returns (m: set<Node>)
    requires c != {} && c <= s && IsClique(g, c)
    ensures IsMaximalClique(g, s, m) && c <= m
    decreases |s - c|
  {
    if v :| v in s && v !in c && JoinsAll(g, c, v) {
      var c' := c + {v};
      assert s - c' < s - c by {
        assert v in s - c && v !in s - c';
      }
      m := ExtendToMaximal(g, s, c');
    } else {
      m := c;
    }
  }

  /** A maximal clique of a set of nodes is a clique of the graph, so some maximal clique of the whole graph contains it. */
  lemma InInitialClique(g: Graph, s: set<Node>, c: set<Node>, initial: seq<set<Node>>,
                        findCliques: set<Node> -> seq<set<Node>>)
    requires FindsMaximalCliques(g, findCliques) && s <= g.nodes && IsMaximalClique(g, s, c)
    requires initial == findCliques(g.nodes)
    ensures exists d :: d in initial && c <= d
  {
    var m := ExtendToMaximal(g, g.nodes, c);
    assert m in initial;
  }

  /** Python's max by length: the first of the longest sets. */
  function Largest(cs: seq<set<Node>>): (c: set<Node>)
    requires cs != []
    ensures c in cs
    ensures forall d :: d in cs ==> |d| <= |c|
  {
    if |cs| == 1 then cs[0]
    else
      var best := Largest(cs[..|cs| - 1]);
      assert cs == cs[..|cs| - 1] + [cs[|cs| - 1]];
      if |cs[|cs| - 1]| > |best| then cs[|cs| - 1] else best
  }

  /** The first set of cs that contains c, if any. */
  function FirstSuperset(cs: seq<set<Node>>, c: set<Node>): (r: Option<set<Node>>)
    ensures r.Some? ==> r.value in cs && c <= r.value
    ensures r.None? <==> forall d :: d in cs ==> !(c <= d)
  {
    if cs == [] then None
    else if c <= cs[0] then Some(cs[0])
    else
      assert forall d :: d in cs ==> d == cs[0] || d in cs[1..];
      FirstSuperset(cs[1..], c)
  }

  /**
   * One round of the loop is well defined: the remaining nodes have a
   * maximal clique, so the largest one is non-empty and inside them, and
   * some initial maximal clique contains it.
   */
  lemma ChoiceStep(g: Graph, findCliques: set<Node> -> seq<set<Node>>, remaining: set<Node>, initial: seq<set<Node>>)
    requires FindsMaximalCliques(g, findCliques) && remaining != {} && remaining <= g.nodes
    requires initial == findCliques(g.nodes)
    ensures findCliques(remaining) != []
    ensures var largest := Largest(findCliques(remaining));
            && largest != {} && largest <= remaining
            && FirstSuperset(initial, largest).Some?
  {
    var v :| v in remaining;
    var some := ExtendToMaximal(g, remaining, {v});
    assert some in findCliques(remaining);
    var largest := Largest(findCliques(remaining));
    assert IsMaximalClique(g, remaining, largest);
    InInitialClique(g, remaining, largest, initial, findCliques);
  }

  /** The nodes of the recorded sets. */
  function Covered(ps: seq<set<Node>>): set<Node> {
    if ps == [] then {} else Covered(ps[..|ps| - 1]) + ps[|ps| - 1]
  }

  /** A covered node lies in one of the recorded sets. */
  lemma {:induction false} CoveredWitness(ps: seq<set<Node>>, v: Node)
    requires v in Covered(ps)
    ensures exists p :: p in ps && v in p
  {
    var k := |ps| - 1;
    if v in ps[k] {
      assert ps[k] in ps;
    } else {
      CoveredWitness(ps[..k], v);
      var p :| p in ps[..k] && v in p;
      assert p in ps;
    }
  }

  /**
   * Recording a set that contains the removed nodes keeps every node
   * outside the remaining ones covered, and the count of sets plus
   * remaining nodes does not grow.
   */
  lemma CoverStep(nodes: set<Node>, remaining: set<Node>, removed: set<Node>, partition: seq<set<Node>>, chosen: set<Node>)
    requires remaining <= nodes && removed != {} && removed <= remaining && removed <= chosen
    requires nodes - remaining <= Covered(partition)
    requires |partition| + |remaining| <= |nodes|
    ensures nodes - (remaining - removed) <= Covered(partition + [chosen])
    ensures |partition + [chosen]| + |remaining - removed| <= |nodes|
    ensures |remaining - removed| < |remaining|
  {
    assert (partition + [chosen])[..|partition|] == partition;
    assert Covered(partition + [chosen]) == Covered(partition) + chosen;
    assert (remaining - removed) + removed == remaining;
  }

  /**
   * The loop invariant of greedy_clique_partition: the initial maximal
   * cliques, once fixed, are those of the whole graph; every recorded set is
   * one of them; every node already removed is covered; and there are no
   * more recorded sets plus remaining nodes than nodes.
   */
  ghost predicate RoundInvariant(g: Graph, findCliques: set<Node> -> seq<set<Node>>, remaining: set<Node>,
                                 partition: seq<set<Node>>, initialMaxCliques: Option<seq<set<Node>>>) {
    && remaining <= g.nodes
    && (initialMaxCliques.Some? ==> initialMaxCliques.value == findCliques(g.nodes))
    && (initialMaxCliques.None? ==> remaining == g.nodes && partition == [])
    && (forall p :: p in partition ==> p in findCliques(g.nodes))
    && g.nodes - remaining <= Covered(partition)
    && |partition| + |remaining| <= |g.nodes|
  }

  /**
   * One round of greedy_clique_partition: records the first initial maximal
   * clique containing a largest maximal clique of the remaining nodes, and
   * removes that clique's nodes. The first round also fixes the initial
   * maximal cliques.
   */
  method GreedyRound(g: Graph, findCliques: set<Node> -> seq<set<Node>>, remaining: set<Node>,
                     partition: seq<set<Node>>, initialMaxCliques: Option<seq<set<Node>>>)
    returns (remaining': set<Node>, partition': seq<set<Node>>, initialMaxCliques': Option<seq<set<Node>>>)
    requires FindsMaximalCliques(g, findCliques) && remaining != {}
    requires RoundInvariant(g, findCliques, remaining, partition, initialMaxCliques)
    ensures RoundInvariant(g, findCliques, remaining', partition', initialMaxCliques')
    ensures |remaining'| < |remaining|
  {
    var cliques := findCliques(remaining);
    initialMaxCliques' := initialMaxCliques;
    if initialMaxCliques'.None? {
      initialMaxCliques' := Some(cliques);
    }
    var initial := initialMaxCliques'.value;
    ChoiceStep(g, findCliques, remaining, initial);
    var largestClique := Largest(cliques);
    var largestInitialClique := FirstSuperset(initial, largestClique).value;
    CoverStep(g.nodes, remaining, largestClique, partition, largestInitialClique);
    partition' := partition + [largestInitialClique];
    remaining' := remaining - largestClique;
  }

  /** When no node remains, the recorded sets are a cover of the graph by its maximal cliques. */
  lemma RoundsDone(g: Graph, findCliques: set<Node> -> seq<set<Node>>,
                   partition: seq<set<Node>>, initialMaxCliques: Option<seq<set<Node>>>)
    requires FindsMaximalCliques(g, findCliques)
    requires RoundInvariant(g, findCliques, {}, partition, initialMaxCliques)
    ensures forall v :: v in g.nodes ==> exists p :: p in partition && v in p
    ensures forall p :: p in partition ==> IsMaximalClique(g, g.nodes, p)
    ensures |partition| <= |g.nodes|
  {
    forall v | v in g.nodes
      ensures exists p :: p in partition && v in p
    {
      CoveredWitness(partition, v);
    }
    InitialCliquesMaximal(g, findCliques, partition);
  }

  /**
   * greedy_clique_partition: every node ends up in some returned set, each
   * returned set is a maximal clique of the whole graph, there are at most
   * as many sets as nodes, and the empty graph gets none.
   */
  method GreedyCliquePartition(g: Graph, findCliques: set<Node> -> seq<set<Node>>) returns (partition: seq<set<Node>>)
    requires FindsMaximalCliques(g, findCliques)
    ensures forall v :: v in g.nodes ==> exists p :: p in partition && v in p
    ensures forall p :: p in partition ==> IsMaximalClique(g, g.nodes, p)
    ensures |partition| <= |g.nodes|
    ensures g.nodes == {} ==> partition == []
  {
    var remaining := g.nodes;
    partition := [];
    var initialMaxCliques: Option<seq<set<Node>>> := None;
    while remaining != {}
      invariant RoundInvariant(g, findCliques, remaining, partition, initialMaxCliques)
      decreases |remaining|
    {
      remaining, partition, initialMaxCliques := GreedyRound(g, findCliques, remaining, partition, initialMaxCliques);
    }
    RoundsDone(g, findCliques, partition, initialMaxCliques);
  }

  /** Sets drawn from the maximal cliques of the whole graph are maximal cliques of it. */
  lemma InitialCliquesMaximal(g: Graph, findCliques: set<Node> -> seq<set<Node>>, chosen: seq<set<Node>>)
    requires FindsMaximalCliques(g, findCliques)
    requires forall p :: p in chosen ==> p in findCliques(g.nodes)
    ensures forall p :: p in chosen ==> IsMaximalClique(g, g.nodes, p)
  {
    forall p | p in chosen
      ensures IsMaximalClique(g, g.nodes, p)
    {
    }
  }
}
