/**
  The keyword graph: one node per keyword, one weighted edge per ordered pair
  of distinct keywords (weighted by the RBO point estimate of their SERPs),
  handed to an external Markov clusterer whose groups are then named after
  their shortest keyword.
*/
module Graph {
  import opened Wrappers
  import opened Rankings
  import opened Rbo

  // ---------------------------------------------------------------------------
  // Configuration.

  /** The four knobs of a graph. */
  datatype Settings = Settings(rboPValue: real, clusterPower: int, clusterInflation: int, maxComputeIterations: int)

  /** p = 0.9, power 2, inflation 5, at most 100 iterations. */
  const DefaultSettings := Settings(0.9, 2, 5, 100)

  /** The option constructors: each sets one knob. */
  datatype GraphOption =
    | WithRBOPValue(p: real)
    | WithClusterPower(power: int)
    | WithClusterInflation(inflation: int)
    | WithClusterMaxIterations(iterations: int)

  /** The knobs an option can set. */
  datatype KnobName = RBOPValue | ClusterPower | ClusterInflation | MaxComputeIterations

  /** Which knob an option sets. */
  function Knob(o: GraphOption): KnobName
  {
    match o
    case WithRBOPValue(_) => RBOPValue
    case WithClusterPower(_) => ClusterPower
    case WithClusterInflation(_) => ClusterInflation
    case WithClusterMaxIterations(_) => MaxComputeIterations
  }

  /** The knob that `o` sets holds `o`'s value in `s`. */
  predicate Holds(s: Settings, o: GraphOption)
  {
    match o
    case WithRBOPValue(p) => s.rboPValue == p
    case WithClusterPower(power) => s.clusterPower == power
    case WithClusterInflation(inflation) => s.clusterInflation == inflation
    case WithClusterMaxIterations(iterations) => s.maxComputeIterations == iterations
  }

  /** `s` and `t` agree on knob `k`. */
  predicate Agrees(s: Settings, t: Settings, k: KnobName)
  {
    match k
    case RBOPValue => s.rboPValue == t.rboPValue
    case ClusterPower => s.clusterPower == t.clusterPower
    case ClusterInflation => s.clusterInflation == t.clusterInflation
    case MaxComputeIterations => s.maxComputeIterations == t.maxComputeIterations
  }

  /** Running one option's closure: the knob it names takes its value, and no other knob changes. */
  function Applied(s: Settings, o: GraphOption): (r: Settings)
    ensures Holds(r, o)
    ensures forall k :: k != Knob(o) ==> Agrees(r, s, k)
  {
    match o
    case WithRBOPValue(p) => s.(rboPValue := p)
    case WithClusterPower(power) => s.(clusterPower := power)
    case WithClusterInflation(inflation) => s.(clusterInflation := inflation)
    case WithClusterMaxIterations(iterations) => s.(maxComputeIterations := iterations)
  }

  /** The settings after applying `options` in order to the defaults. */
  function Configure(options: seq<GraphOption>): Settings
  {
    if options == [] then DefaultSettings
    else Applied(Configure(options[..|options| - 1]), options[|options| - 1])
  }

  /** A later option overrides every earlier option for the same knob. */
  lemma {:induction false} LastOptionWins(before: seq<GraphOption>, o: GraphOption, after: seq<GraphOption>)
    requires forall o' :: o' in after ==> Knob(o') != Knob(o)
    ensures Holds(Configure(before + [o] + after), o)
  {
    var all := before + [o] + after;
    if after == [] {
      assert all[..|all| - 1] == before;
    } else {
      var rest := after[..|after| - 1];
      assert all[..|all| - 1] == before + [o] + rest;
      LastOptionWins(before, o, rest);
      assert Knob(all[|all| - 1]) != Knob(o);
    }
  }

  /** Options for other knobs leave knob `k` at its default. */
  lemma {:induction false} UnsetKnobKeepsDefault(options: seq<GraphOption>, k: KnobName)
    requires forall o :: o in options ==> Knob(o) != k
    ensures Agrees(Configure(options), DefaultSettings, k)
  {
    if options != [] {
      UnsetKnobKeepsDefault(options[..|options| - 1], k);
      assert Knob(options[|options| - 1]) != k;
    }
  }

  // ---------------------------------------------------------------------------
  // The weighted keyword graph.

  /**
    What the clusterer receives: keyword nodes and weighted directed edges,
    `edges[u][v]` being the weight of the edge u->v.
  */
  datatype WeightedGraph = WeightedGraph(nodes: set<string>, edges: map<string, map<string, real>>)
  {
    /** The edge u->v is present. */
    predicate HasEdge(u: string, v: string)
    {
      u in edges && v in edges[u]
    }
  }

  /** A named cluster: its keywords and the first of its shortest keywords. */
  datatype ClusterGroup = ClusterGroup(name: string, keywords: seq<string>)

  /** Why clustering failed: RBO rejected an edge, or the clusterer failed. */
  datatype ClusterError =
    | EdgeFailed(from: string, to: string, rejected: ValidationError)
    | ClusteringFailed(cause: string)

  /** The external Markov clusterer: a graph, power, inflation and iteration limit to groups of keywords. */
  type Clusterer = (WeightedGraph, int, int, int) -> Result<seq<seq<string>>, string>

  /** Every ordered pair of distinct keywords with a source in `froms` has computable RBO. */
  predicate WeighableFrom(serps: map<string, SERP>, p: real, froms: set<string>)
  {
    forall u, v :: u in froms && u in serps && v in serps && u != v ==> Computable(serps[u], serps[v], p)
  }

  /** Every edge of the keyword graph can be weighed. */
  predicate Weighable(serps: map<string, SERP>, p: real)
  {
    WeighableFrom(serps, p, serps.Keys)
  }

  /** Every edge from `u` to another keyword in `targets` has computable RBO. */
  predicate RowWeighable(serps: map<string, SERP>, p: real, u: string, targets: set<string>)
    requires u in serps
  {
    forall v :: v in targets && v in serps && v != u ==> Computable(serps[u], serps[v], p)
  }

  /** The edges leaving `u`: one to every other keyword in `targets`, weighted by the RBO point estimate. */
  function Row(serps: map<string, SERP>, p: real, u: string, targets: set<string>): map<string, real>
    requires u in serps && RowWeighable(serps, p, u, targets)
  {
    map v | v in targets && v in serps && v != u :: PointEstimate(serps[u], serps[v], p)
  }

  /** `row` has an edge from `u` to exactly the other keywords of `targets`, each weighted by the RBO point estimate. */
  ghost predicate IsRow(row: map<string, real>, serps: map<string, SERP>, p: real, u: string, targets: set<string>)
    requires u in serps && RowWeighable(serps, p, u, targets)
  {
    && (forall v :: v in row <==> v in targets && v in serps && v != u)
    && (forall v :: v in row ==> row[v] == PointEstimate(serps[u], serps[v], p))
  }

  /** Weighing `u` itself adds no edge: there are no self-loops. */
  lemma IsRowSkipsSelf(row: map<string, real>, serps: map<string, SERP>, p: real, u: string, targets: set<string>)
    requires u in serps && RowWeighable(serps, p, u, targets)
    requires IsRow(row, serps, p, u, targets)
    ensures RowWeighable(serps, p, u, targets + {u}) && IsRow(row, serps, p, u, targets + {u})
  {
  }

  /** Weighing one more target `v` adds exactly the edge u->v to the row. */
  lemma IsRowGrows(row: map<string, real>, serps: map<string, SERP>, p: real, u: string, targets: set<string>, v: string)
    requires u in serps && v in serps && v != u && RowWeighable(serps, p, u, targets)
    requires IsRow(row, serps, p, u, targets)
    requires Computable(serps[u], serps[v], p)
    ensures RowWeighable(serps, p, u, targets + {v})
    ensures IsRow(row[v := PointEstimate(serps[u], serps[v], p)], serps, p, u, targets + {v})
  {
    var grown := row[v := PointEstimate(serps[u], serps[v], p)];
    forall w | w in grown
      ensures grown[w] == PointEstimate(serps[u], serps[w], p)
    {
      if w != v {
        assert grown[w] == row[w];
      }
    }
  }

  /** The edges leaving the keywords in `froms`. */
  function EdgesFrom(serps: map<string, SERP>, p: real, froms: set<string>): map<string, map<string, real>>
    requires WeighableFrom(serps, p, froms)
  {
    map u | u in froms && u in serps :: Row(serps, p, u, serps.Keys)
  }

  /** `edges` holds exactly the rows of the keywords in `froms`. */
  ghost predicate IsEdgesFrom(edges: map<string, map<string, real>>, serps: map<string, SERP>, p: real, froms: set<string>)
    requires WeighableFrom(serps, p, froms)
  {
    && (forall u :: u in edges <==> u in froms && u in serps)
    && (forall u :: u in edges ==> IsRow(edges[u], serps, p, u, serps.Keys))
  }

  /** Rows and edge maps are determined by what they must hold. */
  lemma EdgesFromUnique(edges: map<string, map<string, real>>, serps: map<string, SERP>, p: real, froms: set<string>)
    requires WeighableFrom(serps, p, froms) && IsEdgesFrom(edges, serps, p, froms)
    ensures edges == EdgesFrom(serps, p, froms)
  {
    forall u | u in edges
      ensures edges[u] == Row(serps, p, u, serps.Keys)
    {
      RowUnique(edges[u], serps, p, u, serps.Keys);
    }
  }

  lemma RowUnique(row: map<string, real>, serps: map<string, SERP>, p: real, u: string, targets: set<string>)
    requires u in serps && RowWeighable(serps, p, u, targets) && IsRow(row, serps, p, u, targets)
    ensures row == Row(serps, p, u, targets)
  {
  }

  /** The graph FindClusters hands to the clusterer. */
  function KeywordGraph(serps: map<string, SERP>, p: real): (g: WeightedGraph)
    requires Weighable(serps, p)
    ensures g.nodes == serps.Keys
    ensures forall u, v :: g.HasEdge(u, v) <==> u in serps && v in serps && u != v
    ensures forall u, v :: g.HasEdge(u, v) ==> g.edges[u][v] == PointEstimate(serps[u], serps[v], p)
  {
    WeightedGraph(serps.Keys, EdgesFrom(serps, p, serps.Keys))
  }

  /** The graph is symmetric: the edge u->v and the edge v->u have the same weight. */
  lemma KeywordGraphSymmetric(serps: map<string, SERP>, p: real, u: string, v: string)
    requires Weighable(serps, p)
    requires KeywordGraph(serps, p).HasEdge(u, v)
    ensures KeywordGraph(serps, p).HasEdge(v, u)
    ensures KeywordGraph(serps, p).edges[u][v] == KeywordGraph(serps, p).edges[v][u]
  {
    PointEstimateSymmetric(serps[u], serps[v], p);
  }

  /** With p outside [0, 1], the edges can be weighed exactly when there are fewer than two keywords. */
  lemma WeighableOutsideRange(serps: map<string, SERP>, p: real)
    requires p < 0.0 || p > 1.0
    ensures Weighable(serps, p) <==> |serps| < 2
  {
    if |serps| >= 2 {
      var u :| u in serps;
      assert |serps.Keys - {u}| >= 1;
      var v :| v in serps.Keys - {u};
      assert !Computable(serps[u], serps[v], p);
    } else {
      forall u, v | u in serps && v in serps
        ensures u == v
      {
        if u != v {
          assert {u, v} <= serps.Keys;
          SubsetCardinality({u, v}, serps.Keys);
        }
      }
    }
  }

  // ---------------------------------------------------------------------------
  // Naming a cluster.

  /** How many bytes the UTF-8 encoding of one character takes. */
  function CharBytes(c: char): (n: nat)
    ensures 1 <= n <= 4
    ensures n == 1 <==> c as int < 0x80
  {
    if c as int < 0x80 then 1
    else if c as int < 0x800 then 2
    else if c as int < 0x1_0000 then 3
    else 4
  }

  /**
    Go's `len` on a string: the number of bytes of its UTF-8 encoding, between
    one and four per character.
  */
  function ByteLength(s: string): (n: nat)
    ensures |s| <= n <= 4 * |s|
  {
    if s == [] then 0 else ByteLength(s[..|s| - 1]) + CharBytes(s[|s| - 1])
  }

  /** For ASCII text the byte length is the character count, and only then. */
  lemma {:induction false} AsciiByteLength(s: string)
    ensures ByteLength(s) == |s| <==> forall i :: 0 <= i < |s| ==> s[i] as int < 0x80
  {
    if s != [] {
      var init := s[..|s| - 1];
      AsciiByteLength(init);
      if forall i :: 0 <= i < |s| ==> s[i] as int < 0x80 {
        assert forall i :: 0 <= i < |init| ==> init[i] == s[i];
      } else {
        var i :| 0 <= i < |s| && s[i] as int >= 0x80;
        if i < |init| {
          assert init[i] == s[i];
        }
      }
    }
  }

  /** `ks[i]` is a shortest keyword in bytes and every keyword before it is strictly longer. */
  predicate FirstShortestAt(ks: seq<string>, i: int)
  {
    && 0 <= i < |ks|
    && (forall j :: 0 <= j < |ks| ==> ByteLength(ks[i]) <= ByteLength(ks[j]))
    && (forall j :: 0 <= j < i ==> ByteLength(ks[i]) < ByteLength(ks[j]))
  }

  /** `name` is the first keyword of minimal byte length in `ks`. */
  ghost predicate IsShortestName(name: string, ks: seq<string>)
  {
    exists i :: FirstShortestAt(ks, i) && name == ks[i]
  }

  /** At most one position is the first of minimal length, so the name is determined by the list. */
  lemma FirstShortestUnique(ks: seq<string>, i: int, j: int)
    requires FirstShortestAt(ks, i) && FirstShortestAt(ks, j)
    ensures i == j
  {
    assert ByteLength(ks[i]) <= ByteLength(ks[j]) && ByteLength(ks[j]) <= ByteLength(ks[i]);
  }

  /** Scans the keywords, keeping the current one only when it is strictly shorter in bytes. */
  method GetShortestKeyword(keywords: seq<string>) returns (shortest: string)
    requires keywords != []
    ensures IsShortestName(shortest, keywords)
  {
    shortest := keywords[0];
    ghost var at := 0;
    for i := 1 to |keywords|
      invariant FirstShortestAt(keywords[..i], at) && shortest == keywords[at]
    {
      if ByteLength(keywords[i]) < ByteLength(shortest) {
        shortest := keywords[i];
        at := i;
      }
    }
    assert keywords[..|keywords|] == keywords;
  }

  /** "parking" names a cluster that also holds "apartment parking". */
  method ShortestKeywordTest() returns (name: string)
    ensures name == "parking"
  {
    var ks := ["apartment parking", "parking"];
    name := GetShortestKeyword(ks);
    AsciiByteLength(ks[1]);
    assert FirstShortestAt(ks, 1);
    ghost var i :| FirstShortestAt(ks, i) && name == ks[i];
    FirstShortestUnique(ks, i, 1);
  }

  /** Length is counted in bytes: "éé" takes four, so "abc" (three) names the cluster. */
  method ByteLengthNameTest() returns (name: string)
    ensures name == "abc"
  {
    var ks := ["\U{E9}\U{E9}", "abc"];
    name := GetShortestKeyword(ks);
    assert ByteLength(ks[0]) == ByteLength(ks[0][..1]) + 2;
    assert ks[0][..1][..0] == [];
    AsciiByteLength(ks[1]);
    assert FirstShortestAt(ks, 1);
    ghost var i :| FirstShortestAt(ks, i) && name == ks[i];
    FirstShortestUnique(ks, i, 1);
  }

  /** Names each group after its shortest keyword, keeping the clusterer's order. */
  method NameClusters(groups: seq<seq<string>>) returns (clusters: seq<ClusterGroup>)
    requires forall i :: 0 <= i < |groups| ==> groups[i] != []
    ensures |clusters| == |groups|
    ensures forall i :: 0 <= i < |groups| ==> clusters[i].keywords == groups[i] && IsShortestName(clusters[i].name, groups[i])
  {
    clusters := [];
    for i := 0 to |groups|
      invariant |clusters| == i
      invariant forall j :: 0 <= j < i ==> clusters[j].keywords == groups[j] && IsShortestName(clusters[j].name, groups[j])
    {
      var name := GetShortestKeyword(groups[i]);
      clusters := clusters + [ClusterGroup(name, groups[i])];
    }
  }

  // ---------------------------------------------------------------------------
  // Building the graph.

  /** Adds one node per keyword, in whatever order the map yields them. */
  method AddNodes(serps: map<string, SERP>) returns (nodes: set<string>)
    ensures nodes == serps.Keys
  {
    nodes := {};
    var left := serps.Keys;
    while left != {}
      invariant nodes + left == serps.Keys
      invariant nodes !! left
      decreases left
    {
      var keyword :| keyword in left;
      nodes := nodes + {keyword};
      left := left - {keyword};
    }
  }

  /**
    The inner loop over targets for one source keyword `u`: computes RBO for
    each other keyword and adds the edge u->v to `u`'s adjacency row, or
    stops at the first error.
  */
  method AddEdgesFrom(serps: map<string, SERP>, p: real, ln: real -> real, u: string)
    returns (r: Result<map<string, real>, ClusterError>)
    requires u in serps
    requires p < 0.0 || p > 1.0 || Weighable(serps, p)
    ensures r.Failure? ==> !Weighable(serps, p) && exists v :: v in serps && v != u && r.error == EdgeFailed(u, v, PNotBetweenZeroAndOne)
    ensures r.Success? ==> RowWeighable(serps, p, u, serps.Keys) && IsRow(r.value, serps, p, u, serps.Keys)
  {
    var row := map[];
    var left := serps.Keys;
    ghost var seen: set<string> := {};
    while left != {}
      invariant left + seen == serps.Keys && left !! seen
      invariant RowWeighable(serps, p, u, seen) && IsRow(row, serps, p, u, seen)
      decreases left
    {
      var v :| v in left;
      left := left - {v};
      if v == u {
        IsRowSkipsSelf(row, serps, p, u, seen);
        seen := seen + {v};
        continue;
      }
      var _, _, ext, err := RBO(serps[u], serps[v], p, ln);
      if err.Some? {
        return Failure(EdgeFailed(u, v, PNotBetweenZeroAndOne));
      }
      IsRowGrows(row, serps, p, u, seen, v);
      row := row[v := ext];
      seen := seen + {v};
    }
    return Success(row);
  }

  /** The outer loop over source keywords: every edge of the keyword graph, or the first RBO error. */
  method AddEdges(serps: map<string, SERP>, p: real, ln: real -> real) returns (r: Result<map<string, map<string, real>>, ClusterError>)
    requires p < 0.0 || p > 1.0 || Weighable(serps, p)
    ensures r.Success? <==> Weighable(serps, p)
    ensures r.Success? ==> r.value == KeywordGraph(serps, p).edges
    ensures r.Failure? ==> exists u, v :: u in serps && v in serps && u != v && r.error == EdgeFailed(u, v, PNotBetweenZeroAndOne)
  {
    var edges := map[];
    var left := serps.Keys;
    ghost var done: set<string> := {};
    while left != {}
      invariant left + done == serps.Keys && left !! done
      invariant WeighableFrom(serps, p, done) && IsEdgesFrom(edges, serps, p, done)
      decreases left
    {
      var u :| u in left;
      var row := AddEdgesFrom(serps, p, ln, u);
      if row.Failure? {
        return Failure(row.error);
      }
      edges := edges[u := row.value];
      left := left - {u};
      done := done + {u};
    }
    EdgesFromUnique(edges, serps, p, serps.Keys);
    return Success(edges);
  }

  // ---------------------------------------------------------------------------
  // The graph object.

  /** A configured graph: the knobs that FindClusters uses. */
  class Graph {
    var rboPValue: real
    var clusterPower: int
    var clusterInflation: int
    var maxComputeIterations: int

    /** The current knobs as a value. */
    function Current(): Settings
      reads this
    {
      Settings(rboPValue, clusterPower, clusterInflation, maxComputeIterations)
    }

    /** Runs one option's closure on this graph. */
    method Apply(o: GraphOption)
      modifies this
      ensures Current() == Applied(old(Current()), o)
    {
      match o
      case WithRBOPValue(p) => rboPValue := p;
      case WithClusterPower(power) => clusterPower := power;
      case WithClusterInflation(inflation) => clusterInflation := inflation;
      case WithClusterMaxIterations(iterations) => maxComputeIterations := iterations;
    }

    /** Starts from the defaults and applies the options in order. */
    constructor (options: seq<GraphOption>)
      ensures Current() == Configure(options)
    {
      rboPValue, clusterPower, clusterInflation, maxComputeIterations := 0.9, 2, 5, 100;
      new;
      for i := 0 to |options|
        invariant Current() == Configure(options[..i])
      {
        Apply(options[i]);
        assert options[..i + 1][..i] == options[..i];
      }
      assert options[..|options|] == options;
    }

    /**
      Builds the keyword graph of `kd`, clusters it, and names each cluster.
      Fails when RBO rejects an edge (p outside [0, 1] with at least two
      keywords) or when the clusterer fails.
    */
    method FindClusters(kd: KeywordData, ln: real -> real, cluster: Clusterer)
      returns (r: Result<seq<ClusterGroup>, ClusterError>)
      requires rboPValue < 0.0 || rboPValue > 1.0 || Weighable(kd.serps, rboPValue)
      requires Weighable(kd.serps, rboPValue) ==>
        NonEmptyGroups(cluster(KeywordGraph(kd.serps, rboPValue), clusterPower, clusterInflation, maxComputeIterations))
      ensures !Weighable(kd.serps, rboPValue) ==>
        r.Failure? && exists u, v :: u in kd.serps && v in kd.serps && u != v && r.error == EdgeFailed(u, v, PNotBetweenZeroAndOne)
      ensures Weighable(kd.serps, rboPValue) ==>
        var outcome := cluster(KeywordGraph(kd.serps, rboPValue), clusterPower, clusterInflation, maxComputeIterations);
        match outcome
        case Failure(e) => r == Failure(ClusteringFailed(e))
        case Success(groups) =>
          && r.Success? && |r.value| == |groups|
          && forall i :: 0 <= i < |groups| ==> r.value[i].keywords == groups[i] && IsShortestName(r.value[i].name, groups[i])
    {
      var nodes := AddNodes(kd.serps);
      var edges := AddEdges(kd.serps, rboPValue, ln);
      if edges.Failure? {
        return Failure(edges.error);
      }
      var g := WeightedGraph(nodes, edges.value);
      var outcome := cluster(g, clusterPower, clusterInflation, maxComputeIterations);
      if outcome.Failure? {
        return Failure(ClusteringFailed(outcome.error));
      }
      var clusters := NameClusters(outcome.value);
      return Success(clusters);
    }
  }

  /** What the clusterer is relied on to return: no empty group. */
  predicate NonEmptyGroups(outcome: Result<seq<seq<string>>, string>)
  {
    outcome.Success? ==> forall i :: 0 <= i < |outcome.value| ==> outcome.value[i] != []
  }
}
