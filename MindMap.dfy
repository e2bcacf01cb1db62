/** The career mind map of `build_mindmap` in src/data_cleanup.py: a root, seven
    branches, and under each branch the (possibly truncated) labels of its items. */
module MindMap {

  /** A mind-map label: the item itself up to 60 characters, otherwise its first 60
      characters and `...`. */
  function Label(item: string): (r: string)
    ensures |r| <= 63
    ensures |item| <= 60 ==> r == item
    ensures |item| > 60 ==> |r| == 63 && r[..60] == item[..60] && r[60..] == "..."
  {
    if |item| <= 60 then item else item[..60] + "..."
  }

  /** Truncating a label again changes nothing. */
  lemma LabelIdempotent(item: string)
    ensures Label(Label(item)) == Label(item)
  {
    if |item| > 60 {
      var l := Label(item);
      assert l == l[..60] + l[60..];
    }
  }

  /** The longest item of the `MMA in Nepal` branch, as its label shows it. */
  lemma LongItemTruncated()
    ensures Label(MmaInNepalItems[2]) == "Challenges: dearth of players, lack of proper facilities, mi..."
  {
    assert MmaInNepalItems[2][..60] == "Challenges: dearth of players, lack of proper facilities, mi";
  }

  /** A directed graph of text nodes (`networkx.DiGraph`). */
  class DiGraph {
    var nodes: set<string>
    var edges: set<(string, string)>

    ghost predicate Valid()
      reads this
    {
      forall e :: e in edges ==> e.0 in nodes && e.1 in nodes
    }

    constructor ()
      ensures Valid() && nodes == {} && edges == {}
    {
      nodes, edges := {}, {};
    }

    /** `G.add_node(n)`. */
    method AddNode(n: string)
      requires Valid()
      modifies this
      ensures Valid()
      ensures nodes == old(nodes) + {n} && edges == old(edges)
    {
      nodes := nodes + {n};
    }

    /** `G.add_edge(u, v)`, which adds missing endpoints as nodes. */
    method AddEdge(u: string, v: string)
      requires Valid()
      modifies this
      ensures Valid()
      ensures nodes == old(nodes) + {u, v} && edges == old(edges) + {(u, v)}
    {
      nodes := nodes + {u, v};
      edges := edges + {(u, v)};
    }
  }

  const Root: string := "Rabindra Dhant: Nepali MMA Champion"

  const Branches: seq<string> := [
    "Background", "Professional Career", "Training & Support", "Challenges & Mindset",
    "Impact & Recognition", "MMA in Nepal", "Controversy"
  ]

  const BackgroundItems: seq<string> := [
    "Born: November 30, 1998, Bajhang District, Nepal",
    "Early life: Manual laborer in India (Pithoragarh, New Delhi)",
    "Initial training: Karate, then transitioned to MMA",
    "Nickname: The Tiger of Bajhang",
    "Nationality: Nepalese (refused Indian citizenship offer)"
  ]

  const ProfessionalCareerItems: seq<string> := [
    "Record: 9 wins, 1 loss (7 KO/TKO, 1 Submission, 1 Decision)",
    "Notable fights: MFN Bantamweight Championship win vs Chungreng Koren",
    "Fight locations: India, China, Thailand, Nepal",
    "Current streak: 3 wins"
  ]

  const TrainingSupportItems: seq<string> := [
    "Current gym: Soma Fight Club, Bali (Indonesia)",
    "Previous training: Lock N Roll MMA, Kathmandu",
    "Mentorship: Coach Diwiz Piya Lama",
    "Sponsorship & finances: Supported by Nutrition Fit Nepali and Latido"
  ]

  const ChallengesMindsetItems: seq<string> := [
    "Height initially self-conscious for volleyball",
    "Citizenship barriers for international fights",
    "Financial struggles, lack of institutional support",
    "Family pressure to find stable job",
    "Intense training (2-3 times/day), body aches normal",
    "Mental toughness & discipline emphasized by coaches",
    "Focus on fighting itself to handle pressure",
    "Avoids social media distractions during fight week",
    "Finds peace in Nepali village vlogs",
    "Prefers not to watch other fights before bouts",
    "Goal: UFC World Champion (target age 33-34)"
  ]

  const ImpactRecognitionItems: seq<string> := [
    "Widespread recognition in Nepal (public, media, political leaders)",
    "Milestone for combat sports in Nepal",
    "Congratulated by Prime Minister K.P. Sharma Oli and others",
    "Inspires young Nepali athletes",
    "Helped popularize MMA in Nepal",
    "Role model: humble, disciplined, respectful"
  ]

  const MmaInNepalItems: seq<string> := [
    "Growing popularity over last 5 years",
    "Nepal Warriors Championship (NWC): platform for local fighters",
    "Challenges: dearth of players, lack of proper facilities, minimal government support",
    "High prices for gyms/ facilities in Kathmandu (~4.5-5K NPR/month)",
    "No official governing body for MMA as of 2019",
    "Emphasizes discipline, perseverance, and hard work"
  ]

  const ControversyItems: seq<string> := [
    "Warriors Cove (Chungreng's team) claimed Koren had leg issues before MFN 17",
    "Coach Mike (Dhant's coach) strongly denied excuses, blaming Indian MMA culture",
    "Highlighted Dhant fought with an MCL tear, not wrestling for 6 weeks",
    "Warriors Cove criticized for inconsistent weight management",
    "Dhant outclassed opponent in wrestling, striking, grappling",
    "No rematch deserved due to Warriors Cove's lack of accountability",
    "Emphasis on humility and learning from losses for growth"
  ]

  const BranchItems: seq<seq<string>> := [
    BackgroundItems, ProfessionalCareerItems, TrainingSupportItems, ChallengesMindsetItems,
    ImpactRecognitionItems, MmaInNepalItems, ControversyItems
  ]

  /** The edges from a branch to the labels of its first `m` items. */
  function LabelEdges(branch: string, items: seq<string>, m: nat): set<(string, string)>
    requires m <= |items|
  {
    if m == 0 then {} else LabelEdges(branch, items, m - 1) + {(branch, Label(items[m - 1]))}
  }

  /** One branch of the tree: its edge from the root and its edges to its item labels. */
  function BranchEdges(root: string, branch: string, items: seq<string>): set<(string, string)> {
    {(root, branch)} + LabelEdges(branch, items, |items|)
  }

  /** The edges of the first `k` branches of a two-level tree. */
  function TreeEdges(root: string, branches: seq<string>, items: seq<seq<string>>, k: nat): set<(string, string)>
    requires |items| == |branches| && k <= |branches|
  {
    if k == 0 then {}
    else TreeEdges(root, branches, items, k - 1) + BranchEdges(root, branches[k - 1], items[k - 1])
  }

  /** The labels of the first `m` items. */
  function LabelNodes(items: seq<string>, m: nat): set<string>
    requires m <= |items|
  {
    if m == 0 then {} else LabelNodes(items, m - 1) + {Label(items[m - 1])}
  }

  /** The branch nodes and item-label nodes of the first `k` branches. */
  function TreeNodes(branches: seq<string>, items: seq<seq<string>>, k: nat): set<string>
    requires |items| == |branches| && k <= |branches|
  {
    if k == 0 then {}
    else TreeNodes(branches, items, k - 1) + {branches[k - 1]} + LabelNodes(items[k - 1], |items[k - 1]|)
  }

  /** Every edge of the career mind map. */
  function MindmapEdges(): set<(string, string)> {
    TreeEdges(Root, Branches, BranchItems, |Branches|)
  }

  /** Every node of the career mind map but the root. */
  function MindmapNodes(): set<string> {
    TreeNodes(Branches, BranchItems, |Branches|)
  }

  /** The nodes an edge set touches. */
  function Endpoints(edges: set<(string, string)>): set<string> {
    (set e | e in edges :: e.0) + (set e | e in edges :: e.1)
  }

  lemma EndpointsUnion(a: set<(string, string)>, b: set<(string, string)>)
    ensures Endpoints(a + b) == Endpoints(a) + Endpoints(b)
  {
  }

  lemma EndpointsOfEdge(u: string, v: string)
    ensures Endpoints({(u, v)}) == {u, v}
  {
    assert (u, v).0 == u && (u, v).1 == v;
  }

  /** The label edges of a branch touch the branch (when there are any) and the labels. */
  lemma {:induction false} LabelEdgesEndpoints(branch: string, items: seq<string>, m: nat)
    requires m <= |items|
    ensures Endpoints(LabelEdges(branch, items, m)) == (if m == 0 then {} else {branch}) + LabelNodes(items, m)
  {
    if m > 0 {
      LabelEdgesEndpoints(branch, items, m - 1);
      EndpointsUnion(LabelEdges(branch, items, m - 1), {(branch, Label(items[m - 1]))});
      EndpointsOfEdge(branch, Label(items[m - 1]));
    }
  }

  /** A branch's edges touch the root, the branch and its item labels. */
  lemma BranchEdgesEndpoints(root: string, branch: string, items: seq<string>)
    ensures Endpoints(BranchEdges(root, branch, items)) == {root, branch} + LabelNodes(items, |items|)
  {
    LabelEdgesEndpoints(branch, items, |items|);
    EndpointsUnion({(root, branch)}, LabelEdges(branch, items, |items|));
    EndpointsOfEdge(root, branch);
  }

  /** The tree's nodes are exactly the endpoints of its edges, the root aside. */
  lemma {:induction false} TreeEdgesEndpoints(root: string, branches: seq<string>, items: seq<seq<string>>, k: nat)
    requires |items| == |branches| && k <= |branches|
    ensures Endpoints(TreeEdges(root, branches, items, k)) == (if k == 0 then {} else {root}) + TreeNodes(branches, items, k)
  {
    if k > 0 {
      var b, its := branches[k - 1], items[k - 1];
      var before := TreeEdges(root, branches, items, k - 1);
      var nodes := TreeNodes(branches, items, k - 1);
      TreeEdgesEndpoints(root, branches, items, k - 1);
      BranchEdgesEndpoints(root, b, its);
      EndpointsUnion(before, BranchEdges(root, b, its));
      assert Endpoints(before) + ({root, b} + LabelNodes(its, |its|))
             == {root} + (nodes + {b} + LabelNodes(its, |its|));
    }
  }

  /** A label edge is one from the branch to the label of one of its first `m` items. */
  lemma {:induction false} LabelEdgesMembership(branch: string, items: seq<string>, m: nat, e: (string, string))
    requires m <= |items|
    ensures e in LabelEdges(branch, items, m) <==> exists j :: 0 <= j < m && e == (branch, Label(items[j]))
  {
    if m > 0 {
      LabelEdgesMembership(branch, items, m - 1, e);
    }
  }

  /** A tree edge goes from the root to one of the first `k` branches, or from one of
      them to the label of one of its items. */
  lemma {:induction false} TreeEdgesMembership(root: string, branches: seq<string>, items: seq<seq<string>>,
                                               k: nat, e: (string, string))
    requires |items| == |branches| && k <= |branches|
    ensures e in TreeEdges(root, branches, items, k)
            <==> exists i :: 0 <= i < k && (e == (root, branches[i]) || e in LabelEdges(branches[i], items[i], |items[i]|))
  {
    if k > 0 {
      TreeEdgesMembership(root, branches, items, k - 1, e);
    }
  }

  /** The inner loop of `build_mindmap` for one branch, after its node and its edge
      from the root: each item's label node and the branch-to-label edge. */
  method AddLabels(g: DiGraph, branch: string, items: seq<string>)
    requires g.Valid() && branch in g.nodes
    modifies g
    ensures g.Valid()
    ensures g.edges == old(g.edges) + LabelEdges(branch, items, |items|)
    ensures g.nodes == old(g.nodes) + LabelNodes(items, |items|)
  {
    ghost var nodes0, edges0 := g.nodes, g.edges;
    for m := 0 to |items|
      invariant g.Valid() && branch in g.nodes
      invariant g.edges == edges0 + LabelEdges(branch, items, m)
      invariant g.nodes == nodes0 + LabelNodes(items, m)
    {
      var caption := if |items[m]| <= 60 then items[m] else items[m][..60] + "...";
      assert caption == Label(items[m]);
      g.AddNode(caption);
      g.AddEdge(branch, caption);
    }
  }

  /** One pass of the outer loop of `build_mindmap`: the branch node, its edge from the
      root, then its item labels. */
  method AddBranch(g: DiGraph, root: string, branch: string, items: seq<string>)
    requires g.Valid() && root in g.nodes
    modifies g
    ensures g.Valid()
    ensures g.edges == old(g.edges) + BranchEdges(root, branch, items)
    ensures g.nodes == old(g.nodes) + {branch} + LabelNodes(items, |items|)
  {
    g.AddNode(branch);
    g.AddEdge(root, branch);
    AddLabels(g, branch, items);
  }

  /** The outer loop of `build_mindmap` over the zipped branch names and item lists. */
  method AddTree(g: DiGraph, root: string, branches: seq<string>, items: seq<seq<string>>)
    requires g.Valid() && root in g.nodes && |items| == |branches|
    modifies g
    ensures g.Valid()
    ensures g.edges == old(g.edges) + TreeEdges(root, branches, items, |branches|)
    ensures g.nodes == old(g.nodes) + TreeNodes(branches, items, |branches|)
  {
    ghost var nodes0, edges0 := g.nodes, g.edges;
    for k := 0 to |branches|
      invariant g.Valid() && root in g.nodes
      invariant g.edges == edges0 + TreeEdges(root, branches, items, k)
      invariant g.nodes == nodes0 + TreeNodes(branches, items, k)
    {
      AddBranch(g, root, branches[k], items[k]);
    }
  }

  /** `build_mindmap()`: the root, then the tree of branches and item labels. */
  method BuildMindmap() returns (g: DiGraph)
    ensures fresh(g) && g.Valid()
    ensures g.edges == MindmapEdges()
    ensures g.nodes == {Root} + MindmapNodes()
  {
    g := new DiGraph();
    g.AddNode(Root);
    AddTree(g, Root, Branches, BranchItems);
  }

  /** The mind map's nodes are its root and the endpoints of its edges: no node is isolated. */
  lemma MindmapConnected()
    ensures {Root} + MindmapNodes() == Endpoints(MindmapEdges())
  {
    TreeEdgesEndpoints(Root, Branches, BranchItems, |Branches|);
  }

  /** In a tree whose root is not a branch name, the root's children are exactly the branches. */
  lemma TreeRootChildren(root: string, branches: seq<string>, items: seq<seq<string>>, v: string)
    requires |items| == |branches| && root !in branches
    ensures (root, v) in TreeEdges(root, branches, items, |branches|) <==> v in branches
  {
    TreeEdgesMembership(root, branches, items, |branches|, (root, v));
    if v in branches {
      var i :| 0 <= i < |branches| && branches[i] == v;
      assert (root, v) == (root, branches[i]);
    }
    forall i | 0 <= i < |branches| ensures (root, v) !in LabelEdges(branches[i], items[i], |items[i]|) {
      LabelEdgesMembership(branches[i], items[i], |items[i]|, (root, v));
      assert branches[i] != root;
    }
  }

  /** The mind map's root's children are exactly the seven branches. */
  lemma RootChildren(v: string)
    ensures (Root, v) in MindmapEdges() <==> v in Branches
  {
    assert Root !in Branches by {
      forall i | 0 <= i < |Branches| ensures Branches[i] != Root {
        assert |Branches[i]| < |Root|;
      }
    }
    TreeRootChildren(Root, Branches, BranchItems, v);
  }

  /** In any tree, each item's label hangs from its own branch. */
  lemma TreeItemUnderBranch(root: string, branches: seq<string>, items: seq<seq<string>>, i: nat, j: nat)
    requires |items| == |branches| && i < |branches| && j < |items[i]|
    ensures (branches[i], Label(items[i][j])) in TreeEdges(root, branches, items, |branches|)
  {
    var e := (branches[i], Label(items[i][j]));
    LabelEdgesMembership(branches[i], items[i], |items[i]|, e);
    TreeEdgesMembership(root, branches, items, |branches|, e);
  }

  /** Each item of the career mind map hangs, as its label, from its own branch. */
  lemma ItemUnderBranch(i: nat, j: nat)
    requires i < |Branches| && j < |BranchItems[i]|
    ensures (Branches[i], Label(BranchItems[i][j])) in MindmapEdges()
  {
    TreeItemUnderBranch(Root, Branches, BranchItems, i, j);
  }
}
