/** The three renderers that describe the generated nodes to the packaging
    stage: the node list, the README notes of the nodes and the list of the
    package's files. Each walks the agent's `nodes` in order; the first two
    also index the predicted graph, which raises when the graph is not a
    dict holding the node. */
module Prompts {
  import opened Wrappers
  import opened Text
  import opened OrderedDict
  import opened GraphModel
  import opened Tools

  // ---------------------------------------------------------------------
  // Indexing the predicted graph

  /** The exception indexing a graph value raises: a string, a list or any
      other non-dict literal is not subscriptable by a name (`TypeError`);
      a dict lacking the node or one of its keys raises `KeyError`. */
  function LookupError(g: PyValue): string {
    if g.Str? || g.OtherLiteral? then "TypeError" else "KeyError"
  }

  /** The graph value is a dict holding the node with its three keys. */
  predicate Indexable(g: PyValue, node: string) {
    || (g.GraphDict? && node in g.graph.entries)
    || (g.OtherDict? && node in g.dict.entries && Complete(g.dict.entries[node]))
  }

  /** `ros_graph_dict[node]` together with its three keys. */
  function GraphLookup(g: PyValue, node: string): (r: Outcome<GraphNode>)
    ensures r.Normal? <==> Indexable(g, node)
    ensures r.Normal? && g.GraphDict? ==> r.value == g.graph.entries[node]
    ensures r.Normal? && g.OtherDict? ==> r.value == AsGraphNode(g.dict.entries[node])
    ensures r.Thrown? ==> r.exception == LookupError(g)
  {
    match g
    case GraphDict(d) => if node in d.entries then Normal(d.entries[node]) else Thrown("KeyError")
    case OtherDict(d) =>
      if node in d.entries && Complete(d.entries[node]) then Normal(AsGraphNode(d.entries[node])) else Thrown("KeyError")
    case Str(_) => Thrown("TypeError")
    case OtherLiteral => Thrown("TypeError")
  }

  /** Every node of `keys` can be looked up. */
  predicate Resolves(g: PyValue, keys: seq<string>) {
    forall k :: k in keys ==> GraphLookup(g, k).Normal?
  }

  /** Python's `str` of a list of strings (no quote or backslash inside). */
  function ListRepr(xs: seq<string>): string {
    "[" + JoinWith(Quoted(xs), ", ") + "]"
  }

  function Quoted(xs: seq<string>): (r: seq<string>)
    ensures |r| == |xs| && forall i :: 0 <= i < |xs| ==> r[i] == "'" + xs[i] + "'"
  {
    if xs == [] then [] else Quoted(xs[..|xs| - 1]) + ["'" + xs[|xs| - 1] + "'"]
  }

  /** The names among `keys` whose code is not `RAG`, in order. */
  function NonRag(nodes: Dict<CodeArtifact>, keys: seq<string>): (r: seq<string>)
    requires forall k :: k in keys ==> k in nodes.entries
    ensures forall k :: k in r <==> k in keys && nodes.entries[k].code != Rag
    ensures |r| <= |keys|
    ensures (forall k :: k in keys ==> nodes.entries[k].code == Rag) ==> r == []
  {
    if keys == [] then []
    else
      var k := keys[|keys| - 1];
      NonRag(nodes, keys[..|keys| - 1]) + (if nodes.entries[k].code != Rag then [k] else [])
  }

  // ---------------------------------------------------------------------
  // get_node_list

  function NameLine(node: string): string { "Name: " + node + "\n" }
  function DescriptionLine(description: string): string { "Description: " + description + "\n" }
  function PackageLine(package: string): string { "Package: " + package + "\n" }
  function TypeLine(node: string): string { "Type: " + node + ".py\n" }

  /** The description line of a node reused from a ROS package. */
  function RagDescriptionLine(description: string, package: string): string {
    "Description: " + description + ". You should find a ROS node in the ROS package " + package
      + " to satisfy this functionality.\n"
  }

  /** The type line of a node reused from a ROS package. */
  function RagTypeLine(package: string): string {
    "Type: You should find the correct ROS node inside the ROS package " + package + " to satisfy this functionality.\n"
  }

  function SubscribedLine(topics: seq<string>): string { "Subscribed Topics: " + ListRepr(topics) + "\n" }
  function PublishedLine(topics: seq<string>): string { "Published Topics: " + ListRepr(topics) + "\n" }

  /** The lines a node contributes to the node list. */
  function NodeLines(node: string, a: CodeArtifact, gn: GraphNode, project: Option<string>): seq<string> {
    if a.code != Rag then
      [NameLine(node), DescriptionLine(gn.description), PackageLine(PyStr(project)), TypeLine(node),
       SubscribedLine(gn.subscribed), PublishedLine(gn.published)]
    else
      [NameLine(node), RagDescriptionLine(gn.description, a.readme), PackageLine(a.readme), RagTypeLine(a.readme)]
  }

  /** The line groups of the nodes `keys`, in order. */
  function NodeGroups(nodes: Dict<CodeArtifact>, keys: seq<string>, g: PyValue, project: Option<string>): (r: seq<seq<string>>)
    requires forall k :: k in keys ==> k in nodes.entries
    requires Resolves(g, keys)
    ensures |r| == |keys|
  {
    if keys == [] then []
    else
      var k := keys[|keys| - 1];
      NodeGroups(nodes, keys[..|keys| - 1], g, project)
        + [NodeLines(k, nodes.entries[k], GraphLookup(g, k).value, project)]
  }

  /** What `get_node_list` returns: the lines of all nodes, in order, or the
      exception of the first lookup that fails. */
  function NodeListText(nodes: Dict<CodeArtifact>, g: PyValue, project: Option<string>): Outcome<string> {
    KeysAreEntries(nodes);
    if Resolves(g, nodes.keys) then Normal(Concat(Concat(NodeGroups(nodes, nodes.keys, g, project))))
    else Thrown(LookupError(g))
  }

  lemma NodeGroupsStep(nodes: Dict<CodeArtifact>, keys: seq<string>, i: nat, g: PyValue, project: Option<string>)
    requires i < |keys| && forall k :: k in keys ==> k in nodes.entries
    requires Resolves(g, keys[..i]) && GraphLookup(g, keys[i]).Normal?
    ensures Resolves(g, keys[..i + 1])
    ensures Concat(NodeGroups(nodes, keys[..i + 1], g, project))
         == Concat(NodeGroups(nodes, keys[..i], g, project))
            + NodeLines(keys[i], nodes.entries[keys[i]], GraphLookup(g, keys[i]).value, project)
  {
    assert keys[..i + 1] == keys[..i] + [keys[i]];
    assert keys[..i + 1][..i] == keys[..i];
    ConcatSnoc(NodeGroups(nodes, keys[..i], g, project), NodeLines(keys[i], nodes.entries[keys[i]], GraphLookup(g, keys[i]).value, project));
  }

  /** `get_node_list`. */
  method GetNodeList(nodes: Dict<CodeArtifact>, g: PyValue, project: Option<string>) returns (r: Outcome<string>)
    ensures r == NodeListText(nodes, g, project)
  {
    KeysAreEntries(nodes);
    var s := "";
    var i := 0;
    while i < |nodes.keys|
      invariant 0 <= i <= |nodes.keys|
      invariant Resolves(g, nodes.keys[..i])
      invariant s == Concat(Concat(NodeGroups(nodes, nodes.keys[..i], g, project)))
    {
      var step := ListNode(nodes, g, project, i, s);
      if step.Thrown? {
        return step;
      }
      s := step.value;
      i := i + 1;
    }
    assert nodes.keys[..i] == nodes.keys;
    r := Normal(s);
  }

  /** One pass of the loop of `get_node_list`: the lookup of the `i`-th
      node, then its lines. */
  method ListNode(nodes: Dict<CodeArtifact>, g: PyValue, project: Option<string>, i: nat, s: string) returns (r: Outcome<string>)
    requires i < |nodes.keys| && forall k :: k in nodes.keys ==> k in nodes.entries
    requires Resolves(g, nodes.keys[..i]) && s == Concat(Concat(NodeGroups(nodes, nodes.keys[..i], g, project)))
    ensures r.Thrown? ==> r == NodeListText(nodes, g, project)
    ensures r.Normal? ==>
      (Resolves(g, nodes.keys[..i + 1]) && r.value == Concat(Concat(NodeGroups(nodes, nodes.keys[..i + 1], g, project))))
  {
    var node := nodes.keys[i];
    var look := GraphLookup(g, node);
    if look.Thrown? {
      NodeListFailsAt(nodes, g, project, i);
      return Thrown(look.exception);
    }
    NodeGroupsStep(nodes, nodes.keys, i, g, project);
    var t := AppendNodeLines(s, node, nodes.entries[node], look.value, project);
    return Normal(t);
  }

  /** A node whose lookup fails fails the whole list, with the exception
      the graph value raises. */
  lemma NodeListFailsAt(nodes: Dict<CodeArtifact>, g: PyValue, project: Option<string>, i: nat)
    requires i < |nodes.keys| && GraphLookup(g, nodes.keys[i]).Thrown?
    ensures NodeListText(nodes, g, project) == Thrown(LookupError(g))
  {
    assert nodes.keys[i] in nodes.keys;
  }

  /** One pass of the loop of `get_node_list` for a node whose graph entry
      was found: its lines, each appended as its f-string is formed. */
  method AppendNodeLines(s0: string, node: string, a: CodeArtifact, gn: GraphNode, project: Option<string>) returns (s: string)
    ensures forall b :: s0 == Concat(b) ==> s == Concat(b + NodeLines(node, a, gn, project))
  {
    s := s0 + NameLine(node);
    if a.code != Rag {
      s := s + DescriptionLine(gn.description);
      s := s + PackageLine(PyStr(project));
      s := s + TypeLine(node);
      s := s + SubscribedLine(gn.subscribed);
      s := s + PublishedLine(gn.published);
    } else {
      s := s + RagDescriptionLine(gn.description, a.readme);
      s := s + PackageLine(a.readme);
      s := s + RagTypeLine(a.readme);
    }
    forall b | s0 == Concat(b)
      ensures s == Concat(b + NodeLines(node, a, gn, project))
    {
      if a.code != Rag {
        ConcatSix(b, NameLine(node), DescriptionLine(gn.description), PackageLine(PyStr(project)), TypeLine(node),
                  SubscribedLine(gn.subscribed), PublishedLine(gn.published));
      } else {
        ConcatFour(b, NameLine(node), RagDescriptionLine(gn.description, a.readme), PackageLine(a.readme), RagTypeLine(a.readme));
      }
    }
  }

  lemma ConcatFour(b: seq<string>, x1: string, x2: string, x3: string, x4: string)
    ensures Concat(b + [x1, x2, x3, x4]) == Concat(b) + x1 + x2 + x3 + x4
  {
    assert b + [x1, x2, x3, x4] == b + [x1] + [x2] + [x3] + [x4];
    ConcatSnoc(b, x1);
    ConcatSnoc(b + [x1], x2);
    ConcatSnoc(b + [x1] + [x2], x3);
    ConcatSnoc(b + [x1] + [x2] + [x3], x4);
  }

  lemma ConcatSix(b: seq<string>, x1: string, x2: string, x3: string, x4: string, x5: string, x6: string)
    ensures Concat(b + [x1, x2, x3, x4, x5, x6]) == Concat(b) + x1 + x2 + x3 + x4 + x5 + x6
  {
    assert b + [x1, x2, x3, x4, x5, x6] == b + [x1, x2, x3, x4] + [x5] + [x6];
    ConcatFour(b, x1, x2, x3, x4);
    ConcatSnoc(b + [x1, x2, x3, x4], x5);
    ConcatSnoc(b + [x1, x2, x3, x4] + [x5], x6);
  }

  /** The text a node contributes to the node list. */
  ghost function NodeBlock(nodes: Dict<CodeArtifact>, g: PyValue, project: Option<string>, node: string): string
    requires node in nodes.entries && GraphLookup(g, node).Normal?
  {
    Concat(NodeLines(node, nodes.entries[node], GraphLookup(g, node).value, project))
  }

  /** The `i`-th group of the node list is the lines of the `i`-th node. */
  lemma {:induction false} NodeGroupsAt(nodes: Dict<CodeArtifact>, keys: seq<string>, g: PyValue, project: Option<string>, i: nat)
    requires forall k :: k in keys ==> k in nodes.entries
    requires Resolves(g, keys) && i < |keys|
    ensures NodeGroups(nodes, keys, g, project)[i] == NodeLines(keys[i], nodes.entries[keys[i]], GraphLookup(g, keys[i]).value, project)
    decreases |keys|
  {
    var front, last := keys[..|keys| - 1], keys[|keys| - 1];
    var fs := NodeGroups(nodes, front, g, project);
    var x := NodeLines(last, nodes.entries[last], GraphLookup(g, last).value, project);
    assert NodeGroups(nodes, keys, g, project) == fs + [x];
    if i < |front| {
      NodeGroupsAt(nodes, front, g, project, i);
      assert keys[i] == front[i];
      assert (fs + [x])[i] == fs[i];
    } else {
      assert i == |keys| - 1;
      assert keys[i] == last && (fs + [x])[i] == x;
    }
  }

  /** The node list shows the lines of every node contiguously, the nodes in
      key order: its name line, then, for a node with code, its description,
      the project as package, `n.py` as type and its topics, and for a node
      reused from a ROS package that package in the description, package and
      type lines. */
  lemma NodeListShowsNodes(nodes: Dict<CodeArtifact>, g: PyValue, project: Option<string>, i: nat, j: nat)
    requires NodeListText(nodes, g, project).Normal? && i <= j < |nodes.keys|
    ensures nodes.keys[i] in nodes.entries && GraphLookup(g, nodes.keys[i]).Normal?
    ensures nodes.keys[j] in nodes.entries && GraphLookup(g, nodes.keys[j]).Normal?
    ensures exists p: nat, q: nat ::
      && OccursAt(NodeListText(nodes, g, project).value, NodeBlock(nodes, g, project, nodes.keys[i]), p)
      && OccursAt(NodeListText(nodes, g, project).value, NodeBlock(nodes, g, project, nodes.keys[j]), q)
      && (i < j ==> p + |NodeBlock(nodes, g, project, nodes.keys[i])| <= q)
  {
    KeysAreEntries(nodes);
    var keys := nodes.keys;
    assert keys[i] in keys && keys[j] in keys;
    var gs := NodeGroups(nodes, keys, g, project);
    NodeGroupsAt(nodes, keys, g, project, i);
    NodeGroupsAt(nodes, keys, g, project, j);
    ConcatConcat(gs);
    var js := Joined(gs);
    ConcatOccurs(js, i);
    ConcatOccurs(js, j);
    if i < j {
      ConcatBefore(js, i, j);
    }
    var p, q := |Concat(js[..i])|, |Concat(js[..j])|;
    assert OccursAt(Concat(js), NodeBlock(nodes, g, project, keys[i]), p);
    assert OccursAt(Concat(js), NodeBlock(nodes, g, project, keys[j]), q);
  }

  /** A failing lookup fails the whole list, with the exception the graph
      value raises; with no nodes nothing is looked up. */
  lemma NodeListFails(nodes: Dict<CodeArtifact>, g: PyValue, project: Option<string>)
    ensures nodes.keys == [] ==> NodeListText(nodes, g, project) == Normal("")
    ensures nodes.keys != [] && (g.Str? || g.OtherLiteral?) ==> NodeListText(nodes, g, project) == Thrown("TypeError")
    ensures (exists k :: k in nodes.keys && g.GraphDict? && k !in g.graph.entries) ==> NodeListText(nodes, g, project) == Thrown("KeyError")
    ensures (exists k :: k in nodes.keys && g.OtherDict? && (k !in g.dict.entries || !Complete(g.dict.entries[k]))) ==>
      NodeListText(nodes, g, project) == Thrown("KeyError")
  {
    if nodes.keys != [] {
      assert nodes.keys[0] in nodes.keys;
    }
  }

  // ---------------------------------------------------------------------
  // get_node_readme_info

  function NotesLine(readme: string): string { "- Implementation Notes: " + readme + "\n" }

  /** The lines a node with code contributes to the README notes. */
  function ReadmeLines(node: string, a: CodeArtifact, gn: GraphNode): seq<string> {
    [node + ".py:\n", "- Description: " + gn.description + "\n",
     "- Subscribed Topics: " + ListRepr(gn.subscribed) + "\n", "- Published Topics: " + ListRepr(gn.published) + "\n",
     NotesLine(a.readme), "\n"]
  }

  /** The line groups of the nodes `keys` that have code, in order. */
  function ReadmeGroups(nodes: Dict<CodeArtifact>, keys: seq<string>, g: PyValue): (r: seq<seq<string>>)
    requires forall k :: k in keys ==> k in nodes.entries
    requires Resolves(g, NonRag(nodes, keys))
    ensures |r| == |NonRag(nodes, keys)|
  {
    if keys == [] then []
    else
      var k := keys[|keys| - 1];
      var front := keys[..|keys| - 1];
      assert forall x :: x in NonRag(nodes, front) ==> x in NonRag(nodes, keys);
      ReadmeGroups(nodes, front, g)
        + if nodes.entries[k].code != Rag then
            assert k in NonRag(nodes, keys);
            [ReadmeLines(k, nodes.entries[k], GraphLookup(g, k).value)]
          else []
  }

  /** What `get_node_readme_info` returns: the lines of the nodes with code,
      in order, or the exception of the first lookup that fails. */
  function ReadmeInfoText(nodes: Dict<CodeArtifact>, g: PyValue): Outcome<string> {
    KeysAreEntries(nodes);
    if Resolves(g, NonRag(nodes, nodes.keys)) then Normal(Concat(Concat(ReadmeGroups(nodes, nodes.keys, g))))
    else Thrown(LookupError(g))
  }

  lemma ReadmeGroupsStep(nodes: Dict<CodeArtifact>, keys: seq<string>, i: nat, g: PyValue)
    requires i < |keys| && forall k :: k in keys ==> k in nodes.entries
    requires Resolves(g, NonRag(nodes, keys[..i]))
    requires nodes.entries[keys[i]].code != Rag ==> GraphLookup(g, keys[i]).Normal?
    ensures Resolves(g, NonRag(nodes, keys[..i + 1]))
    ensures nodes.entries[keys[i]].code == Rag ==>
      ReadmeGroups(nodes, keys[..i + 1], g) == ReadmeGroups(nodes, keys[..i], g)
    ensures nodes.entries[keys[i]].code != Rag ==>
      Concat(ReadmeGroups(nodes, keys[..i + 1], g))
        == Concat(ReadmeGroups(nodes, keys[..i], g)) + ReadmeLines(keys[i], nodes.entries[keys[i]], GraphLookup(g, keys[i]).value)
  {
    assert keys[..i + 1] == keys[..i] + [keys[i]];
    assert keys[..i + 1][..i] == keys[..i];
    if nodes.entries[keys[i]].code != Rag {
      ConcatSnoc(ReadmeGroups(nodes, keys[..i], g), ReadmeLines(keys[i], nodes.entries[keys[i]], GraphLookup(g, keys[i]).value));
    }
  }

  /** `get_node_readme_info`. */
  method GetNodeReadmeInfo(nodes: Dict<CodeArtifact>, g: PyValue) returns (r: Outcome<string>)
    ensures r == ReadmeInfoText(nodes, g)
  {
    KeysAreEntries(nodes);
    var s := "";
    ghost var lines: seq<string> := [];
    var i := 0;
    while i < |nodes.keys|
      invariant 0 <= i <= |nodes.keys|
      invariant Resolves(g, NonRag(nodes, nodes.keys[..i]))
      invariant lines == Concat(ReadmeGroups(nodes, nodes.keys[..i], g))
      invariant s == Concat(lines)
    {
      var node := nodes.keys[i];
      var a := nodes.entries[node];
      var look := GraphLookup(g, node);
      if a.code != Rag && look.Thrown? {
        ReadmeFails(nodes, g, i);
        return Thrown(look.exception);
      }
      ReadmeGroupsStep(nodes, nodes.keys, i, g);
      if a.code != Rag {
        s := AppendReadmeLines(s, node, a, look.value);
        lines := lines + ReadmeLines(node, a, look.value);
      }
      i := i + 1;
    }
    assert nodes.keys[..i] == nodes.keys;
    r := Normal(s);
  }

  /** A node with code whose lookup fails fails the notes, with the
      exception the graph value raises. */
  lemma ReadmeFails(nodes: Dict<CodeArtifact>, g: PyValue, i: nat)
    requires i < |nodes.keys| && nodes.keys[i] in nodes.entries
    requires nodes.entries[nodes.keys[i]].code != Rag && GraphLookup(g, nodes.keys[i]).Thrown?
    ensures ReadmeInfoText(nodes, g) == Thrown(LookupError(g))
  {
    KeysAreEntries(nodes);
    assert nodes.keys[i] in NonRag(nodes, nodes.keys);
  }

  /** One pass of the loop of `get_node_readme_info` for a node with code. */
  method AppendReadmeLines(s0: string, node: string, a: CodeArtifact, gn: GraphNode) returns (s: string)
    ensures forall b :: s0 == Concat(b) ==> s == Concat(b + ReadmeLines(node, a, gn))
  {
    s := s0 + (node + ".py:\n");
    s := s + ("- Description: " + gn.description + "\n");
    s := s + ("- Subscribed Topics: " + ListRepr(gn.subscribed) + "\n");
    s := s + ("- Published Topics: " + ListRepr(gn.published) + "\n");
    s := s + NotesLine(a.readme);
    s := s + "\n";
    forall b | s0 == Concat(b)
      ensures s == Concat(b + ReadmeLines(node, a, gn))
    {
      ConcatSix(b, node + ".py:\n", "- Description: " + gn.description + "\n",
                "- Subscribed Topics: " + ListRepr(gn.subscribed) + "\n", "- Published Topics: " + ListRepr(gn.published) + "\n",
                NotesLine(a.readme), "\n");
    }
  }

  /** The README notes hold one group per node with code, in order, and none
      for a node reused from a ROS package. */
  lemma {:induction false} ReadmeGroupsAreNonRag(nodes: Dict<CodeArtifact>, keys: seq<string>, g: PyValue, j: nat)
    requires forall k :: k in keys ==> k in nodes.entries
    requires Resolves(g, NonRag(nodes, keys)) && j < |NonRag(nodes, keys)|
    ensures var k := NonRag(nodes, keys)[j];
      k in nodes.entries && GraphLookup(g, k).Normal? &&
      ReadmeGroups(nodes, keys, g)[j] == ReadmeLines(k, nodes.entries[k], GraphLookup(g, k).value)
    decreases |keys|
  {
    var front := keys[..|keys| - 1];
    var ks, fs := NonRag(nodes, keys), NonRag(nodes, front);
    assert ks[j] in ks;
    if j < |fs| {
      assert forall x :: x in fs ==> x in ks;
      ReadmeGroupsAreNonRag(nodes, front, g, j);
      assert ks[j] == fs[j];
    }
  }

  /** When every node is reused from a ROS package the notes are empty,
      whatever the graph is. */
  lemma ReadmeInfoAllRag(nodes: Dict<CodeArtifact>, g: PyValue)
    requires forall k :: k in nodes.keys ==> nodes.entries[k].code == Rag
    ensures ReadmeInfoText(nodes, g) == Normal("")
  {
    KeysAreEntries(nodes);
    assert ReadmeGroups(nodes, nodes.keys, g) == [];
  }

  /** Every block of the notes opens with `n.py:` and ends with the node's
      implementation notes and a blank line. */
  lemma ReadmeBlockEnds(node: string, a: CodeArtifact, gn: GraphNode)
    ensures OccursAt(Concat(ReadmeLines(node, a, gn)), node + ".py:\n", 0)
    ensures var t := Concat(ReadmeLines(node, a, gn));
      |NotesLine(a.readme) + "\n"| <= |t| && OccursAt(t, NotesLine(a.readme) + "\n", |t| - |NotesLine(a.readme) + "\n"|)
  {
    var ls := ReadmeLines(node, a, gn);
    SixEnds(ls[0], ls[1], ls[2], ls[3], ls[4], ls[5]);
  }

  /** Where the first line and the last two lines of six sit in their text. */
  lemma SixEnds(x1: string, x2: string, x3: string, x4: string, x5: string, x6: string)
    ensures OccursAt(Concat([x1, x2, x3, x4, x5, x6]), x1, 0)
    ensures var t := Concat([x1, x2, x3, x4, x5, x6]); |x5 + x6| <= |t| && OccursAt(t, x5 + x6, |t| - |x5 + x6|)
  {
    ConcatSix([], x1, x2, x3, x4, x5, x6);
    assert [] + [x1, x2, x3, x4, x5, x6] == [x1, x2, x3, x4, x5, x6];
    var t := Concat([x1, x2, x3, x4, x5, x6]);
    assert t == x1 + x2 + x3 + x4 + x5 + x6;
    assert t[..|x1|] == x1;
    assert t == (x1 + x2 + x3 + x4) + (x5 + x6);
    assert t[|x1 + x2 + x3 + x4|..] == x5 + x6;
  }

  // ---------------------------------------------------------------------
  // get_package_info

  const NodesHeading := "ROS Nodes:\n"
  const OtherFiles := "Other Files:\n- 'CMakeLists.txt'\n- 'package.xml'\n- 'README.md'"

  function PyFileLine(node: string): string { "- '" + node + ".py'\n" }

  function LaunchLines(project: Option<string>): string {
    "ROS Launch File:\n- '" + PyStr(project) + ".launch'\n"
  }

  /** The file lines of the nodes `keys` that have code, in order. */
  function PackageLines(nodes: Dict<CodeArtifact>, keys: seq<string>): seq<string>
    requires forall k :: k in keys ==> k in nodes.entries
  {
    if keys == [] then []
    else
      var k := keys[|keys| - 1];
      PackageLines(nodes, keys[..|keys| - 1]) + if nodes.entries[k].code != Rag then [PyFileLine(k)] else []
  }

  /** What `get_package_info` returns. */
  function PackageInfoText(nodes: Dict<CodeArtifact>, project: Option<string>): string {
    KeysAreEntries(nodes);
    NodesHeading + Concat(PackageLines(nodes, nodes.keys)) + LaunchLines(project) + OtherFiles
  }

  /** `get_package_info`. */
  method GetPackageInfo(nodes: Dict<CodeArtifact>, project: Option<string>) returns (s: string)
    ensures s == PackageInfoText(nodes, project)
  {
    KeysAreEntries(nodes);
    s := NodesHeading;
    var i := 0;
    while i < |nodes.keys|
      invariant 0 <= i <= |nodes.keys|
      invariant s == NodesHeading + Concat(PackageLines(nodes, nodes.keys[..i]))
    {
      var node := nodes.keys[i];
      PackageLinesStep(nodes, nodes.keys, i);
      if nodes.entries[node].code != Rag {
        AppendAssoc(NodesHeading, Concat(PackageLines(nodes, nodes.keys[..i])), PyFileLine(node));
        s := s + PyFileLine(node);
      }
      i := i + 1;
    }
    assert nodes.keys[..i] == nodes.keys;
    s := s + LaunchLines(project);
    s := s + OtherFiles;
  }

  lemma PackageLinesStep(nodes: Dict<CodeArtifact>, keys: seq<string>, i: nat)
    requires i < |keys| && forall k :: k in keys ==> k in nodes.entries
    ensures nodes.entries[keys[i]].code == Rag ==> PackageLines(nodes, keys[..i + 1]) == PackageLines(nodes, keys[..i])
    ensures nodes.entries[keys[i]].code != Rag ==>
      Concat(PackageLines(nodes, keys[..i + 1])) == Concat(PackageLines(nodes, keys[..i])) + PyFileLine(keys[i])
  {
    assert keys[..i + 1][..i] == keys[..i];
    if nodes.entries[keys[i]].code != Rag {
      ConcatSnoc(PackageLines(nodes, keys[..i]), PyFileLine(keys[i]));
    }
  }

  /** The file lines are exactly those of the nodes with code, in order. */
  lemma {:induction false} PackageLinesAreNonRag(nodes: Dict<CodeArtifact>, keys: seq<string>)
    requires forall k :: k in keys ==> k in nodes.entries
    ensures |PackageLines(nodes, keys)| == |NonRag(nodes, keys)|
    ensures forall j :: 0 <= j < |NonRag(nodes, keys)| ==> PackageLines(nodes, keys)[j] == PyFileLine(NonRag(nodes, keys)[j])
    decreases |keys|
  {
    if keys != [] {
      var front, last := keys[..|keys| - 1], keys[|keys| - 1];
      PackageLinesAreNonRag(nodes, front);
      var ps, fp := PackageLines(nodes, keys), PackageLines(nodes, front);
      var ks, fk := NonRag(nodes, keys), NonRag(nodes, front);
      var more := if nodes.entries[last].code != Rag then [last] else [];
      assert ks == fk + more;
      assert ps == fp + if nodes.entries[last].code != Rag then [PyFileLine(last)] else [];
      forall j | 0 <= j < |ks|
        ensures ps[j] == PyFileLine(ks[j])
      {
        if j < |fk| {
          assert ps[j] == fp[j] && ks[j] == fk[j];
        } else {
          assert ks[j] == last;
        }
      }
    }
  }

  /** The package info opens with the node heading and closes with the
      launch file and the fixed files. */
  lemma PackageInfoFrame(nodes: Dict<CodeArtifact>, project: Option<string>)
    ensures OccursAt(PackageInfoText(nodes, project), NodesHeading, 0)
    ensures var t := PackageInfoText(nodes, project);
      |LaunchLines(project) + OtherFiles| <= |t| && OccursAt(t, LaunchLines(project) + OtherFiles, |t| - |LaunchLines(project) + OtherFiles|)
  {
    KeysAreEntries(nodes);
    var mid := Concat(PackageLines(nodes, nodes.keys));
    Placed(NodesHeading, mid, LaunchLines(project), OtherFiles);
  }

  /** Every node with code has its `n.py` line in the package info. */
  lemma PackageInfoListsNode(nodes: Dict<CodeArtifact>, project: Option<string>, k: string)
    requires k in nodes.keys && nodes.entries[k].code != Rag
    ensures Contains(PackageInfoText(nodes, project), PyFileLine(k))
  {
    KeysAreEntries(nodes);
    var ls := PackageLines(nodes, nodes.keys);
    var mid := Concat(ls);
    var t := PackageInfoText(nodes, project);
    PackageLinesAreNonRag(nodes, nodes.keys);
    var ks := NonRag(nodes, nodes.keys);
    var j :| 0 <= j < |ks| && ks[j] == k;
    ConcatOccurs(ls, j);
    InnerContains(NodesHeading, mid, LaunchLines(project), OtherFiles, PyFileLine(k), |Concat(ls[..j])|);
  }

  /** What occurs in the second part of `a + b + c + d` occurs in the whole. */
  lemma InnerContains(a: string, b: string, c: string, d: string, x: string, p: nat)
    requires OccursAt(b, x, p)
    ensures Contains(a + b + c + d, x)
  {
    Placed(a, b, c, d);
    OccursAtTrans(a + b + c + d, b, x, |a|, p);
  }

  /** With every node reused from a ROS package no node file is listed. */
  lemma PackageInfoAllRag(nodes: Dict<CodeArtifact>, project: Option<string>)
    requires forall k :: k in nodes.keys ==> nodes.entries[k].code == Rag
    ensures PackageInfoText(nodes, project) == NodesHeading + LaunchLines(project) + OtherFiles
  {
    KeysAreEntries(nodes);
    PackageLinesAreNonRag(nodes, nodes.keys);
    assert PackageLines(nodes, nodes.keys) == [];
  }
}
