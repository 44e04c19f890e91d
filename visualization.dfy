/** The vertices and edges the graph viewers hand to graphviz. */
module Visualization {
  import opened Text
  import opened OrderedDict
  import opened GraphModel

  datatype Shape = Ellipse | Box
  datatype Vertex = Vertex(name: string, shape: Shape)
  datatype Edge = Edge(source: string, target: string)

  // ---------------------------------------------------------------------
  // Reference definitions

  /** The edge for one mention of `topic` by `node`: into the node for a
      subscription, out of it for a publication. */
  function TopicEdge(node: string, topic: string, incoming: bool): Edge {
    if incoming then Edge(topic, node) else Edge(node, topic)
  }

  /** One edge per topic of `topics`, in order. */
  function TopicEdges(node: string, topics: seq<string>, incoming: bool): seq<Edge> {
    if topics == [] then []
    else TopicEdges(node, topics[..|topics| - 1], incoming) + [TopicEdge(node, topics[|topics| - 1], incoming)]
  }

  lemma {:induction false} TopicEdgesAt(node: string, topics: seq<string>, incoming: bool)
    ensures |TopicEdges(node, topics, incoming)| == |topics|
    ensures forall k :: 0 <= k < |topics| ==> TopicEdges(node, topics, incoming)[k] == TopicEdge(node, topics[k], incoming)
    decreases |topics|
  {
    if topics != [] {
      TopicEdgesAt(node, topics[..|topics| - 1], incoming);
    }
  }

  function EdgeBlocks(g: RosGraph): seq<seq<Edge>> {
    seq(|g.keys|, k requires 0 <= k < |g.keys| =>
      TopicEdges(g.keys[k], g.entries[g.keys[k]].subscribed, true) + TopicEdges(g.keys[k], g.entries[g.keys[k]].published, false))
  }

  /** Every edge of the graph, node by node: its subscriptions, then its publications. */
  function AllEdges(g: RosGraph): seq<Edge> {
    Concat(EdgeBlocks(g))
  }

  function TopicBlocks(g: RosGraph): seq<seq<string>> {
    seq(|g.keys|, k requires 0 <= k < |g.keys| =>
      g.entries[g.keys[k]].subscribed + g.entries[g.keys[k]].published)
  }

  /** Every topic mention, in the order the viewer meets them. */
  function TopicMentions(g: RosGraph): seq<string> {
    Concat(TopicBlocks(g))
  }

  /** The first occurrence of each element, in order of first occurrence. */
  function Dedup(xs: seq<string>): seq<string> {
    if xs == [] then []
    else
      var d := Dedup(xs[..|xs| - 1]);
      if xs[|xs| - 1] in d then d else d + [xs[|xs| - 1]]
  }

  function Ellipses(vs: seq<Vertex>): seq<string> {
    if vs == [] then []
    else Ellipses(vs[..|vs| - 1]) + (if vs[|vs| - 1].shape == Ellipse then [vs[|vs| - 1].name] else [])
  }

  function Boxes(vs: seq<Vertex>): seq<string> {
    if vs == [] then []
    else Boxes(vs[..|vs| - 1]) + (if vs[|vs| - 1].shape == Box then [vs[|vs| - 1].name] else [])
  }

  lemma AddVertex(vs: seq<Vertex>, v: Vertex)
    ensures Ellipses(vs + [v]) == Ellipses(vs) + (if v.shape == Ellipse then [v.name] else [])
    ensures Boxes(vs + [v]) == Boxes(vs) + (if v.shape == Box then [v.name] else [])
  {
    assert (vs + [v])[..|vs|] == vs;
  }

  lemma DedupSnoc(xs: seq<string>, x: string)
    ensures Dedup(xs + [x]) == if x in Dedup(xs) then Dedup(xs) else Dedup(xs) + [x]
  {
    assert (xs + [x])[..|xs|] == xs;
  }

  // ---------------------------------------------------------------------
  // The viewer

  /** Step for one topic mention: add a box at its first occurrence. */
  method AddTopic(vertices: seq<Vertex>, topicList: seq<string>, topic: string)
    returns (vertices': seq<Vertex>, topicList': seq<string>)
    ensures topic in topicList ==> vertices' == vertices && topicList' == topicList
    ensures topic !in topicList ==> vertices' == vertices + [Vertex(topic, Box)] && topicList' == topicList + [topic]
  {
    vertices', topicList' := vertices, topicList;
    if topic !in topicList {
      topicList' := topicList + [topic];
      vertices' := vertices + [Vertex(topic, Box)];
    }
  }

  /** The viewer has drawn the ellipses `nodes` and one box per distinct
      name of `mentions`, and `topicList` is its list of boxed names. */
  predicate Seen(vertices: seq<Vertex>, topicList: seq<string>, nodes: seq<string>, mentions: seq<string>) {
    Ellipses(vertices) == nodes && Boxes(vertices) == topicList && topicList == Dedup(mentions)
  }

  /** Meeting one more mention keeps the viewer's state in step. */
  lemma MentionStep(vertices: seq<Vertex>, topicList: seq<string>, nodes: seq<string>, mentions: seq<string>, topic: string)
    requires Seen(vertices, topicList, nodes, mentions)
    ensures topic in topicList ==> Seen(vertices, topicList, nodes, mentions + [topic])
    ensures topic !in topicList ==> Seen(vertices + [Vertex(topic, Box)], topicList + [topic], nodes, mentions + [topic])
  {
    DedupSnoc(mentions, topic);
    AddVertex(vertices, Vertex(topic, Box));
  }

  /** Drawing one more node keeps the viewer's state in step. */
  lemma NodeStep(vertices: seq<Vertex>, topicList: seq<string>, nodes: seq<string>, mentions: seq<string>, node: string)
    requires Seen(vertices, topicList, nodes, mentions)
    ensures Seen(vertices + [Vertex(node, Ellipse)], topicList, nodes + [node], mentions)
  {
    AddVertex(vertices, Vertex(node, Ellipse));
    assert Boxes(vertices) + [] == Boxes(vertices);
  }

  /** One more topic extends both the mentions and the edges by one. */
  lemma TopicsStep(node: string, topics: seq<string>, j: nat, incoming: bool, mentions: seq<string>, edges: seq<Edge>)
    requires j < |topics|
    ensures mentions + topics[..j + 1] == (mentions + topics[..j]) + [topics[j]]
    ensures edges + TopicEdges(node, topics[..j + 1], incoming)
      == (edges + TopicEdges(node, topics[..j], incoming)) + [TopicEdge(node, topics[j], incoming)]
  {
    assert topics[..j + 1] == topics[..j] + [topics[j]];
    assert topics[..j + 1][..j] == topics[..j];
  }

  /** An inner loop of the viewer: every topic of `topics` gets a box at
      its first mention and one edge, into `node` when `incoming`, out of it
      otherwise. */
  method VisitTopics(node: string, topics: seq<string>, incoming: bool,
                     vertices: seq<Vertex>, edges: seq<Edge>, topicList: seq<string>,
                     ghost nodes: seq<string>, ghost mentions: seq<string>)
    returns (vertices': seq<Vertex>, edges': seq<Edge>, topicList': seq<string>)
    requires Seen(vertices, topicList, nodes, mentions)
    ensures Seen(vertices', topicList', nodes, mentions + topics)
    ensures edges' == edges + TopicEdges(node, topics, incoming)
  {
    vertices', edges', topicList' := vertices, edges, topicList;
    var j := 0;
    assert mentions + topics[..0] == mentions;
    while j < |topics|
      invariant 0 <= j <= |topics|
      invariant Seen(vertices', topicList', nodes, mentions + topics[..j])
      invariant edges' == edges + TopicEdges(node, topics[..j], incoming)
    {
      var topic := topics[j];
      MentionStep(vertices', topicList', nodes, mentions + topics[..j], topic);
      TopicsStep(node, topics, j, incoming, mentions, edges);
      vertices', topicList' := AddTopic(vertices', topicList', topic);
      if incoming {
        edges' := edges' + [Edge(topic, node)];
      } else {
        edges' := edges' + [Edge(node, topic)];
      }
      j := j + 1;
    }
    assert topics[..j] == topics;
  }

  /** One pass of the outer loop: the node's ellipse, then its subscribed
      topics, then its published topics. */
  method VisitNode(node: string, info: GraphNode, vertices: seq<Vertex>, edges: seq<Edge>, topicList: seq<string>,
                   ghost nodes: seq<string>, ghost mentions: seq<string>)
    returns (vertices': seq<Vertex>, edges': seq<Edge>, topicList': seq<string>)
    requires Seen(vertices, topicList, nodes, mentions)
    ensures Seen(vertices', topicList', nodes + [node], mentions + (info.subscribed + info.published))
    ensures edges' == edges + (TopicEdges(node, info.subscribed, true) + TopicEdges(node, info.published, false))
  {
    NodeStep(vertices, topicList, nodes, mentions, node);
    vertices' := vertices + [Vertex(node, Ellipse)];
    vertices', edges', topicList' := VisitTopics(node, info.subscribed, true, vertices', edges, topicList, nodes + [node], mentions);
    vertices', edges', topicList' := VisitTopics(node, info.published, false, vertices', edges', topicList', nodes + [node], mentions + info.subscribed);
    AppendAssoc(mentions, info.subscribed, info.published);
    AppendAssoc(edges, TopicEdges(node, info.subscribed, true), TopicEdges(node, info.published, false));
  }

  /** The nested loops of the viewer: one ellipse per node, one box per
      distinct topic name at its first mention, one edge per mention. */
  method DeriveView(g: RosGraph) returns (vertices: seq<Vertex>, edges: seq<Edge>, topicList: seq<string>)
    ensures Ellipses(vertices) == g.keys
    ensures Boxes(vertices) == topicList
    ensures topicList == Dedup(TopicMentions(g))
    ensures edges == AllEdges(g)
  {
    ghost var eb := EdgeBlocks(g);
    ghost var tb := TopicBlocks(g);
    vertices, edges, topicList := [], [], [];
    var i := 0;
    while i < |g.keys|
      invariant 0 <= i <= |g.keys|
      invariant Seen(vertices, topicList, g.keys[..i], Concat(tb[..i]))
      invariant edges == Concat(eb[..i])
    {
      var node := g.keys[i];
      ghost var edges0 := edges;
      vertices, edges, topicList := VisitNode(node, g.entries[node], vertices, edges, topicList, g.keys[..i], Concat(tb[..i]));
      assert g.keys[..i + 1] == g.keys[..i] + [node];
      assert Concat(tb[..i + 1]) == Concat(tb[..i]) + (g.entries[node].subscribed + g.entries[node].published) by {
        ConcatStep(tb, i);
      }
      assert Concat(eb[..i + 1]) == edges by {
        ConcatStep(eb, i);
      }
      i := i + 1;
    }
    assert g.keys[..i] == g.keys;
    assert tb[..i] == tb;
    assert eb[..i] == eb;
  }

  // ---------------------------------------------------------------------
  // Properties of the view

  /** The box list never repeats a name. */
  lemma {:induction false} DedupDistinct(xs: seq<string>)
    ensures DistinctKeys(Dedup(xs))
    decreases |xs|
  {
    if xs != [] {
      DedupDistinct(xs[..|xs| - 1]);
    }
  }

  /** A name gets a box exactly when it is mentioned somewhere. */
  lemma {:induction false} DedupSameElements(xs: seq<string>, x: string)
    ensures x in Dedup(xs) <==> x in xs
    decreases |xs|
  {
    if xs != [] {
      var init := xs[..|xs| - 1];
      DedupSameElements(init, x);
      assert xs == init + [xs[|xs| - 1]];
    }
  }

  /** Boxes appear in the order of their first mention: a name that is
      mentioned before another, and not after it for the first time, comes
      first. */
  lemma {:induction false} DedupFirstOccurrence(xs: seq<string>, i: nat)
    requires i < |xs| && xs[i] !in xs[..i]
    ensures Dedup(xs[..i + 1]) == Dedup(xs[..i]) + [xs[i]]
  {
    assert xs[..i + 1][..i] == xs[..i];
    DedupSameElements(xs[..i], xs[i]);
  }

  lemma {:induction false} ConcatSameLengths<T, U>(ss: seq<seq<T>>, tt: seq<seq<U>>)
    requires |ss| == |tt| && forall k :: 0 <= k < |ss| ==> |ss[k]| == |tt[k]|
    ensures |Concat(ss)| == |Concat(tt)|
    decreases |ss|
  {
    if ss != [] {
      ConcatSameLengths(ss[..|ss| - 1], tt[..|tt| - 1]);
    }
  }

  /** One edge per mention: duplicate entries are not suppressed. */
  lemma EdgeCount(g: RosGraph)
    ensures |AllEdges(g)| == |TopicMentions(g)|
  {
    forall k | 0 <= k < |g.keys|
      ensures |EdgeBlocks(g)[k]| == |TopicBlocks(g)[k]|
    {
      TopicEdgesAt(g.keys[k], g.entries[g.keys[k]].subscribed, true);
      TopicEdgesAt(g.keys[k], g.entries[g.keys[k]].published, false);
    }
    ConcatSameLengths(EdgeBlocks(g), TopicBlocks(g));
  }

  lemma ConcatContains<T>(ss: seq<seq<T>>, i: nat, k: nat)
    requires i < |ss| && k < |ss[i]|
    ensures ss[i][k] in Concat(ss)
  {
    ConcatAt(ss, i);
    assert Concat(ss)[|Concat(ss[..i])| + k] == ss[i][k];
  }

  /** Each subscription is an edge from the topic into the node, each
      publication an edge from the node out to the topic. */
  lemma EdgeDirections(g: RosGraph, i: nat, k: nat)
    requires i < |g.keys|
    ensures k < |g.entries[g.keys[i]].subscribed| ==>
      Edge(g.entries[g.keys[i]].subscribed[k], g.keys[i]) in AllEdges(g)
    ensures k < |g.entries[g.keys[i]].published| ==>
      Edge(g.keys[i], g.entries[g.keys[i]].published[k]) in AllEdges(g)
  {
    var eb := EdgeBlocks(g);
    var info := g.entries[g.keys[i]];
    TopicEdgesAt(g.keys[i], info.subscribed, true);
    TopicEdgesAt(g.keys[i], info.published, false);
    if k < |info.subscribed| {
      assert eb[i][k] == Edge(info.subscribed[k], g.keys[i]);
      ConcatContains(eb, i, k);
    }
    if k < |info.published| {
      assert eb[i][|info.subscribed| + k] == Edge(g.keys[i], info.published[k]);
      ConcatContains(eb, i, |info.subscribed| + k);
    }
  }

  predicate EdgeOfNode(g: RosGraph, i: nat, e: Edge)
    requires i < |g.keys|
  {
    (e.target == g.keys[i] && e.source in g.entries[g.keys[i]].subscribed)
    || (e.source == g.keys[i] && e.target in g.entries[g.keys[i]].published)
  }

  /** Every edge joins a node to one of its topics, in the right direction. */
  lemma {:induction false} EdgesFromGraph(g: RosGraph, e: Edge)
    requires e in AllEdges(g)
    ensures exists i :: 0 <= i < |g.keys| && EdgeOfNode(g, i, e)
  {
    var eb := EdgeBlocks(g);
    var i := ConcatIndex(eb, e);
    var node := g.keys[i];
    var info := g.entries[node];
    var subs := TopicEdges(node, info.subscribed, true);
    var pubs := TopicEdges(node, info.published, false);
    assert eb[i] == subs + pubs;
    TopicEdgesAt(node, info.subscribed, true);
    TopicEdgesAt(node, info.published, false);
    var k :| 0 <= k < |subs + pubs| && (subs + pubs)[k] == e;
    if k < |subs| {
      assert e == subs[k] == Edge(info.subscribed[k], node);
    } else {
      assert e == pubs[k - |subs|] == Edge(node, info.published[k - |subs|]);
    }
    assert EdgeOfNode(g, i, e);
  }

  /** The block an element of a concatenation comes from. */
  lemma {:induction false} ConcatIndex<T>(ss: seq<seq<T>>, x: T) returns (i: nat)
    requires x in Concat(ss)
    ensures i < |ss| && x in ss[i]
    decreases |ss|
  {
    var init := ss[..|ss| - 1];
    if x in ss[|ss| - 1] {
      i := |ss| - 1;
    } else {
      i := ConcatIndex(init, x);
    }
  }

  // ---------------------------------------------------------------------
  // show_node_graph

  /** The parser's graph seen by name only: `topic[0]` of each pair. */
  function TopicNames(ts: seq<Topic>): seq<string> {
    seq(|ts|, k requires 0 <= k < |ts| => ts[k].name)
  }

  function NodeByName(info: NodeInfo): GraphNode {
    GraphNode(info.description, TopicNames(info.subscribed), TopicNames(info.published))
  }

  function NameView(d: NodeTopicDict): (g: RosGraph)
    ensures g.keys == d.keys
    ensures forall n :: n in d.entries ==> g.entries[n] == NodeByName(d.entries[n])
  {
    RawDict(d.keys, map n | n in d.entries :: NodeByName(d.entries[n]))
  }

  /** The viewer of the parser's graph, which compares topics by name. */
  method ShowNodeGraph(d: NodeTopicDict) returns (vertices: seq<Vertex>, edges: seq<Edge>)
    ensures Ellipses(vertices) == d.keys
    ensures Boxes(vertices) == Dedup(TopicMentions(NameView(d)))
    ensures edges == AllEdges(NameView(d))
  {
    var topicList;
    vertices, edges, topicList := DeriveView(NameView(d));
  }

  /** Two pairs with the same name and different message types give a
      single box. */
  lemma SameNameOneBox(d: NodeTopicDict, a: nat, b: nat, ta: nat, tb: nat)
    requires a < |d.keys| && b < |d.keys|
    requires ta < |d.entries[d.keys[a]].subscribed| && tb < |d.entries[d.keys[b]].published|
    requires d.entries[d.keys[a]].subscribed[ta].name == d.entries[d.keys[b]].published[tb].name
    ensures var boxes := Dedup(TopicMentions(NameView(d)));
      var n := d.entries[d.keys[a]].subscribed[ta].name;
      n in boxes && forall p, q :: 0 <= p < q < |boxes| ==> boxes[p] != n || boxes[q] != n
  {
    var g := NameView(d);
    var n := d.entries[d.keys[a]].subscribed[ta].name;
    var tb' := TopicBlocks(g);
    assert tb'[a][ta] == n;
    ConcatContains(tb', a, ta);
    DedupSameElements(TopicMentions(g), n);
    DedupDistinct(TopicMentions(g));
  }
}
