/** The node/topic graph the stages pass to each other. */
module GraphModel {
  import opened Wrappers
  import opened OrderedDict

  /** A topic reference inside a node: `(topic name, message type)`. */
  datatype Topic = Topic(name: string, msgType: string)

  /** Value of the node/topic dict built by the parser:
      `{'description', 'subscribed_topics', 'published_topics'}`. */
  datatype NodeInfo = NodeInfo(description: string, subscribed: seq<Topic>, published: seq<Topic>)

  /** Node name -> node, in insertion order. */
  type NodeTopicDict = Dict<NodeInfo>

  /** Value of the graph the specification stage predicts: the same three
      keys, but topics are bare names. */
  datatype GraphNode = GraphNode(description: string, subscribed: seq<string>, published: seq<string>)

  type RosGraph = Dict<GraphNode>

  /** A node of a predicted dict that may lack some of the three keys;
      `None` stands for a missing key. */
  datatype PyNode = PyNode(description: Option<string>, subscribed: Option<seq<string>>, published: Option<seq<string>>)

  /** The Python values the specification stage stores as its graph: a
      dict whose every node has the three keys (possibly empty), a dict
      some node of which lacks one of them (indexing that key raises
      `KeyError`), a string (the failure text that `save_agent` may store),
      or any other literal. */
  datatype PyValue = GraphDict(graph: RosGraph) | OtherDict(dict: Dict<PyNode>) | Str(text: string) | OtherLiteral

  /** The node has both topic keys. */
  predicate HasTopics(n: PyNode) {
    n.subscribed.Some? && n.published.Some?
  }

  /** The node has all three keys. */
  predicate Complete(n: PyNode) {
    n.description.Some? && HasTopics(n)
  }

  /** A complete node read as a graph node. */
  function AsGraphNode(n: PyNode): GraphNode
    requires Complete(n)
  {
    GraphNode(n.description.value, n.subscribed.value, n.published.value)
  }

  /** The position of the first node from `i` on that lacks one of the
      three keys, or the number of keys when there is none. */
  function FirstIncomplete(d: Dict<PyNode>, i: nat): (r: nat)
    requires i <= |d.keys|
    ensures i <= r <= |d.keys|
    ensures forall j :: i <= j < r ==> d.keys[j] in d.entries && Complete(d.entries[d.keys[j]])
    ensures r < |d.keys| ==> d.keys[r] in d.entries && !Complete(d.entries[d.keys[r]])
    decreases |d.keys| - i
  {
    KeysAreEntries(d);
    if i == |d.keys| then i
    else
      assert d.keys[i] in d.keys;
      if !Complete(d.entries[d.keys[i]]) then i else FirstIncomplete(d, i + 1)
  }

  /** Every node of the dict has both topic keys. */
  predicate AllHaveTopics(d: Dict<PyNode>) {
    forall k :: k in d.entries ==> HasTopics(d.entries[k])
  }

  /** A dict whose nodes all have both topic keys, seen through its topics
      only; the description, which the drawing never reads, is left
      empty. */
  function TopicView(d: Dict<PyNode>): (g: RosGraph)
    requires AllHaveTopics(d)
    ensures g.keys == d.keys
    ensures forall k :: k in d.entries ==>
      (k in g.entries && g.entries[k].subscribed == d.entries[k].subscribed.value
       && g.entries[k].published == d.entries[k].published.value)
  {
    RawDict(d.keys, map k | k in d.entries :: GraphNode("", d.entries[k].subscribed.value, d.entries[k].published.value))
  }

  /** What `ast.literal_eval` does with a string: raise `SyntaxError`, raise
      `ValueError` (a well-formed expression that is not a literal), or
      return a value. */
  datatype Eval = EvalSyntaxError | EvalValueError | Evaluated(value: PyValue)
}
