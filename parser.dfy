/** The graph builders, the renderer and the edit language of the parser. */
module Parser {
  import opened Wrappers
  import opened Text
  import opened OrderedDict
  import opened GraphModel

  // ---------------------------------------------------------------------
  // make_node_list

  function NodeListLine(node: string, description: string): string {
    "- " + node + ": " + description + "\n"
  }

  function NodeListLines(nodeList: Dict<string>): seq<string> {
    seq(|nodeList.keys|, i requires 0 <= i < |nodeList.keys| =>
      NodeListLine(nodeList.keys[i], nodeList.entries[nodeList.keys[i]]))
  }

  /** One "- name: description" line per node, in key order. */
  method MakeNodeList(nodeList: Dict<string>) returns (s: string)
    ensures s == Concat(NodeListLines(nodeList))
  {
    ghost var lines := NodeListLines(nodeList);
    s := "";
    var i := 0;
    while i < |nodeList.keys|
      invariant 0 <= i <= |nodeList.keys|
      invariant s == Concat(lines[..i])
    {
      var node := nodeList.keys[i];
      s := s + "- " + node + ": " + nodeList.entries[node] + "\n";
      ConcatStep(lines, i);
      i := i + 1;
    }
    assert lines[..i] == lines;
  }

  // ---------------------------------------------------------------------
  // make_node_topic_dict

  /** One element of the topic list the LLM produces: name, message type,
      publishing nodes, subscribing nodes. */
  datatype TopicDecl = TopicDecl(name: string, msgType: string, publishers: seq<string>, subscribers: seq<string>)

  datatype Role = Publisher | Subscriber

  function Members(t: TopicDecl, role: Role): seq<string> {
    if role == Publisher then t.publishers else t.subscribers
  }

  /** The `(name, type)` pairs of the topics that list `node` in the given
      role, in topic-list order. */
  function TopicsOf(topicList: seq<TopicDecl>, node: string, role: Role): seq<Topic> {
    if topicList == [] then []
    else
      var t := topicList[|topicList| - 1];
      TopicsOf(topicList[..|topicList| - 1], node, role)
        + (if node in Members(t, role) then [Topic(t.name, t.msgType)] else [])
  }

  /** Topic declaration `t` names `node` in `role` and is the pair `x`. */
  predicate Declares(t: TopicDecl, node: string, role: Role, x: Topic) {
    node in Members(t, role) && x == Topic(t.name, t.msgType)
  }

  /** A pair is among a node's topics exactly when some topic of the list
      names that node in that role and has that name and type. */
  lemma {:induction false} TopicsOfMembership(topicList: seq<TopicDecl>, node: string, role: Role, x: Topic)
    ensures x in TopicsOf(topicList, node, role) <==>
      exists i :: 0 <= i < |topicList| && Declares(topicList[i], node, role, x)
    decreases |topicList|
  {
    if topicList != [] {
      var init := topicList[..|topicList| - 1];
      TopicsOfMembership(init, node, role, x);
      if x in TopicsOf(topicList, node, role) && x !in TopicsOf(init, node, role) {
        var i := |topicList| - 1;
        assert Declares(topicList[i], node, role, x);
      }
      if exists i :: 0 <= i < |topicList| && Declares(topicList[i], node, role, x) {
        var i :| 0 <= i < |topicList| && Declares(topicList[i], node, role, x);
        if i < |init| {
          assert init[i] == topicList[i];
        }
      }
    }
  }

  /** Topics keep their relative order: the pairs are a subsequence of the
      topic list, so there are never more of them than topics. */
  lemma {:induction false} TopicsOfLength(topicList: seq<TopicDecl>, node: string, role: Role)
    ensures |TopicsOf(topicList, node, role)| <= |topicList|
    decreases |topicList|
  {
    if topicList != [] {
      TopicsOfLength(topicList[..|topicList| - 1], node, role);
    }
  }

  /** The inner loop of the builder: the topics `node` publishes and the
      topics it subscribes to, scanning the topic list once. */
  method CollectTopics(topicList: seq<TopicDecl>, node: string) returns (pub: seq<Topic>, sub: seq<Topic>)
    ensures pub == TopicsOf(topicList, node, Publisher)
    ensures sub == TopicsOf(topicList, node, Subscriber)
  {
    pub := [];
    sub := [];
    var j := 0;
    while j < |topicList|
      invariant 0 <= j <= |topicList|
      invariant pub == TopicsOf(topicList[..j], node, Publisher)
      invariant sub == TopicsOf(topicList[..j], node, Subscriber)
    {
      var topic := topicList[j];
      assert topicList[..j + 1][..j] == topicList[..j];
      if node in topic.publishers {
        pub := pub + [Topic(topic.name, topic.msgType)];
      }
      if node in topic.subscribers {
        sub := sub + [Topic(topic.name, topic.msgType)];
      }
      j := j + 1;
    }
    assert topicList[..j] == topicList;
  }

  /** The value the builder stores for `node`. */
  function NodeEntry(nodeList: Dict<string>, topicList: seq<TopicDecl>, node: string): NodeInfo
    requires node in nodeList.entries
  {
    NodeInfo(nodeList.entries[node], TopicsOf(topicList, node, Subscriber), TopicsOf(topicList, node, Publisher))
  }

  /** The node/topic dict: the keys of `nodeList` in order, each with its
      description, the topics it subscribes to and the topics it publishes. */
  method MakeNodeTopicDict(nodeList: Dict<string>, topicList: seq<TopicDecl>) returns (d: NodeTopicDict)
    ensures d.keys == nodeList.keys
    ensures forall n :: n in d.entries ==> n in nodeList.entries && d.entries[n] == NodeEntry(nodeList, topicList, n)
  {
    d := Empty();
    var i := 0;
    while i < |nodeList.keys|
      invariant 0 <= i <= |nodeList.keys|
      invariant d.keys == nodeList.keys[..i]
      invariant forall n :: n in d.entries ==> n in nodeList.entries && d.entries[n] == NodeEntry(nodeList, topicList, n)
    {
      var node := nodeList.keys[i];
      var topicPubList, topicSubList := CollectTopics(topicList, node);
      NotYetAdded(nodeList.keys, i);
      d := Set(d, node, NodeInfo(nodeList.entries[node], topicSubList, topicPubList));
      assert nodeList.keys[..i + 1] == nodeList.keys[..i] + [node];
      i := i + 1;
    }
    assert nodeList.keys[..i] == nodeList.keys;
  }

  lemma NotYetAdded(keys: seq<string>, i: nat)
    requires DistinctKeys(keys) && i < |keys|
    ensures keys[i] !in keys[..i]
  {
  }

  // ---------------------------------------------------------------------
  // make_node_topic_list_str

  const NoSubscribedTopics := "No Subscribed Topics"
  const NoPublishedTopics := "No Published Topics"

  function TopicEntry(t: Topic): string {
    t.name + " (message type: " + t.msgType + "), "
  }

  function TopicEntries(ts: seq<Topic>): seq<string> {
    seq(|ts|, i requires 0 <= i < |ts| => TopicEntry(ts[i]))
  }

  /** The rendering of one topic list: the marker when it is empty. */
  function TopicsText(ts: seq<Topic>, marker: string): string {
    if |ts| == 0 then marker else Concat(TopicEntries(ts))
  }

  /** The four lines shown for one node. */
  function BlockLines(node: string, description: string, subText: string, pubText: string): seq<string> {
    ["- " + node + ":\n",
     "\t\tDescription: " + description + "\n",
     "\t\tSubscribed Topics: " + subText + "\n",
     "\t\tPublished Topics: " + pubText + "\n"]
  }

  function NodeBlock(node: string, info: NodeInfo): string {
    Concat(BlockLines(node, info.description,
      TopicsText(info.subscribed, NoSubscribedTopics), TopicsText(info.published, NoPublishedTopics)))
  }

  function NodeBlocks(d: NodeTopicDict): seq<string> {
    seq(|d.keys|, i requires 0 <= i < |d.keys| => NodeBlock(d.keys[i], d.entries[d.keys[i]]))
  }

  /** Renders one topic list with a loop, as the source does. */
  method RenderTopics(ts: seq<Topic>, marker: string) returns (s: string)
    ensures s == TopicsText(ts, marker)
  {
    if |ts| == 0 {
      s := marker;
    } else {
      ghost var entries := TopicEntries(ts);
      s := "";
      var j := 0;
      while j < |ts|
        invariant 0 <= j <= |ts|
        invariant s == Concat(entries[..j])
      {
        s := s + ts[j].name + " (message type: " + ts[j].msgType + "), ";
        ConcatStep(entries, j);
        j := j + 1;
      }
      assert entries[..j] == entries;
    }
  }

  /** The whole listing: one block per node, in key order. */
  method MakeNodeTopicListStr(d: NodeTopicDict) returns (s: string)
    ensures s == Concat(NodeBlocks(d))
  {
    ghost var blocks := NodeBlocks(d);
    s := "";
    var i := 0;
    while i < |d.keys|
      invariant 0 <= i <= |d.keys|
      invariant s == Concat(blocks[..i])
    {
      var node := d.keys[i];
      var topicSubStr := RenderTopics(d.entries[node].subscribed, NoSubscribedTopics);
      var topicPubStr := RenderTopics(d.entries[node].published, NoPublishedTopics);
      s := s + Concat(BlockLines(node, d.entries[node].description, topicSubStr, topicPubStr));
      ConcatStep(blocks, i);
      i := i + 1;
    }
    assert blocks[..i] == blocks;
  }

  /** A node with no topics is shown with both literal markers. */
  lemma NoTopicsShowsMarkers(node: string, description: string)
    ensures Contains(NodeBlock(node, NodeInfo(description, [], [])), NoSubscribedTopics)
    ensures Contains(NodeBlock(node, NodeInfo(description, [], [])), NoPublishedTopics)
  {
    var lines := BlockLines(node, description, NoSubscribedTopics, NoPublishedTopics);
    var b := NodeBlock(node, NodeInfo(description, [], []));
    ConcatOccurs(lines, 2);
    OccursInMiddle("\t\tSubscribed Topics: ", NoSubscribedTopics, "\n");
    OccursAtTrans(b, lines[2], NoSubscribedTopics, |Concat(lines[..2])|, |"\t\tSubscribed Topics: "|);
    ConcatOccurs(lines, 3);
    OccursInMiddle("\t\tPublished Topics: ", NoPublishedTopics, "\n");
    OccursAtTrans(b, lines[3], NoPublishedTopics, |Concat(lines[..3])|, |"\t\tPublished Topics: "|);
  }

  /** Every topic of a non-empty list is rendered, in list order: entry `i`
      starts right after the entries before it. */
  lemma TopicsTextInOrder(ts: seq<Topic>, marker: string, i: nat)
    requires i < |ts|
    ensures OccursAt(TopicsText(ts, marker), TopicEntry(ts[i]), |Concat(TopicEntries(ts)[..i])|)
  {
    ConcatOccurs(TopicEntries(ts), i);
  }

  /** Every node's block is in the listing, after the blocks of the nodes
      inserted before it. */
  lemma ListingShowsNode(d: NodeTopicDict, i: nat)
    requires i < |d.keys|
    ensures OccursAt(Concat(NodeBlocks(d)), NodeBlock(d.keys[i], d.entries[d.keys[i]]), |Concat(NodeBlocks(d)[..i])|)
  {
    ConcatOccurs(NodeBlocks(d), i);
  }

  /** Text found in a node's block is found in the listing, shifted by the
      blocks before it. */
  lemma BlockTextInListing(d: NodeTopicDict, i: nat, text: string, p: nat)
    requires i < |d.keys| && OccursAt(NodeBlock(d.keys[i], d.entries[d.keys[i]]), text, p)
    ensures OccursAt(Concat(NodeBlocks(d)), text, |Concat(NodeBlocks(d)[..i])| + p)
  {
    ListingShowsNode(d, i);
    OccursAtTrans(Concat(NodeBlocks(d)), NodeBlock(d.keys[i], d.entries[d.keys[i]]), text, |Concat(NodeBlocks(d)[..i])|, p);
  }

  /** A topic line placed in a text shows each topic of its list. */
  lemma LineShowsTopic(text: string, q: nat, heading: string, ts: seq<Topic>, marker: string, k: nat)
    requires k < |ts| && OccursAt(text, heading + TopicsText(ts, marker) + "\n", q)
    ensures Contains(text, TopicEntry(ts[k]))
  {
    var topics := TopicsText(ts, marker);
    OccursInMiddle(heading, topics, "\n");
    OccursAtTrans(text, heading + topics + "\n", topics, q, |heading|);
    TopicsTextInOrder(ts, marker, k);
    OccursAtTrans(text, topics, TopicEntry(ts[k]), q + |heading|, |Concat(TopicEntries(ts)[..k])|);
  }

  /** The listing shows the description of every node. */
  lemma ListingShowsDescription(d: NodeTopicDict, i: nat)
    requires i < |d.keys|
    ensures Contains(Concat(NodeBlocks(d)), "\t\tDescription: " + d.entries[d.keys[i]].description + "\n")
  {
    var info := d.entries[d.keys[i]];
    var lines := BlockLines(d.keys[i], info.description,
      TopicsText(info.subscribed, NoSubscribedTopics), TopicsText(info.published, NoPublishedTopics));
    ConcatOccurs(lines, 1);
    BlockTextInListing(d, i, lines[1], |Concat(lines[..1])|);
  }

  /** The listing shows every topic every node subscribes to, on that node's
      subscribed line. */
  lemma ListingShowsSubscribed(d: NodeTopicDict, i: nat, k: nat)
    requires i < |d.keys| && k < |d.entries[d.keys[i]].subscribed|
    ensures Contains(Concat(NodeBlocks(d)), TopicEntry(d.entries[d.keys[i]].subscribed[k]))
  {
    var info := d.entries[d.keys[i]];
    var lines := BlockLines(d.keys[i], info.description,
      TopicsText(info.subscribed, NoSubscribedTopics), TopicsText(info.published, NoPublishedTopics));
    ConcatOccurs(lines, 2);
    BlockTextInListing(d, i, lines[2], |Concat(lines[..2])|);
    LineShowsTopic(Concat(NodeBlocks(d)), |Concat(NodeBlocks(d)[..i])| + |Concat(lines[..2])|,
      "\t\tSubscribed Topics: ", info.subscribed, NoSubscribedTopics, k);
  }

  /** The listing shows every topic every node publishes, on that node's
      published line. */
  lemma ListingShowsPublished(d: NodeTopicDict, i: nat, k: nat)
    requires i < |d.keys| && k < |d.entries[d.keys[i]].published|
    ensures Contains(Concat(NodeBlocks(d)), TopicEntry(d.entries[d.keys[i]].published[k]))
  {
    var info := d.entries[d.keys[i]];
    var lines := BlockLines(d.keys[i], info.description,
      TopicsText(info.subscribed, NoSubscribedTopics), TopicsText(info.published, NoPublishedTopics));
    ConcatOccurs(lines, 3);
    BlockTextInListing(d, i, lines[3], |Concat(lines[..3])|);
    LineShowsTopic(Concat(NodeBlocks(d)), |Concat(NodeBlocks(d)[..i])| + |Concat(lines[..3])|,
      "\t\tPublished Topics: ", info.published, NoPublishedTopics, k);
  }

  // ---------------------------------------------------------------------
  // modify_node_dict

  /** What `ast.literal_eval` followed by `MOD_INPUT_SCHEMA.validate` makes
      of the user's text. */
  datatype ModLiteral =
    | LiteralSyntaxError                 // literal_eval raised SyntaxError
    | LiteralValueError                  // literal_eval raised ValueError, which is not caught
    | SchemaMismatch(error: string)      // validate raised SchemaError; `error` is its text
    | ModTuple(name: string, description: string, subscribed: seq<Topic>, published: seq<Topic>)

  /** `(node_topic_dict, success, warning_msg)`, or an escaping exception. */
  datatype ModOutcome = Raised | Returned(dict: NodeTopicDict, success: bool, warning: string)

  const InvalidLiteralMsg := "Invalid input. Please make sure that your input only contains the list of modifications."
  const SchemaErrorPrefix := "Invalid input. Please make sure that you follow the input format. Here is the generated error:\n\n"

  function EmptyDescriptionMsg(node: string): string {
    "Adding ROS node " + node + " failed due to empty node description."
  }

  function NoTopicsMsg(node: string): string {
    "ROS node " + node + " neither publishes nor subscribes to any topic!"
  }

  /** Applies one edit tuple: an empty description deletes the node (and
      fails if it is absent), any other description replaces the node
      totally. */
  function ModifyNodeDict(input: ModLiteral, d: NodeTopicDict): (r: ModOutcome)
    ensures r.Raised? <==> input.LiteralValueError?
    ensures input.LiteralSyntaxError? ==> r == Returned(d, false, InvalidLiteralMsg)
    ensures input.SchemaMismatch? ==> r == Returned(d, false, SchemaErrorPrefix + input.error)
    ensures r.Returned? && !r.success ==> r.dict == d && r.warning != ""
    ensures input.ModTuple? && input.description == "" && input.name in d.entries ==>
      r.Returned? && r.success && r.warning == ""
      && r.dict.entries == d.entries - {input.name}
      && r.dict.keys == d.keys[..IndexOf(d.keys, input.name)] + d.keys[IndexOf(d.keys, input.name) + 1..]
    ensures input.ModTuple? && input.description == "" && input.name !in d.entries ==>
      r == Returned(d, false, EmptyDescriptionMsg(input.name))
    ensures input.ModTuple? && input.description != "" ==>
      r.Returned? && r.success
      && input.name in r.dict.entries
      && r.dict.entries[input.name] == NodeInfo(input.description, input.subscribed, input.published)
      && (forall k :: k != input.name ==> (k in r.dict.entries <==> k in d.entries))
      && (forall k :: k != input.name && k in d.entries ==> r.dict.entries[k] == d.entries[k])
      && (input.name in d.entries ==> r.dict.keys == d.keys)
      && (input.name !in d.entries ==> r.dict.keys == d.keys + [input.name])
      && r.warning == (if input.subscribed == [] && input.published == [] then NoTopicsMsg(input.name) else "")
  {
    match input
    case LiteralSyntaxError => Returned(d, false, InvalidLiteralMsg)
    case LiteralValueError => Raised
    case SchemaMismatch(error) => Returned(d, false, SchemaErrorPrefix + error)
    case ModTuple(name, description, subscribed, published) =>
      if description == "" then
        if name in d.entries then Returned(Pop(d, name), true, "")
        else Returned(d, false, EmptyDescriptionMsg(name))
      else
        var warning := if |subscribed| == 0 && |published| == 0 then NoTopicsMsg(name) else "";
        Returned(Set(d, name, NodeInfo(description, subscribed, published)), true, warning)
  }

  /** Re-applying the same upsert gives the same dict, flag and message. */
  lemma UpsertIdempotent(input: ModLiteral, d: NodeTopicDict)
    requires input.ModTuple? && input.description != ""
    ensures ModifyNodeDict(input, d).Returned?
    ensures ModifyNodeDict(input, ModifyNodeDict(input, d).dict) == ModifyNodeDict(input, d)
  {
    var once := ModifyNodeDict(input, d).dict;
    var twice := ModifyNodeDict(input, once).dict;
    assert twice.keys == once.keys;
    assert twice.entries == once.entries;
  }

  /** Deleting the same node a second time fails and changes nothing. */
  lemma DeleteTwiceFails(input: ModLiteral, d: NodeTopicDict)
    requires input.ModTuple? && input.description == "" && input.name in d.entries
    ensures var once := ModifyNodeDict(input, d).dict;
      ModifyNodeDict(input, once) == Returned(once, false, EmptyDescriptionMsg(input.name))
  {
  }

  /** The delete leaves the other nodes, and their references to the deleted
      node's topics, exactly as they were. */
  lemma DeleteKeepsOthers(input: ModLiteral, d: NodeTopicDict, k: string)
    requires input.ModTuple? && input.description == "" && k in d.entries && k != input.name
    ensures var r := ModifyNodeDict(input, d);
      r.Returned? && k in r.dict.entries && r.dict.entries[k] == d.entries[k]
  {
  }

  // ---------------------------------------------------------------------
  // get_code_from_chat

  /** Groups 1 and 2 of one match of the code-block regex: the file name
      token before the fence and the code inside it. */
  datatype CodeMatch = CodeMatch(fileName: string, code: string)

  const Fence := "```"
  const ForbiddenPathChars: set<char> := {'<', '>', '"', '|', '?', '*'}

  /** No character of `path` is one the sanitiser deletes. */
  predicate CleanPath(path: string) {
    forall i :: 0 <= i < |path| ==> path[i] !in ForbiddenPathChars
  }

  lemma CleanSlice(path: string, lo: nat, hi: nat)
    requires lo <= hi <= |path|
    ensures CleanPath(path) ==> CleanPath(path[lo..hi])
  {
    if CleanPath(path) {
      forall i | 0 <= i < hi - lo
        ensures path[lo..hi][i] !in ForbiddenPathChars
      {
        assert path[lo..hi][i] == path[lo + i];
      }
    }
  }

  /** Unwraps `open ... close` around the whole path, as `re.sub(r"^o(.*)c$", r"\1", p)`. */
  function Unwrap(p: string, open: char, close: char): (r: string)
    ensures CleanPath(p) ==> CleanPath(r)
    ensures |r| <= |p|
  {
    if |p| >= 2 && p[0] == open && p[|p| - 1] == close then
      CleanSlice(p, 1, |p| - 1); p[1..|p| - 1]
    else p
  }

  /** The four path clean-ups, in order: drop `<>"|?*`, unwrap `[...]`,
      unwrap a pair of backticks, drop one trailing `]`. The file name comes
      from a `\S+` group, so it holds no newline and `.` matches all of it. */
  function SanitizePath(raw: string): (path: string)
    ensures CleanPath(path)
    ensures |path| <= |raw|
  {
    StripContents(raw, ForbiddenPathChars);
    StripNoLonger(raw, ForbiddenPathChars);
    var p1 := Strip(raw, ForbiddenPathChars);
    assert CleanPath(p1);
    var p3 := Unwrap(Unwrap(p1, '[', ']'), '`', '`');
    if |p3| >= 1 && p3[|p3| - 1] == ']' then CleanSlice(p3, 0, |p3| - 1); p3[..|p3| - 1] else p3
  }

  lemma {:induction false} StripNoLonger(s: string, cs: set<char>)
    ensures |Strip(s, cs)| <= |s|
    decreases |s|
  {
    if s != [] {
      StripNoLonger(s[1..], cs);
    }
  }

  /** The README part of a chat: the text before the first fence, a newline,
      and the text after the last fence. */
  function ChatReadme(chat: string): string {
    First(Split(chat, Fence)) + "\n" + Last(Split(chat, Fence))
  }

  /** Every matched block, with its path cleaned, then the README entry. */
  method GetCodeFromChat(chat: string, matches: seq<CodeMatch>) returns (files: seq<(string, string)>)
    ensures |files| == |matches| + 1
    ensures forall i :: 0 <= i < |matches| ==> files[i] == (SanitizePath(matches[i].fileName), matches[i].code)
    ensures files[|matches|] == ("README.md", ChatReadme(chat))
  {
    files := [];
    var i := 0;
    while i < |matches|
      invariant 0 <= i <= |matches|
      invariant |files| == i
      invariant forall j :: 0 <= j < i ==> files[j] == (SanitizePath(matches[j].fileName), matches[j].code)
    {
      var path := SanitizePath(matches[i].fileName);
      files := files + [(path, matches[i].code)];
      i := i + 1;
    }
    var pieces := Split(chat, Fence);
    var readme := pieces[0] + "\n" + pieces[|pieces| - 1];
    files := files + [("README.md", readme)];
  }

  /** A chat without any fence is its own README part, twice. */
  lemma ReadmeWithoutFence(chat: string)
    requires !Contains(chat, Fence)
    ensures ChatReadme(chat) == chat + "\n" + chat
  {
    SplitWithout(chat, Fence);
  }

  /** The README part never invents text: its first piece is a prefix of the
      chat and its last piece a suffix. */
  lemma {:induction false} ReadmeFromChat(chat: string)
    ensures exists k :: 0 <= k <= |chat| && First(Split(chat, Fence)) == chat[..k]
    ensures exists k :: 0 <= k <= |chat| && Last(Split(chat, Fence)) == chat[k..]
  {
    SplitJoin(chat, Fence);
    var pieces := Split(chat, Fence);
    JoinFirstLast(pieces, Fence);
  }

  lemma {:induction false} JoinFirstLast(ss: seq<string>, sep: string)
    requires ss != []
    ensures exists k :: 0 <= k <= |JoinWith(ss, sep)| && ss[0] == JoinWith(ss, sep)[..k]
    ensures exists k :: 0 <= k <= |JoinWith(ss, sep)| && ss[|ss| - 1] == JoinWith(ss, sep)[k..]
    decreases |ss|
  {
    var j := JoinWith(ss, sep);
    if |ss| == 1 {
      assert ss[0] == j[..|j|];
      assert ss[0] == j[0..];
    } else {
      JoinFirstLast(ss[1..], sep);
      var rest := JoinWith(ss[1..], sep);
      assert j == ss[0] + sep + rest;
      assert ss[0] == j[..|ss[0]|];
      var k :| 0 <= k <= |rest| && ss[1..][|ss[1..]| - 1] == rest[k..];
      assert rest[k..] == j[|ss[0] + sep| + k..];
    }
  }
}
