/** The code-generation stage: one conversation per node of the predicted
    graph, in key order, in which the agent writes the node's code or
    downloads an existing repository for it. */
module Gen {
  import opened Wrappers
  import opened Text
  import opened OrderedDict
  import opened GraphModel
  import opened Tools
  import opened Conversation
  import Spec

  const GenKeyword := "END_OF_GEN"
  const DefaultWs := "catkin_ws"

  /** Node name -> `{'code', 'readme'}`. */
  type Nodes = Dict<CodeArtifact>

  /** A tool call the executor makes: `write_ros_node` with the code
      chain's output, `download_code` with whether `git clone` succeeded,
      or the repository search (no state). */
  datatype GenCall = WriteNode(llmOutput: string) | Download(checkoutUri: string, cloneOk: bool) | Search

  /** One turn as the oracle plays it. */
  datatype GenTurn = GenTurn(humanInput: string, calls: seq<GenCall>, response: string)

  function GenResponse(t: GenTurn): string {
    t.response
  }

  /** `write_ros_node` for the current node: nothing to do for a
      downloaded node, otherwise the parsed code replaces the entry only
      when parsing succeeds. */
  function WriteStep(nodes: Nodes, current: string, llmOutput: string): (r: (Nodes, string))
    ensures current in nodes.entries && nodes.entries[current].code == Rag ==> r == (nodes, NoCodeNeededMsg)
    ensures r.0 != nodes ==> r.0 == Set(nodes, current, ParseCodeGen(llmOutput).0) && r.1 == CodeSuccessMsg
    ensures !(current in nodes.entries && nodes.entries[current].code == Rag) && ParseCodeGen(llmOutput).1 ==>
      r == (Set(nodes, current, ParseCodeGen(llmOutput).0), CodeSuccessMsg)
    ensures !(current in nodes.entries && nodes.entries[current].code == Rag) && !ParseCodeGen(llmOutput).1 ==>
      r == (nodes, CodeFailureMsg)
  {
    if current in nodes.entries && nodes.entries[current].code == Rag then (nodes, NoCodeNeededMsg)
    else
      var (parsed, ok) := ParseCodeGen(llmOutput);
      if ok then (Set(nodes, current, parsed), CodeSuccessMsg) else (nodes, CodeFailureMsg)
  }

  /** `download_code` for the current node: a URI without the pattern and a
      failed clone change nothing; a clone marks the node as downloaded. */
  function DownloadStep(nodes: Nodes, current: string, uri: string, cloneOk: bool): (r: (Nodes, string))
    ensures GitRepoName(uri).None? ==> r == (nodes, IncorrectUriMsg)
    ensures GitRepoName(uri).Some? && !cloneOk ==> r == (nodes, DownloadFailureMsg(GitRepoName(uri).value))
    ensures GitRepoName(uri).Some? && cloneOk ==>
      r == (Set(nodes, current, CodeArtifact(Rag, GitRepoName(uri).value)), DownloadSuccessMsg(GitRepoName(uri).value))
  {
    match GitRepoName(uri)
    case None => (nodes, IncorrectUriMsg)
    case Some(repo) =>
      if cloneOk then (Set(nodes, current, CodeArtifact(Rag, repo)), DownloadSuccessMsg(repo))
      else (nodes, DownloadFailureMsg(repo))
  }

  function CallStep(nodes: Nodes, current: string, c: GenCall): Nodes {
    match c
    case WriteNode(out) => WriteStep(nodes, current, out).0
    case Download(uri, ok) => DownloadStep(nodes, current, uri, ok).0
    case Search => nodes
  }

  function CallsStep(nodes: Nodes, current: string, calls: seq<GenCall>): Nodes
    decreases |calls|
  {
    if calls == [] then nodes else CallsStep(CallStep(nodes, current, calls[0]), current, calls[1..])
  }

  /** What a turn about `current` does to the nodes; no tool raises. */
  function GenStep(current: string): (Nodes, GenTurn) -> (Nodes, bool) {
    (n: Nodes, t: GenTurn) => (CallsStep(n, current, t.calls), true)
  }

  /** A tool call changes at most the current node's entry and never
      removes a node. */
  lemma CallStepFrame(nodes: Nodes, current: string, c: GenCall, k: string)
    requires k != current && k in nodes.entries
    ensures k in CallStep(nodes, current, c).entries
    ensures CallStep(nodes, current, c).entries[k] == nodes.entries[k]
  {
  }

  lemma {:induction false} CallsStepFrame(nodes: Nodes, current: string, calls: seq<GenCall>, k: string)
    requires k in nodes.entries
    ensures k in CallsStep(nodes, current, calls).entries
    ensures k != current ==> CallsStep(nodes, current, calls).entries[k] == nodes.entries[k]
    decreases |calls|
  {
    if calls != [] {
      var n1 := CallStep(nodes, current, calls[0]);
      assert k in n1.entries && (k != current ==> n1.entries[k] == nodes.entries[k]) by {
        match calls[0]
        case WriteNode(out) =>
        case Download(uri, ok) =>
        case Search =>
      }
      CallsStepFrame(n1, current, calls[1..], k);
    }
  }

  /** The conversation about `current`: the loop of `Converse` with
      `GenStep`, written out for this stage. */
  function Talk(nodes: Nodes, current: string, turns: seq<GenTurn>, kw: string): (r: Run<Nodes>)
    ensures r.taken <= |turns|
    decreases |turns|
  {
    if turns == [] then Run(0, Exhausted, nodes)
    else
      var n1 := CallsStep(nodes, current, turns[0].calls);
      if Contains(turns[0].response, kw) then Run(1, Sentinel, n1)
      else
        var r := Talk(n1, current, turns[1..], kw);
        Run(r.taken + 1, r.end, r.state)
  }

  /** `Talk` is the generic sentinel loop run with the tools of this
      stage. */
  lemma {:induction false} TalkIsConverse(nodes: Nodes, current: string, turns: seq<GenTurn>, kw: string)
    ensures Talk(nodes, current, turns, kw) == Converse(nodes, turns, GenStep(current), GenResponse, kw)
    decreases |turns|
  {
    if turns != [] {
      TalkIsConverse(CallsStep(nodes, current, turns[0].calls), current, turns[1..], kw);
    }
  }

  /** A whole conversation about `current` leaves every other node as it
      was. */
  lemma {:induction false} ConverseFrame(nodes: Nodes, current: string, turns: seq<GenTurn>, k: string)
    requires k in nodes.entries
    ensures k in Converse(nodes, turns, GenStep(current), GenResponse, GenKeyword).state.entries
    ensures k != current ==>
      Converse(nodes, turns, GenStep(current), GenResponse, GenKeyword).state.entries[k] == nodes.entries[k]
    decreases |turns|
  {
    if turns != [] {
      var n1 := CallsStep(nodes, current, turns[0].calls);
      CallsStepFrame(nodes, current, turns[0].calls, k);
      if !Contains(turns[0].response, GenKeyword) {
        ConverseFrame(n1, current, turns[1..], k);
      }
    }
  }

  // ---------------------------------------------------------------------
  // save_code and the per-node loop

  /** The file `save_code` writes for a node. */
  function CodePath(wsName: string, projectName: Option<string>, node: string): string {
    wsName + "/src/" + PyStr(projectName) + "/src/" + node + ".py"
  }

  /** The nodes, and the files written so far (path, content) in order. */
  datatype GenState = GenState(nodes: Nodes, written: seq<(string, string)>)

  /** `save_code`: `KeyError` when the node was never generated, nothing
      for a downloaded node, otherwise its code under `src/`. */
  function SaveCodeStep(s: GenState, wsName: string, projectName: Option<string>, node: string): Outcome<GenState> {
    if node !in s.nodes.entries then Thrown("KeyError")
    else if s.nodes.entries[node].code == Rag then Normal(s)
    else Normal(GenState(s.nodes, s.written + [(CodePath(wsName, projectName, node), s.nodes.entries[node].code)]))
  }

  /** One node: its conversation, then `save_code` when it ended on the
      keyword. `end == Sentinel` means the node finished. */
  function VisitOne(s: GenState, node: string, turns: seq<GenTurn>, wsName: string, projectName: Option<string>): (r: Run<GenState>)
    ensures r.taken <= |turns|
  {
    var run := Converse(s.nodes, turns, GenStep(node), GenResponse, GenKeyword);
    var s1 := GenState(run.state, s.written);
    if run.end != Sentinel then Run(run.taken, run.end, s1)
    else
      match SaveCodeStep(s1, wsName, projectName, node)
      case Thrown(_) => Run(run.taken, Raised, s1)
      case Normal(s2) => Run(run.taken, Sentinel, s2)
  }

  /** The loop over the graph's keys, over one stream of input lines.
      `end == Sentinel` means every node finished. */
  function Visit(s: GenState, keys: seq<string>, turns: seq<GenTurn>, wsName: string, projectName: Option<string>): Run<GenState>
    decreases |keys|
  {
    if keys == [] then Run(0, Sentinel, s)
    else
      var one := VisitOne(s, keys[0], turns, wsName, projectName);
      if one.end != Sentinel then one
      else
        var rest := Visit(one.state, keys[1..], turns[one.taken..], wsName, projectName);
        Run(one.taken + rest.taken, rest.end, rest.state)
  }

  /** Reference definition of the files the stage writes: one per node
      whose final code is not a download marker, in key order. */
  function CodeFiles(nodes: Nodes, keys: seq<string>, wsName: string, projectName: Option<string>): seq<(string, string)>
    requires forall k :: k in keys ==> k in nodes.entries
    decreases |keys|
  {
    if keys == [] then []
    else
      var k := keys[0];
      (if nodes.entries[k].code == Rag then [] else [(CodePath(wsName, projectName, k), nodes.entries[k].code)])
        + CodeFiles(nodes, keys[1..], wsName, projectName)
  }

  /** One pass of the loop over the keys, from key `i` and turn `from`. */
  lemma VisitUnfold(s: GenState, keys: seq<string>, i: nat, turns: seq<GenTurn>, from: nat, wsName: string, projectName: Option<string>)
    requires i < |keys| && from <= |turns|
    ensures var one := VisitOne(s, keys[i], turns[from..], wsName, projectName);
      Visit(s, keys[i..], turns[from..], wsName, projectName) ==
        if one.end != Sentinel then one
        else
          var rest := Visit(one.state, keys[i + 1..], turns[from + one.taken..], wsName, projectName);
          Run(one.taken + rest.taken, rest.end, rest.state)
  {
    assert keys[i..][0] == keys[i] && keys[i..][1..] == keys[i + 1..];
    var one := VisitOne(s, keys[i], turns[from..], wsName, projectName);
    assert turns[from..][one.taken..] == turns[from + one.taken..];
  }

  /** The loop over the keys advances by one node. */
  lemma VisitAdvance(total: Run<GenState>, s: GenState, keys: seq<string>, i: nat, turns: seq<GenTurn>, taken: nat,
                     wsName: string, projectName: Option<string>, t: nat, e: End, s': GenState)
    requires i < |keys| && taken <= |turns|
    requires var rest := Visit(s, keys[i..], turns[taken..], wsName, projectName);
      total == Run(taken + rest.taken, rest.end, rest.state)
    requires var one := VisitOne(s, keys[i], turns[taken..], wsName, projectName);
      t == one.taken && e == one.end && s' == one.state
    ensures taken + t <= |turns|
    ensures e != Sentinel ==> total == Run(taken + t, e, s')
    ensures e == Sentinel ==>
      var rest := Visit(s', keys[i + 1..], turns[taken + t..], wsName, projectName);
      total == Run(taken + t + rest.taken, rest.end, rest.state)
  {
    VisitUnfold(s, keys, i, turns, taken, wsName, projectName);
    if e == Sentinel {
      var rest := Visit(s', keys[i + 1..], turns[taken + t..], wsName, projectName);
      assert Visit(s, keys[i..], turns[taken..], wsName, projectName) == Run(t + rest.taken, rest.end, rest.state);
    }
  }

  /** Finishing a node leaves it with an entry, after at least one turn,
      and adds its file unless it was downloaded; other nodes keep their
      entries. */
  lemma VisitOneEffect(s: GenState, node: string, turns: seq<GenTurn>, wsName: string, projectName: Option<string>)
    requires VisitOne(s, node, turns, wsName, projectName).end == Sentinel
    ensures var r := VisitOne(s, node, turns, wsName, projectName);
      r.taken >= 1 && node in r.state.nodes.entries
      && r.state.written == s.written
        + (if r.state.nodes.entries[node].code == Rag then [] else [(CodePath(wsName, projectName, node), r.state.nodes.entries[node].code)])
  {
    ConverseStops(s.nodes, turns, GenStep(node), GenResponse, GenKeyword);
  }

  lemma VisitOneFrame(s: GenState, node: string, turns: seq<GenTurn>, wsName: string, projectName: Option<string>, k: string)
    requires k in s.nodes.entries
    ensures k in VisitOne(s, node, turns, wsName, projectName).state.nodes.entries
    ensures k != node ==> VisitOne(s, node, turns, wsName, projectName).state.nodes.entries[k] == s.nodes.entries[k]
  {
    ConverseFrame(s.nodes, node, turns, k);
  }

  /** Visiting other nodes keeps a node's entry. */
  lemma {:induction false} VisitFrame(s: GenState, keys: seq<string>, turns: seq<GenTurn>, wsName: string, projectName: Option<string>, k: string)
    requires k in s.nodes.entries && k !in keys
    ensures k in Visit(s, keys, turns, wsName, projectName).state.nodes.entries
    ensures Visit(s, keys, turns, wsName, projectName).state.nodes.entries[k] == s.nodes.entries[k]
    decreases |keys|
  {
    if keys != [] {
      VisitOneFrame(s, keys[0], turns, wsName, projectName, k);
      var one := VisitOne(s, keys[0], turns, wsName, projectName);
      if one.end == Sentinel {
        assert k !in keys[1..];
        VisitFrame(one.state, keys[1..], turns[one.taken..], wsName, projectName, k);
      }
    }
  }

  /** When every node finishes, each node has an entry (no `KeyError`),
      each took at least one turn, and the files written are exactly the
      final code of the generated nodes, in key order. */
  lemma {:induction false} VisitComplete(s: GenState, keys: seq<string>, turns: seq<GenTurn>, wsName: string, projectName: Option<string>)
    requires DistinctKeys(keys)
    requires Visit(s, keys, turns, wsName, projectName).end == Sentinel
    ensures var r := Visit(s, keys, turns, wsName, projectName);
      r.taken >= |keys|
      && (forall k :: k in keys ==> k in r.state.nodes.entries)
      && r.state.written == s.written + CodeFiles(r.state.nodes, keys, wsName, projectName)
    decreases |keys|
  {
    if keys != [] {
      var k := keys[0];
      var one := VisitOne(s, k, turns, wsName, projectName);
      VisitOneEffect(s, k, turns, wsName, projectName);
      var rest := Visit(one.state, keys[1..], turns[one.taken..], wsName, projectName);
      assert Visit(s, keys, turns, wsName, projectName) == Run(one.taken + rest.taken, rest.end, rest.state);
      DistinctTail(keys);
      VisitComplete(one.state, keys[1..], turns[one.taken..], wsName, projectName);
      VisitFrame(one.state, keys[1..], turns[one.taken..], wsName, projectName, k);
      assert forall k' :: k' in keys ==> k' == k || k' in keys[1..];
      var fin := rest.state.nodes;
      var fileK := if fin.entries[k].code == Rag then [] else [(CodePath(wsName, projectName, k), fin.entries[k].code)];
      assert one.state.written == s.written + fileK;
      assert CodeFiles(fin, keys, wsName, projectName) == fileK + CodeFiles(fin, keys[1..], wsName, projectName);
      assert rest.state.written == one.state.written + CodeFiles(fin, keys[1..], wsName, projectName);
      AppendAssoc(s.written, fileK, CodeFiles(fin, keys[1..], wsName, projectName));
    }
  }

  /** The keys `spin` gets through and whether the next one raises: a
      dict's keys up to the first node lacking one of the three keys
      `reset_agent` reads, which raises `KeyError` there; a value that is
      not a dict has no `keys()` and raises before the first node. */
  function SpinKeys(g: PyValue): (seq<string>, bool) {
    match g
    case GraphDict(d) => (d.keys, false)
    case OtherDict(d) => var i := FirstIncomplete(d, 0); (d.keys[..i], i < |d.keys|)
    case _ => ([], true)
  }

  /** `spin` gets through a leading run of the graph's keys, each of whose
      nodes has the three keys, and raises exactly when a node lacking one
      follows it; a well-formed dict is walked whole. */
  lemma SpinKeysPrefix(g: PyValue)
    ensures var (keys, raises) := SpinKeys(g);
      && (g.GraphDict? ==> keys == g.graph.keys && !raises)
      && (g.OtherDict? ==>
            && keys <= g.dict.keys
            && (forall k :: k in keys ==> k in g.dict.entries && Complete(g.dict.entries[k]))
            && (raises <==> |keys| < |g.dict.keys|)
            && (raises ==> g.dict.keys[|keys|] in g.dict.entries && !Complete(g.dict.entries[g.dict.keys[|keys|]])))
      && (!g.GraphDict? && !g.OtherDict? ==> keys == [] && raises)
  {
    if g.OtherDict? {
      var d := g.dict;
      var i := FirstIncomplete(d, 0);
      forall k | k in d.keys[..i] ensures k in d.entries && Complete(d.entries[k]) {
        var j :| 0 <= j < i && d.keys[..i][j] == k;
        assert d.keys[j] == k;
      }
    }
  }

  // ---------------------------------------------------------------------
  // the agent

  /** The pickled snapshot `gen_agent.pkl`. */
  datatype GenRecord = GenRecord(projectName: Option<string>, wsName: string, nodes: Nodes, config: AgentConfig)

  class GenAgent {
    const config: AgentConfig
    const rosGraphDict: PyValue
    const rosNodeDesc: string
    const endConvKeyword: string := GenKeyword
    var wsName: string
    var projectName: Option<string>
    var nodes: Nodes
    var currentNode: Option<string>
    /** The files `save_code` has written, as (path, content), in order. */
    var written: seq<(string, string)>

    /** A new agent has no project name, no nodes and no current node. */
    constructor (config: AgentConfig, rosGraphDict: PyValue, rosNodeDesc: string, wsName: string)
      ensures this.config == config && this.rosGraphDict == rosGraphDict && this.rosNodeDesc == rosNodeDesc
      ensures this.wsName == wsName && projectName == None
      ensures nodes == Empty() && currentNode == None && written == []
    {
      this.config := config;
      this.rosGraphDict := rosGraphDict;
      this.rosNodeDesc := rosNodeDesc;
      this.wsName := wsName;
      projectName := None;
      nodes := Empty();
      currentNode := None;
      written := [];
    }

    function State(): GenState
      reads this`nodes, this`written
    {
      GenState(nodes, written)
    }

    /** `update_node`: only the current node's entry changes. */
    method UpdateNode(genNode: CodeArtifact)
      requires currentNode.Some?
      modifies this`nodes
      ensures nodes == Set(old(nodes), currentNode.value, genNode)
      ensures forall k :: k != currentNode.value && k in old(nodes).entries ==> k in nodes.entries && nodes.entries[k] == old(nodes).entries[k]
    {
      nodes := Set(nodes, currentNode.value, genNode);
    }

    /** The `write_ros_node` tool. */
    method WriteRosNode(llmOutput: string) returns (msg: string)
      requires currentNode.Some?
      modifies this`nodes
      ensures (nodes, msg) == WriteStep(old(nodes), currentNode.value, llmOutput)
    {
      var current := currentNode.value;
      if current in nodes.entries && nodes.entries[current].code == Rag {
        return NoCodeNeededMsg;
      }
      var parsed, ok := ParseCodeGen(llmOutput).0, ParseCodeGen(llmOutput).1;
      if ok {
        UpdateNode(parsed);
        msg := CodeSuccessMsg;
      } else {
        msg := CodeFailureMsg;
      }
    }

    /** The `download_code` tool; `cloneOk` is whether `git clone`
        succeeded. */
    method DownloadCode(checkoutUri: string, cloneOk: bool) returns (msg: string)
      requires currentNode.Some?
      modifies this`nodes
      ensures (nodes, msg) == DownloadStep(old(nodes), currentNode.value, checkoutUri, cloneOk)
    {
      var name := GitRepoName(checkoutUri);
      if name.None? {
        return IncorrectUriMsg;
      }
      var repo := name.value;
      if cloneOk {
        UpdateNode(CodeArtifact(Rag, repo));
        msg := DownloadSuccessMsg(repo);
      } else {
        msg := DownloadFailureMsg(repo);
      }
    }

    /** `__call__`: the executor's tool calls of one turn. */
    method Call(turn: GenTurn) returns (response: string)
      requires currentNode.Some?
      modifies this`nodes
      ensures nodes == CallsStep(old(nodes), currentNode.value, turn.calls)
      ensures response == turn.response
    {
      var calls, current := turn.calls, currentNode.value;
      var i := 0;
      while i < |calls|
        invariant 0 <= i <= |calls|
        invariant currentNode == old(currentNode) && written == old(written) && projectName == old(projectName) && wsName == old(wsName)
        invariant CallsStep(nodes, current, calls[i..]) == CallsStep(old(nodes), current, calls)
      {
        assert calls[i..][1..] == calls[i + 1..];
        match calls[i] {
          case WriteNode(out) =>
            var _ := WriteRosNode(out);
          case Download(uri, ok) =>
            var _ := DownloadCode(uri, ok);
          case Search =>
        }
        i := i + 1;
      }
      response := turn.response;
    }

    /** The sentinel loop for the current node, from turn `from` on. */
    method TalkAboutNode(turns: seq<GenTurn>, from: nat, kw: string) returns (taken: nat, end: End)
      requires currentNode.Some? && from <= |turns| && kw != ""
      modifies this`nodes
      ensures var run := Talk(old(nodes), currentNode.value, turns[from..], kw);
        taken == run.taken && end == run.end && nodes == run.state
      ensures from + taken <= |turns|
    {
      var current := currentNode.value;
      ghost var total := Talk(nodes, current, turns[from..], kw);
      var response := "";
      taken := 0;
      while !Contains(response, kw)
        invariant from + taken <= |turns|
        invariant currentNode == old(currentNode) && written == old(written) && projectName == old(projectName) && wsName == old(wsName)
        invariant !Contains(response, kw) ==>
          var rest := Talk(nodes, current, turns[from + taken..], kw);
          total == Run(taken + rest.taken, rest.end, rest.state)
        invariant Contains(response, kw) ==> total == Run(taken, Sentinel, nodes)
        decreases |turns| - taken
      {
        if from + taken == |turns| {
          return taken, Exhausted;
        }
        assert turns[from + taken..][1..] == turns[from + taken + 1..];
        response := Call(turns[from + taken]);
        taken := taken + 1;
      }
      end := Sentinel;
    }

    /** `save_code` for the current node. */
    method SaveCode() returns (r: Outcome<()>)
      requires currentNode.Some?
      modifies this`written
      ensures var step := SaveCodeStep(old(State()), wsName, projectName, currentNode.value);
        (step.Thrown? ==> r == Thrown("KeyError") && State() == old(State()))
        && (step.Normal? ==> r == Normal(()) && State() == step.value)
    {
      var current := currentNode.value;
      if current !in nodes.entries {
        return Thrown("KeyError");
      }
      var code := nodes.entries[current].code;
      if code != Rag {
        written := written + [(CodePath(wsName, projectName, current), code)];
      }
      r := Normal(());
    }

    /** One pass of the loop over the graph's keys: `node` becomes the
        current node, the conversation about it runs, then its
        `save_code`. */
    method VisitNode(node: string, turns: seq<GenTurn>, from: nat) returns (taken: nat, end: End)
      requires from <= |turns|
      modifies this`nodes, this`currentNode, this`written
      ensures currentNode == Some(node)
      ensures var one := VisitOne(old(State()), node, turns[from..], wsName, projectName);
        taken == one.taken && end == one.end && State() == one.state
    {
      currentNode := Some(node);
      TalkIsConverse(nodes, node, turns[from..], endConvKeyword);
      taken, end := TalkAboutNode(turns, from, endConvKeyword);
      if end == Sentinel {
        var saved := SaveCode();
        if saved.Thrown? {
          end := Raised;
        }
      }
    }

    /** `save_agent`. */
    method SaveAgent() returns (record: GenRecord)
      ensures record == GenRecord(projectName, wsName, nodes, config)
    {
      record := GenRecord(projectName, wsName, nodes, config);
    }

    /** One pass of the loop over the graph's keys, stated against the
        rest of the loop. */
    method VisitNext(keys: seq<string>, i: nat, turns: seq<GenTurn>, taken: nat, ghost total: Run<GenState>) returns (t: nat, e: End)
      requires i < |keys| && taken <= |turns|
      requires var rest := Visit(State(), keys[i..], turns[taken..], wsName, projectName);
        total == Run(taken + rest.taken, rest.end, rest.state)
      modifies this`nodes, this`currentNode, this`written
      ensures taken + t <= |turns|
      ensures e != Sentinel ==> total == Run(taken + t, e, State())
      ensures e == Sentinel ==>
        var rest := Visit(State(), keys[i + 1..], turns[taken + t..], wsName, projectName);
        total == Run(taken + t + rest.taken, rest.end, rest.state)
    {
      ghost var before := State();
      t, e := VisitNode(keys[i], turns, taken);
      VisitAdvance(total, before, keys, i, turns, taken, wsName, projectName, t, e, State());
    }

    /** The loop over the graph's keys: each becomes the current node in
        turn, and the loop stops at the first node that does not finish. */
    method VisitAll(keys: seq<string>, turns: seq<GenTurn>) returns (taken: nat, end: End)
      modifies this`nodes, this`currentNode, this`written
      ensures var run := Visit(old(State()), keys, turns, wsName, projectName);
        taken == run.taken && end == run.end && State() == run.state
    {
      ghost var total := Visit(State(), keys, turns, wsName, projectName);
      taken := 0;
      var i := 0;
      while i < |keys|
        invariant 0 <= i <= |keys| && taken <= |turns|
        invariant var rest := Visit(State(), keys[i..], turns[taken..], wsName, projectName);
          total == Run(taken + rest.taken, rest.end, rest.state)
      {
        var t, e := VisitNext(keys, i, turns, taken, total);
        taken := taken + t;
        if e != Sentinel {
          end := e;
          return;
        }
        i := i + 1;
      }
      end := Sentinel;
    }

    /** `spin`: names the project, then for each key of the graph in order
        makes it the current node, talks until `END_OF_GEN` and saves its
        code; the snapshot is taken once, after the last node. The nodes
        before one lacking a key `reset_agent` reads are visited and saved
        before that node raises; a graph that is not a dict raises before
        the first node. */
    method Spin(projectNameOutput: string, turns: seq<GenTurn>) returns (taken: nat, end: End, record: Option<GenRecord>)
      modifies this
      ensures projectName == Some(projectNameOutput) && wsName == old(wsName)
      ensures var (keys, raises) := SpinKeys(rosGraphDict);
        var run := Visit(old(State()), keys, turns, wsName, projectName);
        taken == run.taken && State() == run.state
        && end == (if run.end == Sentinel && raises then Raised else run.end)
        && (end == Sentinel ==> record == Some(GenRecord(projectName, wsName, nodes, config)))
        && (end != Sentinel ==> record == None)
    {
      projectName := Some(projectNameOutput);
      record := None;
      var (keys, raises) := SpinKeys(rosGraphDict);
      taken, end := VisitAll(keys, turns);
      if end == Sentinel && raises {
        end := Raised;
        return;
      }
      if end == Sentinel {
        var saved := SaveAgent();
        record := Some(saved);
      }
    }
  }

  /** `load_gen_agent`: graph and description from the specification
      snapshot, project, workspace and nodes from the generation
      snapshot. */
  method LoadGenAgent(genRecord: GenRecord, specRecord: Spec.SpecRecord) returns (agent: GenAgent)
    ensures fresh(agent)
    ensures agent.config == genRecord.config
    ensures agent.rosGraphDict == specRecord.rosGraphDict && agent.rosNodeDesc == specRecord.rosNodeDesc
    ensures agent.projectName == genRecord.projectName && agent.wsName == genRecord.wsName && agent.nodes == genRecord.nodes
    ensures agent.currentNode == None && agent.written == []
  {
    var spec := Spec.LoadSpecAgent(specRecord);
    agent := new GenAgent(genRecord.config, spec.rosGraph, spec.rosNodeDesc, DefaultWs);
    agent.projectName := genRecord.projectName;
    agent.wsName := genRecord.wsName;
    agent.nodes := genRecord.nodes;
  }
}
