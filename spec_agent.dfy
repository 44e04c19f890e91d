/** The specification stage: a conversation in which a description chain
    keeps a free-text description of the wanted nodes up to date and the
    agent may ask to see the graph predicted from it. */
module Spec {
  import opened Wrappers
  import opened Text
  import opened OrderedDict
  import opened GraphModel
  import opened Conversation
  import opened Visualization

  // ---------------------------------------------------------------------
  // cleanup_string_before_eval

  /** Drops newlines, turns parentheses into braces and drops the
      apostrophes of "robot's" and "user's", in that order. */
  function Cleanup(s: string): string {
    ReplaceAll(ReplaceAll(ReplaceAll(ReplaceAll(ReplaceAll(s, "\n", ""), "(", "{"), ")", "}"), "robot's", "robot"), "user's", "user")
  }

  /** The cleaned text has no newline and no parenthesis, every opening
      parenthesis became an opening brace and every closing one a closing
      brace, and the text never grows. */
  lemma CleanupShape(s: string)
    ensures '\n' !in Cleanup(s) && '(' !in Cleanup(s) && ')' !in Cleanup(s)
    ensures multiset(Cleanup(s))['{'] == multiset(s)['{'] + multiset(s)['(']
    ensures multiset(Cleanup(s))['}'] == multiset(s)['}'] + multiset(s)[')']
    ensures |Cleanup(s)| <= |s|
  {
    var s1 := ReplaceAll(s, "\n", "");
    ReplaceAllRemoves(s, '\n', "");
    ReplaceAllNoLonger(s, "\n", "");
    ReplaceAllKeepsCount(s, "\n", "", '{');
    ReplaceAllKeepsCount(s, "\n", "", '(');
    ReplaceAllKeepsCount(s, "\n", "", '}');
    ReplaceAllKeepsCount(s, "\n", "", ')');

    var s2 := ReplaceAll(s1, "(", "{");
    ReplaceCharCount(s1, '(', '{');
    assert '(' !in s2 by { assert multiset(s2)['('] == 0; }
    ReplaceAllKeepsAbsent(s1, "(", "{", '\n');
    ReplaceAllNoLonger(s1, "(", "{");
    ReplaceAllKeepsCount(s1, "(", "{", '}');
    ReplaceAllKeepsCount(s1, "(", "{", ')');

    var s3 := ReplaceAll(s2, ")", "}");
    ReplaceCharCount(s2, ')', '}');
    assert ')' !in s3 by { assert multiset(s3)[')'] == 0; }
    ReplaceAllKeepsAbsent(s2, ")", "}", '\n');
    ReplaceAllKeepsAbsent(s2, ")", "}", '(');
    ReplaceAllNoLonger(s2, ")", "}");
    ReplaceAllKeepsCount(s2, ")", "}", '{');

    var s4 := ReplaceAll(s3, "robot's", "robot");
    ReplaceAllKeepsAbsent(s3, "robot's", "robot", '\n');
    ReplaceAllKeepsAbsent(s3, "robot's", "robot", '(');
    ReplaceAllKeepsAbsent(s3, "robot's", "robot", ')');
    ReplaceAllNoLonger(s3, "robot's", "robot");
    ReplaceAllKeepsCount(s3, "robot's", "robot", '{');
    ReplaceAllKeepsCount(s3, "robot's", "robot", '}');

    ReplaceAllKeepsAbsent(s4, "user's", "user", '\n');
    ReplaceAllKeepsAbsent(s4, "user's", "user", '(');
    ReplaceAllKeepsAbsent(s4, "user's", "user", ')');
    ReplaceAllNoLonger(s4, "user's", "user");
    ReplaceAllKeepsCount(s4, "user's", "user", '{');
    ReplaceAllKeepsCount(s4, "user's", "user", '}');
  }

  // ---------------------------------------------------------------------
  // the agent's state and the oracle

  const SpecKeyword := "END_OF_SPEC"
  const NoDescYet := "No ROS node description has been generated yet!"
  const GraphParseFailed := "ROS graph parsing was unsuccessful!"
  const EmptyGraphMsg := "The graph is empty since there hasn't been enough conversation with the human user."
  const GraphHeader := "Here is a description of the shown ROS Graph:\n"

  /** One turn as the oracle plays it: the human's line, the description
      chain's answer, the graph chain's answer for each `show_ROS_graph`
      call the executor makes, and the executor's final response. */
  datatype SpecTurn = SpecTurn(humanInput: string, desc: string, graphOutputs: seq<string>, response: string)

  function Response(t: SpecTurn): string {
    t.response
  }

  /** `ros_node_desc` and `ros_graph`. */
  datatype SpecState = SpecState(desc: string, graph: PyValue)

  /** The pickled snapshot `spec_agent.pkl`. */
  datatype SpecRecord = SpecRecord(rosGraphDict: PyValue, rosNodeDesc: string, config: AgentConfig)

  /** The drawing loop of `show_ROS_graph` reads only the two topic keys of
      each node, so it raises `KeyError` exactly on a dict one of whose
      nodes lacks one of them; a missing description is never read. */
  predicate DrawRaises(v: PyValue) {
    v.OtherDict? && !AllHaveTopics(v.dict)
  }

  /** The graph `show_ROS_graph` draws from a predicted value: a non-empty
      dict whose nodes all have both topic keys, seen through its topics;
      nothing for an empty dict or a value that is not a dict. */
  function Drawn(v: PyValue): Option<RosGraph> {
    match v
    case GraphDict(g) => if |g.keys| > 0 then Some(g) else None
    case OtherDict(d) => if |d.keys| > 0 && AllHaveTopics(d) then Some(TopicView(d)) else None
    case _ => None
  }

  /** The drawing reads the topic keys and nothing else: two dicts with the
      same keys whose nodes have the same topic keys raise alike and are
      drawn alike, whatever their descriptions. */
  lemma DrawReadsTopicsOnly(d: Dict<PyNode>, e: Dict<PyNode>)
    requires d.keys == e.keys
    requires forall k :: k in d.entries ==>
      (k in e.entries && d.entries[k].subscribed == e.entries[k].subscribed && d.entries[k].published == e.entries[k].published)
    ensures DrawRaises(OtherDict(d)) == DrawRaises(OtherDict(e))
    ensures Drawn(OtherDict(d)) == Drawn(OtherDict(e))
  {
    if AllHaveTopics(d) {
      assert TopicView(d) == TopicView(e);
    }
  }

  /** One `show_ROS_graph` call on the graph chain's output: the graph left
      stored and whether the call returned (a `ValueError` from
      `literal_eval` escapes, and so does the drawing loop's
      `KeyError`). */
  function GraphCall(graph: PyValue, llmOutput: string, eval: string -> Eval): (PyValue, bool) {
    match eval(Cleanup(llmOutput))
    case EvalSyntaxError => (graph, true)
    case EvalValueError => (graph, false)
    case Evaluated(v) => (v, !DrawRaises(v))
  }

  /** The `show_ROS_graph` calls of one turn, up to the first that raises. */
  function GraphCalls(graph: PyValue, outputs: seq<string>, eval: string -> Eval): (PyValue, bool)
    decreases |outputs|
  {
    if outputs == [] then (graph, true)
    else
      var (g, ok) := GraphCall(graph, outputs[0], eval);
      if !ok then (g, false) else GraphCalls(g, outputs[1..], eval)
  }

  /** What a turn does to the state: the description first, then the
      executor's tool calls. */
  function SpecStep(eval: string -> Eval): (SpecState, SpecTurn) -> (SpecState, bool) {
    (s: SpecState, t: SpecTurn) =>
      var (g, ok) := GraphCalls(s.graph, t.graphOutputs, eval);
      (SpecState(t.desc, g), ok)
  }

  /** Reference definition of the stored graph: the value of the last graph
      output `literal_eval` accepted, or the earlier graph if there is
      none. */
  function LastParsed(graph: PyValue, outputs: seq<string>, eval: string -> Eval): PyValue
    decreases |outputs|
  {
    if outputs == [] then graph
    else
      match eval(Cleanup(outputs[|outputs| - 1]))
      case Evaluated(v) => v
      case _ => LastParsed(graph, outputs[..|outputs| - 1], eval)
  }

  lemma {:induction false} LastParsedFront(graph: PyValue, outputs: seq<string>, eval: string -> Eval)
    requires outputs != []
    ensures LastParsed(graph, outputs, eval) == LastParsed(GraphCall(graph, outputs[0], eval).0, outputs[1..], eval)
    decreases |outputs|
  {
    var g1 := GraphCall(graph, outputs[0], eval).0;
    if |outputs| == 1 {
      assert outputs[1..] == [];
      assert outputs[..0] == [];
    } else {
      var init := outputs[..|outputs| - 1];
      assert outputs[1..][..|outputs[1..]| - 1] == init[1..];
      assert outputs[1..][|outputs[1..]| - 1] == outputs[|outputs| - 1];
      assert init[0] == outputs[0];
      match eval(Cleanup(outputs[|outputs| - 1]))
      case Evaluated(v) =>
      case _ =>
        LastParsedFront(graph, init, eval);
    }
  }

  /** When a turn's tool calls all return, the stored graph is the last
      value `literal_eval` produced in that turn, or the previous graph
      when every output failed to parse. */
  lemma {:induction false} GraphCallsStoreLast(graph: PyValue, outputs: seq<string>, eval: string -> Eval)
    requires GraphCalls(graph, outputs, eval).1
    ensures GraphCalls(graph, outputs, eval).0 == LastParsed(graph, outputs, eval)
    decreases |outputs|
  {
    if outputs != [] {
      var g1 := GraphCall(graph, outputs[0], eval).0;
      GraphCallsStoreLast(g1, outputs[1..], eval);
      LastParsedFront(graph, outputs, eval);
    }
  }

  /** A turn that completes leaves the description of that turn and the
      last accepted graph; when no output parsed, the graph is unchanged. */
  lemma TurnEffect(eval: string -> Eval, s: SpecState, t: SpecTurn)
    requires SpecStep(eval)(s, t).1
    ensures SpecStep(eval)(s, t).0 == SpecState(t.desc, LastParsed(s.graph, t.graphOutputs, eval))
  {
    GraphCallsStoreLast(s.graph, t.graphOutputs, eval);
  }

  /** The snapshot `save_agent` writes: a fresh prediction (the failure
      string when it does not parse) with the description and the
      configuration; a `ValueError` escapes. */
  function Snapshot(s: SpecState, config: AgentConfig, llmOutput: string, eval: string -> Eval): Outcome<SpecRecord> {
    match eval(Cleanup(llmOutput))
    case EvalSyntaxError => Normal(SpecRecord(Str(GraphParseFailed), s.desc, config))
    case EvalValueError => Thrown("ValueError")
    case Evaluated(v) => Normal(SpecRecord(v, s.desc, config))
  }

  /** The snapshot holds the agent's description and configuration; its
      graph is the one the agent holds after the fresh prediction exactly
      when that prediction parsed (or the agent already held the failure
      string, which is what the snapshot then holds). */
  lemma SnapshotContents(s: SpecState, config: AgentConfig, llmOutput: string, eval: string -> Eval)
    requires Snapshot(s, config, llmOutput, eval).Normal?
    ensures Snapshot(s, config, llmOutput, eval).value.rosNodeDesc == s.desc
    ensures Snapshot(s, config, llmOutput, eval).value.config == config
    ensures Snapshot(s, config, llmOutput, eval).value.rosGraphDict == GraphCall(s.graph, llmOutput, eval).0
      <==> eval(Cleanup(llmOutput)).Evaluated? || s.graph == Str(GraphParseFailed)
  {
  }

  // ---------------------------------------------------------------------
  // the agent

  class SpecAgent {
    const config: AgentConfig
    const endConvKeyword: string := SpecKeyword
    var rosNodeDesc: string
    var rosGraph: PyValue

    /** A new agent has the placeholder description and an empty graph. */
    constructor (config: AgentConfig)
      ensures this.config == config
      ensures rosNodeDesc == NoDescYet && rosGraph == GraphDict(Empty())
    {
      this.config := config;
      rosNodeDesc := NoDescYet;
      rosGraph := GraphDict(Empty());
    }

    function State(): SpecState
      reads this
    {
      SpecState(rosNodeDesc, rosGraph)
    }

    /** `predict_ros_graph_dict` with the graph chain's output. */
    method PredictRosGraphDict(llmOutput: string, eval: string -> Eval) returns (r: Outcome<PyValue>)
      modifies this
      ensures rosNodeDesc == old(rosNodeDesc)
      ensures eval(Cleanup(llmOutput)).EvalSyntaxError? ==> rosGraph == old(rosGraph) && r == Normal(Str(GraphParseFailed))
      ensures eval(Cleanup(llmOutput)).EvalValueError? ==> rosGraph == old(rosGraph) && r == Thrown("ValueError")
      ensures eval(Cleanup(llmOutput)).Evaluated? ==> rosGraph == eval(Cleanup(llmOutput)).value && r == Normal(rosGraph)
    {
      var e := eval(Cleanup(llmOutput));
      match e
      case EvalSyntaxError =>
        r := Normal(Str(GraphParseFailed));
      case EvalValueError =>
        r := Thrown("ValueError");
      case Evaluated(v) =>
        rosGraph := v;
        r := Normal(rosGraph);
    }

    /** `show_ROS_graph`: predicts the graph, answers with the fixed text
        when the prediction is not a non-empty dict, and otherwise derives
        the drawing and answers with the description. */
    method ShowRosGraph(llmOutput: string, eval: string -> Eval) returns (r: Outcome<string>, vertices: seq<Vertex>, edges: seq<Edge>)
      modifies this
      ensures (rosGraph, r.Normal?) == GraphCall(old(rosGraph), llmOutput, eval)
      ensures rosNodeDesc == old(rosNodeDesc)
      ensures var e := eval(Cleanup(llmOutput));
        r.Normal? && !(e.Evaluated? && Drawn(e.value).Some?) ==> r.value == EmptyGraphMsg
      ensures var e := eval(Cleanup(llmOutput));
        e.Evaluated? && DrawRaises(e.value) ==> r == Thrown("KeyError")
      ensures var e := eval(Cleanup(llmOutput));
        e.Evaluated? && Drawn(e.value).Some? ==>
          var g := Drawn(e.value).value;
          r == Normal(GraphHeader + rosNodeDesc)
          && Ellipses(vertices) == g.keys
          && Boxes(vertices) == Dedup(TopicMentions(g))
          && edges == AllEdges(g)
    {
      vertices, edges := [], [];
      var p := PredictRosGraphDict(llmOutput, eval);
      if p.Thrown? {
        r := Thrown(p.exception);
        return;
      }
      match p.value
      case GraphDict(g) =>
        assert rosGraph == GraphDict(g);
        if |g.keys| == 0 {
          r := Normal(EmptyGraphMsg);
        } else {
          var topicList;
          vertices, edges, topicList := DeriveView(g);
          r := Normal(GraphHeader + rosNodeDesc);
        }
      case OtherDict(d) =>
        assert rosGraph == OtherDict(d);
        if |d.keys| == 0 {
          r := Normal(EmptyGraphMsg);
        } else if !AllHaveTopics(d) {
          r := Thrown("KeyError");
        } else {
          var topicList;
          vertices, edges, topicList := DeriveView(TopicView(d));
          r := Normal(GraphHeader + rosNodeDesc);
        }
      case Str(_) =>
        r := Normal(EmptyGraphMsg);
      case OtherLiteral =>
        r := Normal(EmptyGraphMsg);
    }

    /** `__call__`: the description chain's answer replaces the
        description, then the executor runs, calling the graph tool as the
        turn says; the first exception ends the turn. */
    method Call(turn: SpecTurn, eval: string -> Eval) returns (response: Outcome<string>)
      modifies this
      ensures (State(), response.Normal?) == SpecStep(eval)(old(State()), turn)
      ensures response.Normal? ==> response.value == turn.response
    {
      rosNodeDesc := turn.desc;
      var outputs := turn.graphOutputs;
      var i := 0;
      while i < |outputs|
        invariant 0 <= i <= |outputs|
        invariant rosNodeDesc == turn.desc
        invariant GraphCalls(rosGraph, outputs[i..], eval) == GraphCalls(old(rosGraph), outputs, eval)
      {
        assert outputs[i..][1..] == outputs[i + 1..];
        var answer, _, _ := ShowRosGraph(outputs[i], eval);
        if answer.Thrown? {
          response := Thrown(answer.exception);
          return;
        }
        i := i + 1;
      }
      response := Normal(turn.response);
    }

    /** `save_agent`: the snapshot with a fresh prediction. */
    method SaveAgent(llmOutput: string, eval: string -> Eval) returns (record: Outcome<SpecRecord>)
      modifies this
      ensures record == Snapshot(old(State()), config, llmOutput, eval)
      ensures rosGraph == GraphCall(old(rosGraph), llmOutput, eval).0
      ensures rosNodeDesc == old(rosNodeDesc)
    {
      var p := PredictRosGraphDict(llmOutput, eval);
      if p.Thrown? {
        record := Thrown(p.exception);
      } else {
        record := Normal(SpecRecord(p.value, rosNodeDesc, config));
      }
    }

    /** `spin`: turns until a response holds `END_OF_SPEC`, then one
        snapshot. Running out of input or an exception ends it without a
        snapshot. */
    method Spin(turns: seq<SpecTurn>, eval: string -> Eval, saveOutput: string)
      returns (taken: nat, end: End, record: Option<Outcome<SpecRecord>>)
      modifies this
      ensures var run := Converse(old(State()), turns, SpecStep(eval), Response, SpecKeyword);
        taken == run.taken && end == run.end
        && (end != Sentinel ==> State() == run.state && record == None)
        && (end == Sentinel ==> (record == Some(Snapshot(run.state, config, saveOutput, eval))
              && State() == SpecState(run.state.desc, GraphCall(run.state.graph, saveOutput, eval).0)))
    {
      ghost var total := Converse(State(), turns, SpecStep(eval), Response, SpecKeyword);
      var response := "";
      taken := 0;
      while !Contains(response, endConvKeyword)
        invariant taken <= |turns|
        invariant !Contains(response, SpecKeyword) ==>
          var rest := Converse(State(), turns[taken..], SpecStep(eval), Response, SpecKeyword);
          total == Run(taken + rest.taken, rest.end, rest.state)
        invariant Contains(response, SpecKeyword) ==> total == Run(taken, Sentinel, State())
        decreases |turns| - taken
      {
        if taken == |turns| {
          end, record := Exhausted, None;
          return;
        }
        assert turns[taken..][1..] == turns[taken + 1..];
        var r := Call(turns[taken], eval);
        taken := taken + 1;
        if r.Thrown? {
          end, record := Raised, None;
          return;
        }
        response := r.value;
      }
      end := Sentinel;
      var saved := SaveAgent(saveOutput, eval);
      record := Some(saved);
    }
  }

  /** `load_spec_agent`: a new agent with the snapshot's configuration,
      graph and description. */
  method LoadSpecAgent(record: SpecRecord) returns (agent: SpecAgent)
    ensures fresh(agent)
    ensures agent.config == record.config
    ensures agent.State() == SpecState(record.rosNodeDesc, record.rosGraphDict)
  {
    agent := new SpecAgent(record.config);
    agent.rosGraph := record.rosGraphDict;
    agent.rosNodeDesc := record.rosNodeDesc;
  }
}
