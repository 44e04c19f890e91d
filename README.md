# ROScribe core, modelled in Dafny

ROScribe builds a ROS workspace in three interactive stages, each a
conversation with a language-model agent that ends when the agent's answer
contains the stage's end keyword:

- **Specification** (`SpecAgent`, module `Spec`). A description chain keeps a
  free-text description of the wanted ROS nodes up to date. The agent may
  ask for the ROS graph predicted from that description. The prediction is
  checked with `literal_eval` and drawn as a graph of node ellipses and
  topic boxes. The conversation ends on `END_OF_SPEC` and leaves one snapshot.
- **Generation** (`GenAgent`, module `Gen`). There is one conversation per
  node of the predicted graph, in key order, each ending on `END_OF_GEN`.
  In it the agent either writes the node's Python code (`write_ros_node`)
  or clones an existing repository for it (`download_code`, which marks the
  node's code as `RAG`). Generated code is saved under
  `{ws}/src/{project}/src/`. The stage leaves one snapshot after the last node.
- **Packaging** (`PackAgent`, module `Pack`). The stage first collects the
  dependencies of the generated code. It then holds four conversations, each
  ending on `END_OF_PACK`, for the launch file, `package.xml`,
  `CMakeLists.txt` and `README.md`, in that order. Each conversation is seeded
  by one call of its file's editing tool and closed by writing the file.

The stages share:

- the node/topic graph and its edit language (module `Parser`);
- the graph viewers (`Visualization`);
- Python's insertion-ordered `dict` (`OrderedDict`);
- the fenced-code parser, the Git URI pattern and the file router of the tools (`Tools`);
- the renderers that describe the generated nodes to the packaging stage (`Prompts`);
- the `setup.py`/`setup.cfg` generators and the routing of generated files into the workspace (`Generator`).

Two more modules cover the ROS index side:

- the documents one index repository gives the vector store (`RosIndexRepo`);
- the whitespace cleaner and the repository-link collection of the index scraper (`BsTransformer`).

`Conversation` holds the sentinel loop all three stages share. `Text` holds
the Python string operations the model needs (`find`, `split`, `replace`,
joins) and facts about them.

The language model, the agent executor, `input()` and the file system are
not modelled as such:

- Each conversation reads a finite list of turns. A turn carries the human
  line, the tool calls the executor made with the model outputs those tools
  received, and the executor's answer.
- Running out of turns is `input()` hitting end of file. The loop then ends
  without a snapshot.
- Files written are recorded as a list of (path, content) pairs.
- Snapshots are record values.
- `literal_eval`, the `schema` validator, `re.finditer` and the text
  splitter are parameters or inputs.
- `re.match` of the code-block pattern and `re.findall` of the Git URI
  pattern are modelled as functions with their regular-expression
  semantics stated in their contracts. The `\w` class is taken to be the
  ASCII letters, digits and `_` (see "Left out").

The stage classes keep the source's in-place updates: `nodes`, `package`,
`dependencies`, `ros_graph` and `ros_node_desc` are fields that the methods
reassign. Each loop is a `while` loop whose contract ties it to a
specification function; the properties are proved about that function.

## Model

| member | source | states |
|---|---|---|
| Conversation.Converse | roscribe/spec_agent.py:53-57 | the sentinel loop takes at most as many turns as there are input lines |
| Conversation.ConverseStops | roscribe/gen_agent.py:60-63 | with input the loop takes at least one turn (the response starts as ""); it stops at the first response holding the keyword, and runs out of input only when no response held it |
| Conversation.ConverseFirstSentinel | roscribe/pack_agent.py:61-64 | when no turn raises, the loop ends after exactly the turn whose response first holds the keyword |
| Gen.WriteStep | roscribe/tools.py:77-99 | for a downloaded (`RAG`) node, nothing changes and the no-code message comes back; otherwise a successful parse stores the parsed code as the node's entry with the success message, a failed parse changes nothing and gives the failure message, and the nodes change only to take the parsed code |
| Gen.DownloadStep | roscribe/tools.py:112-134 | a URI without `/word.git` gives the incorrect-URI message and no change; a failed clone gives the failure message and no change; a clone sets the node to `{code: RAG, readme: repo}` with the success message |
| Gen.CallStepFrame | roscribe/tools.py:88-91 | a tool call never removes a node and leaves every node but the current one as it was |
| Gen.CallsStepFrame | roscribe/gen_agent.py:86-87 | all the tool calls of a turn keep every node and leave every node but the current one unchanged |
| Gen.Talk | roscribe/gen_agent.py:60-63 | the per-node conversation takes at most as many turns as there are input lines |
| Gen.TalkIsConverse | roscribe/gen_agent.py:60-63 | the per-node conversation is the shared sentinel loop run with this stage's tools |
| Gen.ConverseFrame | roscribe/gen_agent.py:56-64 | a whole conversation about one node keeps every other node's entry |
| Gen.VisitOne | roscribe/gen_agent.py:57-66 | one node's conversation followed by its `save_code` takes at most the turns available |
| Gen.VisitUnfold | roscribe/gen_agent.py:56-66 | the loop over the graph keys is one node's visit followed by the loop over the remaining keys on the remaining input |
| Gen.VisitAdvance | roscribe/gen_agent.py:56-66 | the key loop advances by exactly one node and stops at a node that does not finish |
| Gen.VisitOneEffect | roscribe/gen_agent.py:57-94 | a finished node took at least one turn, has an entry, and adds the file `{ws}/src/{project}/src/{node}.py` holding its code unless its code is `RAG` |
| Gen.VisitOneFrame | roscribe/gen_agent.py:86-87 | visiting one node leaves every other node's entry as it was |
| Gen.VisitFrame | roscribe/gen_agent.py:56-66 | visiting other keys keeps a node's entry |
| Gen.VisitComplete | roscribe/gen_agent.py:56-94 | when every node finishes, each took at least one turn, each has an entry (so `save_code` never raised), and the files written are exactly the non-`RAG` code of the nodes in key order |
| Gen.GenAgent.constructor | roscribe/gen_agent.py:16-40 | a new agent has no project name, empty `nodes` and no current node |
| Gen.GenAgent.UpdateNode | roscribe/gen_agent.py:86-87 | only `nodes[current_node]` changes; every other entry is kept |
| Gen.GenAgent.WriteRosNode | roscribe/tools.py:74-102 | the tool's effect on `nodes` and its message are those of `WriteStep` |
| Gen.GenAgent.DownloadCode | roscribe/tools.py:109-137 | the tool's effect on `nodes` and its message are those of `DownloadStep` |
| Gen.GenAgent.Call | roscribe/gen_agent.py:44-46 | a turn applies the executor's tool calls in order and answers with the executor's output |
| Gen.GenAgent.TalkAboutNode | roscribe/gen_agent.py:60-63 | the loop's turns, its way of ending and the nodes it leaves are those of `Talk` |
| Gen.GenAgent.SaveCode | roscribe/gen_agent.py:89-94 | `KeyError` when the node has no entry; nothing written for `RAG` code; otherwise one file at the node's path |
| Gen.GenAgent.VisitNode | roscribe/gen_agent.py:57-66 | the node becomes `current_node`, then the conversation and `save_code` run as `VisitOne` says |
| Gen.GenAgent.SaveAgent | roscribe/gen_agent.py:96-105 | the record holds the project name, workspace name, nodes and configuration |
| Gen.GenAgent.VisitNext | roscribe/gen_agent.py:56-66 | one pass of the key loop, stated against the rest of the loop |
| Gen.GenAgent.VisitAll | roscribe/gen_agent.py:56-66 | the key loop visits the keys in order and ends as `Visit` says |
| Gen.GenAgent.Spin | roscribe/gen_agent.py:48-76 | the project name is set first; the keys are visited in order, as far as the first node lacking one of the three keys, whose `reset_agent` raises `KeyError` after the earlier nodes were saved; a value that is not a dict raises before the first node; the record is written once, only after the last node finishes |
| Gen.SpinKeysPrefix | roscribe/gen_agent.py:56-76 | the nodes visited are all keys of a well-formed graph; of any other dict, the longest prefix of complete nodes, with a raise exactly when a node lacking a key follows it; of a value that is not a dict, none, with a raise |
| Gen.LoadGenAgent | roscribe/gen_agent.py:108-125 | graph and description come from the specification record; project name, workspace name and nodes from the generation record |
| Spec.CleanupShape | roscribe/spec_agent.py:109-111 | the cleaned text has no newline and no parentheses; every `(` became `{` and every `)` became `}`; it is never longer than the input |
| Spec.LastParsedFront | roscribe/spec_agent.py:61-69 | the last accepted graph of a list of outputs is that of its tail started from the first call's graph |
| Spec.GraphCallsStoreLast | roscribe/spec_agent.py:65-69 | when a turn's graph calls all return, `ros_graph` holds the last value `literal_eval` accepted, or the earlier graph when none parsed |
| Spec.TurnEffect | roscribe/spec_agent.py:43-49 | a completed turn leaves the description chain's answer and the last accepted graph |
| Spec.SnapshotContents | roscribe/spec_agent.py:83-89 | the snapshot holds the agent's description and configuration; its graph is what one more graph call would have left exactly when the fresh prediction parsed (or the stored graph already was the failure string) |
| Spec.SpecAgent.constructor | roscribe/spec_agent.py:15-41 | a new agent has the placeholder description and an empty graph |
| Spec.SpecAgent.PredictRosGraphDict | roscribe/spec_agent.py:61-69 | a `SyntaxError` gives the failure string and keeps `ros_graph`; a `ValueError` escapes and keeps it; a parsed value is stored and returned |
| Spec.SpecAgent.ShowRosGraph | roscribe/tools.py:35-67 | a prediction that is not a non-empty dict gives the fixed empty-graph message; a dict some node of which lacks a topic key raises `KeyError`; otherwise the answer is the header plus the description, with one ellipse per node, one box per distinct topic and every edge, whether or not the nodes have descriptions |
| Spec.DrawReadsTopicsOnly | roscribe/tools.py:45-60 | the drawing reads only the two topic keys of each node: dicts that agree on them raise alike and are drawn alike |
| Spec.SpecAgent.Call | roscribe/spec_agent.py:43-49 | the description is replaced first, then the graph tool runs as often as the turn calls it; the first exception ends the turn |
| Spec.SpecAgent.SaveAgent | roscribe/spec_agent.py:83-89 | the record is a fresh prediction (possibly the failure string) with the description and configuration |
| Spec.SpecAgent.Spin | roscribe/spec_agent.py:51-59 | turns run until a response holds `END_OF_SPEC`, then exactly one snapshot; running out of input or an exception ends it without one |
| Spec.LoadSpecAgent | roscribe/spec_agent.py:94-106 | the loaded agent has the record's configuration, graph and description |
| Pack.LaunchKeyOnly | roscribe/pack_agent.py:34-37 | of the four package keys, exactly the launch file's key contains `launch` |
| Pack.FileKeysDistinct | roscribe/pack_agent.py:34-37 | the four package keys are pairwise different for every project name |
| Pack.InitialPackage | roscribe/pack_agent.py:34-37 | a new package holds exactly the four keys, each `None` |
| Pack.DepsOkIff | roscribe/pack_agent.py:53-57 | the dependency loop gets through every node exactly when the answer for every node with generated code parses as a list |
| Pack.DepsFromGeneratedCode | roscribe/pack_agent.py:53-57 | every dependency collected comes from the parsed answer for some node whose code is not `RAG` |
| Pack.DepsOnlyDownloads | roscribe/pack_agent.py:54 | when every node was downloaded, there are no dependencies and the loop does not raise |
| Pack.DepsNext | roscribe/pack_agent.py:53-57 | the dependency loop advances by one node: skip `RAG`, stop on a parse failure, otherwise extend |
| Pack.DepsStop | roscribe/pack_agent.py:57 | once `literal_eval` has raised, later nodes change nothing |
| Pack.EditStep | roscribe/tools.py:147-164 | an editing tool call keeps the four package keys |
| Pack.EditsStep | roscribe/tools.py:147-164 | any number of editing tool calls keep the four package keys |
| Pack.PackConverseUnfold | roscribe/pack_agent.py:61-65 | a stage's first turn applies the turn's edits and stops exactly when its response holds `END_OF_PACK` |
| Pack.Talk | roscribe/pack_agent.py:61-65 | a stage's conversation takes at most the turns available and keeps its file's key |
| Pack.TalkIsConverse | roscribe/pack_agent.py:61-65 | a stage's conversation is the shared sentinel loop run with the stage's editing tool |
| Pack.EditsStepFrame | roscribe/tools.py:164 | the editing tool of one file leaves every other file of the package as it was |
| Pack.TalkFrame | roscribe/pack_agent.py:61-65 | a whole stage conversation leaves every other file as it was |
| Pack.SavePathRouting | roscribe/pack_agent.py:101-108 | the launch file is written under `{ws}/src/{project}/launch/`, the other three files at `{ws}/src/{project}/` |
| Pack.StageRun | roscribe/pack_agent.py:59-67 | one stage (seeding call, agent prompt, conversation, `save_file`) takes at most the turns available; a prompt that raises ends the stage before any turn |
| Pack.LaunchPromptsRaise | roscribe/prompts.py:716-722 | the launch prompts raise when nodes exist and the graph is not a dict, or when the graph lacks one of the nodes |
| Pack.LaunchPromptsStop | roscribe/pack_agent.py:110-118 | when the node list raises, the stage takes no turn, ends raised and writes nothing; a file not yet generated stays unchanged, since the generating prompt raises before the tool edits |
| Pack.RaisingStageStops | roscribe/pack_agent.py:59-97 | a stage whose prompt raises stops the whole sequence of stages without a snapshot |
| Pack.StagesUnfold | roscribe/pack_agent.py:59-97 | the stages are one stage followed, when it finishes, by the remaining stages on the remaining input |
| Pack.StagesAdvance | roscribe/pack_agent.py:59-97 | the loop over the stages advances by exactly one stage and stops at a stage that does not finish |
| Pack.StageRunEffect | roscribe/pack_agent.py:59-108 | a finished stage took at least one turn, its file has content, and exactly that content was written once at its path |
| Pack.StageRunFrame | roscribe/pack_agent.py:59-67 | a stage leaves every other file of the package as it was |
| Pack.StagesFrame | roscribe/pack_agent.py:59-97 | files that no stage owns are left as they were |
| Pack.StagesComplete | roscribe/pack_agent.py:59-97 | when every stage finishes, each took at least one turn, each file has content, and exactly one file per stage was written, in stage order, with the final contents |
| Pack.PackageFilesAt | roscribe/pack_agent.py:101-105 | the `i`-th file written belongs to the `i`-th stage |
| Pack.WrittenInOrder | roscribe/pack_agent.py:67-97 | the files written after earlier ones are one per stage at that stage's path |
| Pack.StageOrderPaths | roscribe/pack_agent.py:67-97 | the four new files land at the launch path, then `package.xml`, `CMakeLists.txt` and `README.md` |
| Pack.StageOrderDistinct | roscribe/pack_agent.py:59-97 | the four stages are for four different files |
| Pack.StageOrderWrites | roscribe/pack_agent.py:59-97 | a completed `spin` wrote exactly four files: `launch/{project}.launch`, then `package.xml`, `CMakeLists.txt` and `README.md` at the package root |
| Pack.PackAgent.constructor | roscribe/pack_agent.py:18-43 | a new agent has the given graph, nodes, project and workspace, the four files not yet generated and no dependencies |
| Pack.PackAgent.EditTool | roscribe/tools.py:142-164 | the tool generates when its file is `None` and edits otherwise; only a parsed output replaces that file, with the message of `EditFile` |
| Pack.PackAgent.Call | roscribe/pack_agent.py:45-47 | a turn applies the executor's editing calls in order and answers with the executor's output |
| Pack.PackAgent.TalkAboutFile | roscribe/pack_agent.py:61-65 | the loop's turns, its way of ending and the package it leaves are those of `Talk` |
| Pack.PackAgent.SaveFile | roscribe/pack_agent.py:101-108 | writes the file's content at its routed path; a file still `None` leaves an empty file and raises |
| Pack.PackAgent.RenderPrompts | roscribe/pack_agent.py:110-118 | building a stage's agent prompt raises exactly when its renderer (`get_node_list` for the launch file, `get_node_readme_info` for the README) raises; the other two prompts never raise |
| Pack.PackAgent.Stage | roscribe/pack_agent.py:59-67 | the seeding call with empty feedback, the agent prompt, the conversation and `save_file` behave as `StageRun` says, including a prompt that raises |
| Pack.PackAgent.NextStage | roscribe/pack_agent.py:59-97 | one stage of the loop, stated against the rest of the stages |
| Pack.PackAgent.RunStages | roscribe/pack_agent.py:59-97 | the stages run in order, each reading input where the previous one stopped, and end as `Stages` says |
| Pack.PackAgent.FindDependencies | roscribe/pack_agent.py:53-57 | the dependencies grow by exactly what `DepsOf` collects, and the loop reports whether it got through every node |
| Pack.PackAgent.SaveAgent | roscribe/pack_agent.py:179-187 | the record holds the package, the dependencies and the configuration |
| Pack.PackAgent.Spin | roscribe/pack_agent.py:49-99 | a dependency answer that fails to parse raises before any stage; otherwise the four stages run in order, a raising prompt ends them, and the record is written once, only after the last stage finishes |
| Pack.LoadPackAgent | roscribe/pack_agent.py:190-210 | graph and description from the specification record; project, nodes and workspace from the generation record; package and dependencies from the packaging record |
| Tools.FindNewline | roscribe/tools.py:324 | the `[^\n]*\n` part of the pattern: the first newline at or after a position, or none when there is no newline there |
| Tools.MatchBlock | roscribe/tools.py:324-325 | `re.match` with `DOTALL`: no match exactly when the output does not start with a complete fenced block; a match is the first closing fence after the first line |
| Tools.ParseCodeGen | roscribe/tools.py:323-333 | success exactly when the output starts with a fenced block; the code is the text between the first line and the first later fence, the README the text after the last fence; failure gives the two fixed placeholders |
| Tools.ParsedCodeHasNoFence | roscribe/tools.py:324 | the lazy group never contains a fence after its first character |
| Tools.UnfencedFails | roscribe/tools.py:325-328 | an output that does not start with a fence is never parsed |
| Tools.WordEnd | roscribe/tools.py:112 | the `\w+` run starting at a position ends at the first character that is not a word character |
| Tools.RepoMatchEnd | roscribe/tools.py:112 | a match of `/(\w+)\.git` can end only where the word run ends |
| Tools.FirstRepoMatch | roscribe/tools.py:112-113 | the leftmost match at or after a position, or none when none exists |
| Tools.GitRepoName | roscribe/tools.py:112-120 | `findall(...)[0]` raises `IndexError` exactly when the URI has no `/name.git` match |
| Tools.GitRepoNameIsLeftmost | roscribe/tools.py:113-116 | the repository name is the group of the leftmost match |
| Tools.GitRepoNameIsWord | roscribe/tools.py:112 | the repository name is non-empty and made only of word characters |
| Tools.EditFile | roscribe/tools.py:147-171 | a parsed output replaces the file with its code and gives the success message; otherwise the file is kept and the failure message comes back |
| Tools.EditFileKeepsGenerated | roscribe/tools.py:161-171 | a generated file never turns back into `None`, and the success message comes back exactly when the output parsed |
| Tools.LoadFilePathRouting | roscribe/tools.py:304-311 | every opened path lies in the package directory and ends in the requested name: under `src/` exactly for `.py` names, under `launch/` for other `.launch` names, at the root otherwise |
| Tools.LoadFile | roscribe/tools.py:301-318 | the content of the routed path when it exists, the fixed error text otherwise |
| Parser.MakeNodeList | roscribe/parser.py:21-25 | the string is the `- name: description` lines of the nodes, in key order |
| Parser.TopicsOfMembership | roscribe/parser.py:42-46 | a (name, type) pair is among a node's published (subscribed) topics exactly when some topic lists the node among its publishers (subscribers) with that name and type |
| Parser.TopicsOfLength | roscribe/parser.py:42-46 | a node never has more topics in a role than the topic list has entries |
| Parser.CollectTopics | roscribe/parser.py:40-46 | one scan of the topic list gives the node's published and subscribed topics, in list order |
| Parser.MakeNodeTopicDict | roscribe/parser.py:37-52 | the dict has the node list's keys in the same order, each with its description, subscribed topics and published topics |
| Parser.RenderTopics | roscribe/parser.py:58-72 | the rendered topic line is the fixed marker for an empty list, otherwise one `name (message type: type), ` entry per topic |
| Parser.MakeNodeTopicListStr | roscribe/parser.py:55-79 | the listing is one block per node, in key order |
| Parser.NoTopicsShowsMarkers | roscribe/parser.py:58-67 | a node without topics shows both `No Subscribed Topics` and `No Published Topics` |
| Parser.TopicsTextInOrder | roscribe/parser.py:62-64 | each topic's entry sits right after the entries of the topics before it |
| Parser.ListingShowsNode | roscribe/parser.py:57-77 | every node's block occurs in the listing, right after the blocks of the nodes inserted before it |
| Parser.ListingShowsDescription | roscribe/parser.py:75 | the listing shows every node's description line |
| Parser.ListingShowsSubscribed | roscribe/parser.py:62-76 | the listing shows every topic every node subscribes to |
| Parser.ListingShowsPublished | roscribe/parser.py:70-77 | the listing shows every topic every node publishes |
| Parser.ModifyNodeDict | roscribe/parser.py:85-117 | a `SyntaxError` or schema error returns the dict unchanged with its warning; a `ValueError` escapes; an empty description deletes an existing node (keeping the order of the rest) or fails with the empty-description warning; otherwise the node is inserted or replaced, appended at the end only when new, every other node kept, and the no-topics warning given exactly when both lists are empty |
| Parser.UpsertIdempotent | roscribe/parser.py:108-115 | applying the same insert-or-replace twice gives the same dict, flag and warning as once |
| Parser.DeleteTwiceFails | roscribe/parser.py:101-107 | deleting the same node twice fails the second time with the empty-description warning and changes nothing |
| Parser.DeleteKeepsOthers | roscribe/parser.py:101-103 | a delete leaves every other node's entry, including its topics, exactly as it was |
| Parser.Unwrap | roscribe/parser.py:131-134 | unwrapping a delimiter pair never lengthens the path and keeps it free of the stripped characters |
| Parser.SanitizePath | roscribe/parser.py:128-137 | the cleaned file name contains no `<`, `>`, `"`, `?`, `*` and no vertical bar and is never longer than the matched name |
| Parser.GetCodeFromChat | roscribe/parser.py:120-149 | one file per matched block, in match order, with its cleaned path and its code, then exactly one `README.md` entry |
| Parser.ReadmeWithoutFence | roscribe/parser.py:145 | a chat with no fence gives the chat, a newline and the chat again as README |
| Parser.ReadmeFromChat | roscribe/parser.py:145 | the README's first piece is a prefix of the chat and its last piece a suffix |
| Visualization.AddTopic | roscribe/tools.py:52-54 | a topic already in the list changes nothing; a new one gets a box and is appended to the list |
| Visualization.MentionStep | roscribe/tools.py:51-60 | meeting one more topic mention keeps the boxes equal to the de-duplicated mentions so far |
| Visualization.NodeStep | roscribe/tools.py:49 | drawing one more node adds its ellipse and keeps the boxes as they were |
| Visualization.VisitTopics | roscribe/tools.py:51-61 | one topic loop adds one edge per topic, in order, towards the node for subscriptions and away from it for publications, and a box at each topic's first mention |
| Visualization.VisitNode | roscribe/tools.py:48-61 | one pass of the outer loop: the node's ellipse, then its subscribed topics, then its published topics |
| Visualization.DeriveView | roscribe/tools.py:43-61 | the ellipses are the nodes in key order, the boxes the topic names in order of first mention, and the edges one per mention |
| Visualization.DedupDistinct | roscribe/tools.py:52-53 | the topic list never holds a name twice |
| Visualization.DedupSameElements | roscribe/tools.py:52-53 | a name gets a box exactly when some node mentions it |
| Visualization.DedupFirstOccurrence | roscribe/tools.py:52-54 | a mention not seen before is appended at the end of the topic list |
| Visualization.EdgeCount | roscribe/tools.py:51-61 | there are exactly as many edges as topic mentions: repeated mentions are not merged |
| Visualization.EdgeDirections | roscribe/tools.py:55-61 | each subscription is an edge from the topic into the node, each publication an edge from the node out to the topic |
| Visualization.EdgesFromGraph | roscribe/tools.py:48-61 | every edge joins some node to one of its topics in the right direction |
| Visualization.NameView | roscribe/visualization.py:13-23 | the parser's dict, seen by topic name only, has the same nodes in the same order |
| Visualization.ShowNodeGraph | roscribe/visualization.py:4-25 | the ellipses are the nodes in key order, the boxes the distinct topic names in order of first mention, and the edges one per mention |
| Visualization.SameNameOneBox | roscribe/visualization.py:14-21 | two topics with the same name and different message types give exactly one box |
| OrderedDict.Empty | roscribe/parser.py:38 | a new dict has no keys |
| OrderedDict.Set | roscribe/parser.py:113-115 | assignment maps the key to the value; an existing key keeps its place, a new key goes last |
| OrderedDict.IndexOf | roscribe/parser.py:102-103 | the position of a present key is its first occurrence |
| OrderedDict.Pop | roscribe/parser.py:103 | `pop` removes the key and its value and keeps the order of the other keys |
| OrderedDict.RemoveAtKeys | roscribe/parser.py:103 | removing one key keeps the remaining keys distinct and removes exactly that key |
| OrderedDict.DistinctTail | roscribe/gen_agent.py:56 | after the first key, the remaining keys are distinct and do not repeat it |
| Generator.Names | roscribe/generator.py:56-57 | one `'n = pkg.n:main'` entry per node, in key order |
| Generator.DropLastTwo | roscribe/generator.py:59 | `s[:-2]` is `s` without its last two characters, and empty for shorter strings |
| Generator.MakeSetupPy | roscribe/generator.py:54-62 | the loop's scripts string is `ConsoleScripts` of the keys, placed in the `setup.py` template |
| Generator.EntriesJoined | roscribe/generator.py:56-57 | the appended entries, each followed by `, `, are the entries joined by `, ` plus one trailing `, ` |
| Generator.ConsoleScriptsOfNodes | roscribe/generator.py:55-59 | with nodes, the scripts are `'console_scripts': [` then the entries joined by `, `, then `]` |
| Generator.ConsoleScriptsOfNone | roscribe/generator.py:55-59 | with no nodes, the slice removes ` [` and the scripts are `'console_scripts':]` |
| Generator.SetupPyHolds | roscribe/generator.py:14-61 | the text opens with the `setup.py` heading, the package name lands in the `package_name` line and the scripts in the `entry_points` line |
| Generator.SetupCfgHolds | roscribe/generator.py:43-67 | the package name ends both the `script_dir` and the `install_scripts` line |
| Generator.RouteOf | roscribe/generator.py:173-189 | every file destination lies under the package directory; an unknown mode gives the error report; `impl` with a version other than `ros1`/`ros2` writes nothing |
| Generator.Blocks | roscribe/parser.py:126-143 | one entry per matched block, in order, with its cleaned path and its code |
| Generator.ToFiles | roscribe/generator.py:160-189 | the chat's files are collected into the workspace, then every workspace file is routed as the mode says |
| Generator.CollectWorkspace | roscribe/generator.py:161-168 | the first loop builds exactly the workspace of the chat's files |
| Generator.RouteFiles | roscribe/generator.py:170-189 | the second loop gives one action per workspace file, in insertion order, at the mode's destination |
| Generator.PathsAgree | roscribe/generator.py:175-186 | the three f-string paths are the package directory followed by the subdirectory and the file name |
| Generator.WorkspaceKeys | roscribe/generator.py:164-168 | the workspace holds exactly the names of the chat's files other than `README.md` |
| Generator.WorkspaceLastWins | roscribe/generator.py:168 | a name keeps the code of its last occurrence |
| Generator.ActionsFollowRoute | roscribe/generator.py:170-189 | a mode with a directory writes every workspace file there, in insertion order; an implementation for an unknown ROS version writes nothing; an unknown mode reports an error once per file and writes nothing |
| Generator.RoutesByMode | roscribe/generator.py:173-187 | `impl` with `ros1` writes the `i`-th file under `src/`, `impl` with `ros2` under `{pkg}/`, `launch` under `launch/`, and `install` at the package root |
| Prompts.GraphLookup | roscribe/prompts.py:722-726 | indexing the predicted graph by a node succeeds exactly when the graph is a dict holding the node with all three keys, and then gives that node's entry; otherwise it raises `TypeError` for a non-dict and `KeyError` for a missing node or key |
| Prompts.Quoted | roscribe/prompts.py:725-726 | each topic name of a rendered list appears in single quotes, one per topic, in order |
| Prompts.NonRag | roscribe/prompts.py:751-753 | the nodes selected are exactly those whose code is not `RAG`; none when every node is `RAG` |
| Prompts.NodeGroups | roscribe/prompts.py:719-730 | one group of lines per node of the dict |
| Prompts.NodeGroupsStep | roscribe/prompts.py:719-730 | one more node appends exactly that node's lines |
| Prompts.GetNodeList | roscribe/prompts.py:716-732 | the loop's string, or the exception of its first failing lookup, is `NodeListText` |
| Prompts.ListNode | roscribe/prompts.py:719-730 | one pass of the loop: a failing lookup makes the whole call raise as `NodeListText` says; otherwise the string grows by exactly the node's group and one more node resolves |
| Prompts.AppendNodeLines | roscribe/prompts.py:720-730 | one pass appends the node's name line then, for a node with code, its description, the project as package, `n.py` as type and its two topic lines, and for a `RAG` node its description, package and type lines naming the node's package |
| Prompts.NodeGroupsAt | roscribe/prompts.py:719-730 | the `i`-th group of the node list is the lines of the `i`-th node |
| Prompts.NodeListShowsNodes | roscribe/prompts.py:719-730 | every node's lines occur contiguously in the node list, and the blocks of earlier nodes come before those of later ones |
| Prompts.NodeListFails | roscribe/prompts.py:719-722 | no nodes give the empty list; a graph that is not a dict raises at the first node; a node the dict lacks, or a node lacking a key, raises `KeyError` |
| Prompts.NodeListFailsAt | roscribe/prompts.py:719-722 | a failing lookup at any node makes the whole list raise that lookup's exception |
| Prompts.ReadmeGroups | roscribe/prompts.py:737-744 | one group of lines per node with code |
| Prompts.ReadmeGroupsStep | roscribe/prompts.py:737-744 | a `RAG` node adds nothing; a node with code appends exactly its lines |
| Prompts.GetNodeReadmeInfo | roscribe/prompts.py:735-746 | the loop's string, or the exception of the first failing lookup of a node with code, is `ReadmeInfoText` |
| Prompts.ReadmeFails | roscribe/prompts.py:738-740 | a node with code whose lookup fails makes the whole call raise that lookup's exception |
| Prompts.AppendReadmeLines | roscribe/prompts.py:739-744 | one pass appends the node's six lines, in order |
| Prompts.ReadmeGroupsAreNonRag | roscribe/prompts.py:737-744 | the `j`-th group of the README notes belongs to the `j`-th node with code; `RAG` nodes are left out entirely |
| Prompts.ReadmeInfoAllRag | roscribe/prompts.py:737-738 | when every node is `RAG` the notes are empty and no lookup is made |
| Prompts.ReadmeBlockEnds | roscribe/prompts.py:739-744 | each block opens with `n.py:` and ends with the node's implementation notes followed by a blank line |
| Prompts.GetPackageInfo | roscribe/prompts.py:749-758 | the loop's string is `PackageInfoText` |
| Prompts.PackageLinesStep | roscribe/prompts.py:751-753 | a `RAG` node adds nothing; a node with code appends its `- 'n.py'` line |
| Prompts.PackageLinesAreNonRag | roscribe/prompts.py:751-753 | the file lines are exactly one `- 'n.py'` line per node with code, in order |
| Prompts.PackageInfoFrame | roscribe/prompts.py:750-756 | the text opens with `ROS Nodes:` and ends with the `{project}.launch` line and the fixed CMakeLists.txt, package.xml and README.md lines |
| Prompts.PackageInfoListsNode | roscribe/prompts.py:752-753 | every node with code has its `- 'n.py'` line in the text |
| Prompts.PackageInfoAllRag | roscribe/prompts.py:749-758 | with every node `RAG`, the text is the heading, the launch file and the fixed files only |
| BsTransformer.RemoveLineSpaceDeletes | roscribe/ros_bs_transformer.py:61-68 | the output is the input with exactly the selected characters deleted and every other character kept, in order: no newline is left when `line` is set, no space when `space` is set, and with both flags off the input comes back unchanged |
| BsTransformer.RemoveLineSpaceStrips | roscribe/ros_bs_transformer.py:62-66 | the two `replace` calls in turn delete exactly the characters the flags select |
| BsTransformer.ProjectionsAt | roscribe/ros_bs_transformer.py:86-87 | the URL list and the name list are the two halves of the same pairs, element by element |
| BsTransformer.RepoUrlOf | roscribe/ros_bs_transformer.py:85-86 | an `href` holding `/r/`, prefixed by the index host, is a repository URL |
| BsTransformer.LinkPairsUrls | roscribe/ros_bs_transformer.py:84-86 | every pair the links of one div yield carries a repository URL |
| BsTransformer.DivPairsUrls | roscribe/ros_bs_transformer.py:81-86 | every pair the divs of one page yield carries a repository URL |
| BsTransformer.PagePairsUrls | roscribe/ros_bs_transformer.py:78-86 | every URL collected from all pages is `https://index.ros.org` followed by an `href` that holds `/r/` |
| BsTransformer.Matching | roscribe/ros_bs_transformer.py:82 | the divs kept all carry the distribution's class |
| BsTransformer.OnlyMatchingDivs | roscribe/ros_bs_transformer.py:81-82 | dropping every div without the distribution's class changes nothing, errors included |
| BsTransformer.NoMatchNoPairs | roscribe/ros_bs_transformer.py:82 | a page without a div of the distribution contributes nothing |
| BsTransformer.DivPairsStep | roscribe/ros_bs_transformer.py:81-87 | one more div adds nothing without the class, raises when one of its links has no `href`, and otherwise appends its links' pairs |
| BsTransformer.LinkPairsNone | roscribe/ros_bs_transformer.py:85 | once a link without `href` has raised, later links cannot undo it |
| BsTransformer.DivPairsNone | roscribe/ros_bs_transformer.py:81-85 | once a div has raised, later divs cannot undo it |
| BsTransformer.PagePairsNone | roscribe/ros_bs_transformer.py:78-85 | once a page has raised, later pages cannot undo it |
| BsTransformer.IndexTransformer.constructor | roscribe/ros_bs_transformer.py:72-73 | the class searched for is `distro-` followed by the distribution |
| BsTransformer.IndexTransformer.ScanLinks | roscribe/ros_bs_transformer.py:84-87 | the links of one div append URLs and names to both lists in lockstep, or raise on a link without `href` |
| BsTransformer.IndexTransformer.ScanPage | roscribe/ros_bs_transformer.py:80-87 | the divs of one page append the pairs of every div carrying the distribution's class |
| BsTransformer.IndexTransformer.GetDistroUrls | roscribe/ros_bs_transformer.py:75-89 | the two lists are the pairs of all pages, in order, or `TypeError`; they always have the same length and every URL is a repository URL |
| BsTransformer.FirstsAppend | roscribe/ros_bs_transformer.py:86-87 | appending pairs appends their URLs and their names |
| RosIndexRepo.Decimal | roscribe/ros_index_repo.py:61-62 | the part number is written as a non-empty string of decimal digits |
| RosIndexRepo.DecimalRoundTrip | roscribe/ros_index_repo.py:61-62 | reading a part number's digits back gives the number |
| RosIndexRepo.DecimalInjective | roscribe/ros_index_repo.py:61-62 | different part numbers are written differently |
| RosIndexRepo.Documents | roscribe/ros_index_repo.py:58 | `create_documents` gives one document per chunk, in order, each holding its chunk and a copy of the repository's metadata |
| RosIndexRepo.TitleFirst | roscribe/ros_index_repo.py:64-67 | titling the first document raises `IndexError` exactly when there are no documents; otherwise only the first one gets the title |
| RosIndexRepo.TitleParts | roscribe/ros_index_repo.py:60-62 | the loop titles document `i` as part `i + 1`, in place |
| RosIndexRepo.ChunkDocsParts | roscribe/ros_index_repo.py:59-62 | with more than one chunk, document `i` holds chunk `i` and is titled `<heading>, part i+1`, and no two parts share a title |
| RosIndexRepo.ChunkDocsSingle | roscribe/ros_index_repo.py:63-67 | a lone chunk gives one document titled with the bare heading |
| RosIndexRepo.ChunkDocsMissing | roscribe/ros_index_repo.py:64-67 | without chunks the fallback message stands in, its first chunk titled with the bare heading; only a fallback that splits into nothing raises |
| RosIndexRepo.ChunkDocsCarry | roscribe/ros_index_repo.py:58-67 | titling keeps every document's source and language |
| RosIndexRepo.VersionLines | roscribe/ros_index_repo.py:44-46 | one line per package |
| RosIndexRepo.VersionLinesAt | roscribe/ros_index_repo.py:45-46 | the `i`-th line is `name (version: ver)` of the `i`-th package |
| RosIndexRepo.IndexRepo.constructor | roscribe/ros_index_repo.py:5-20 | the fields are the given ones and the metadata is `{source: repo_uri, language: en}` with no title |
| RosIndexRepo.IndexRepo.GetRepoPackages | roscribe/ros_index_repo.py:41-54 | the loop's text, split and titled `ROS packages for X`, is `RepoPackages` |
| RosIndexRepo.IndexRepo.PackagesListed | roscribe/ros_index_repo.py:43-48 | without packages the text is `No packages available for X.`; otherwise every package's line occurs in it, in the order of the packages |
| RosIndexRepo.IndexRepo.SplitAndTitle | roscribe/ros_index_repo.py:57-69 | the split text is titled by parts, singly, or replaced by the fallback, as `ChunkDocs` says |
| RosIndexRepo.IndexRepo.GetRepoReadme | roscribe/ros_index_repo.py:56-69 | the README documents with heading `README of X` and fallback `No README found.` |
| RosIndexRepo.IndexRepo.GetRepoContrib | roscribe/ros_index_repo.py:71-85 | the contributing documents with heading `Contributing information of X` and fallback `No Contributing found.` |
| RosIndexRepo.IndexRepo.GetAllRepoInfo | roscribe/ros_index_repo.py:87-93 | the four lists are extended one after the other, as `AllRepoInfo` says |
| RosIndexRepo.IndexRepo.AllRepoInfoOrder | roscribe/ros_index_repo.py:87-93 | without an exception the result is the summary, package, README and contributing documents, in that order; otherwise it is the exception of the first part that raises |
| RosIndexRepo.IndexRepo.AllRepoInfoCarries | roscribe/ros_index_repo.py:87-93 | every document carries the repository URI as source and `en` as language, and the first one is the summary titled `Repository summary for X` |
| RosIndexRepo.ExtendFour | roscribe/ros_index_repo.py:88-92 | extending an empty list by four lists in turn gives their concatenation, or the first exception |
| RosIndexRepo.FirstCarries | roscribe/ros_index_repo.py:52 | titling the first document keeps every document's source and language |
| RosIndexRepo.CarriesAppend | roscribe/ros_index_repo.py:88-92 | documents that all carry the metadata still do once concatenated |
| Text.Find | roscribe/tools.py:324 | the lazy `(.+?)` group ends at the first fence at or after a position: the position found holds the fence and none before it does; no position when none does |
| Text.Split | roscribe/tools.py:331 | `split` always gives at least one piece |
| Text.SplitJoin | roscribe/parser.py:145 | joining the pieces of `chat.split(fence)` with the fence gives the chat back |
| Text.SplitWithout | roscribe/parser.py:145 | a text without the separator splits into itself alone |
| Text.ReplaceAllRemoves | roscribe/spec_agent.py:111 | replacing a character by text without it leaves none of it |
| Text.ReplaceAllKeepsAbsent | roscribe/spec_agent.py:111 | a character in neither the text nor the replacement stays absent after a replace |
| Text.ReplaceAllNoLonger | roscribe/spec_agent.py:111 | a replacement no longer than its pattern never lengthens the text |
| Text.ReplaceAllKeepsCount | roscribe/spec_agent.py:111 | a character in neither the pattern nor the replacement keeps its number of occurrences |
| Text.ReplaceCharCount | roscribe/spec_agent.py:111 | replacing `c` by `d` turns every `c` into a `d` and leaves no `c` |
| Text.ReplaceAllDeletes | roscribe/ros_bs_transformer.py:63-66 | replacing a character by `""` deletes exactly that character |
| Text.StripStrip | roscribe/ros_bs_transformer.py:62-66 | deleting one set of characters, then another, deletes their union |
| Text.StripContents | roscribe/ros_bs_transformer.py:62-66 | after deletion no selected character is left and every other character keeps its count |

## Left out

- The language model, the agent executor, the description, dependency and graph chains, and the retriever tool: their answers are inputs of each turn. The model says nothing about what they produce.
- `input()` and every `print`: the human lines are the turn list, and nothing printed is modelled. In `to_files` the "Invalid file storage mode!" print is an `InvalidMode` action.
- The file system: `open`/`write` become an appended (path, content) list, and `load_file` reads a map from path to content. `os.mkdir` in `ros_ws_generator` (`roscribe/generator.py:70-87`, `roscribe/gen_agent.py:128-137`) is not modelled.
- The `git clone` subprocess: whether it succeeded is an input of the download call.
- `pickle`: each snapshot is a record value. `load_*` takes those records, so a missing snapshot file is not modelled.
- Graphviz: the viewers compute their vertices and edges; the rendering and `.view()` are not modelled.
- `ast.literal_eval`, the `schema` validator, `re.finditer` in `get_code_from_chat`, and `RecursiveCharacterTextSplitter`: their results are inputs. The `schema` check is modelled only for a well-typed 4-tuple, which is either accepted or a schema error with its text. The splitters are the function parameters `bigSplit` (the 400000-character splitter) and `split` (the `chunk_size` one).
- Parser.ModifyNodeDict: `modify_node_dict` updates its dict in place and returns it; the model returns the new dict. The one caller rebinds the result, so aliasing is not captured.
- The text splitter's `create_documents` is not part of this model. The model relies on it giving every chunk its own copy of the metadata, so titling one document in place leaves the others untouched.
- The `str` of a list of topic names is modelled as the names in single quotes, joined by `, `. Names holding a quote or a backslash, which Python would escape differently, are not covered.
- Prompts.GraphLookup: for a `RAG` node `get_node_list` reads only `description` (`roscribe/prompts.py:727`), but the model looks up all three keys, so a `RAG` node lacking only a topic key raises in the model and not in Python. Every literal other than a dict or a string is one case raising `TypeError`.
- Node values of a predicted dict are modelled as dicts whose three keys are present or missing (`PyNode`). A node value that is not a dict, or topic values that are not lists of strings, are not modelled.
- Spec.SpecAgent.ShowRosGraph: what was drawn before a `KeyError` is not modelled.
- Tools.GitRepoName: `\w` is modelled as ASCII letters, digits and `_`. Python 3's `re` matches Unicode word characters for `str` patterns, so a URI such as `https://host/café.git` gives the name `café` in Python but no match, hence the incorrect-URI message, in the model.
- Tools.WordEnd: the `\w+` run ends at the first character that is not an ASCII word character (see Tools.GitRepoName).
- Tools.GitRepoNameIsWord: "word character" means ASCII word character (see Tools.GitRepoName).
- Gen.DownloadStep: the repository name it records is the ASCII `\w` one (see Tools.GitRepoName).
- Gen.GenAgent.DownloadCode: as Gen.DownloadStep.
- Pack.PackAgent.Spin: the four identical blocks of `spin` (`roscribe/pack_agent.py:59-97`) are one loop over the four files in the same order.
- Generator.ToFiles: the `ros_version='ros1'` default is not modelled; callers pass the version.
- `get_repo_struct` in `roscribe/ros_bs_transformer.py`: it only indexes a fixed chain of HTML `contents`.
- `get_repo_summary` has no method of its own: the function `RosIndexRepo.IndexRepo.RepoSummary` gives what it returns, and `GetAllRepoInfo` uses it. Its fields are taken as the strings `format` would produce.
- Not part of this model: `roscribe/ros_index_to_vectorstore.py` (network scraping), `roscribe/ros_index_chatbot.py` and `roscribe/support_agent.py` (unbounded chat loops without state), and `roscribe/main.py` (a driver importing modules that do not exist).
- Also not modelled: `roscribe/ui.py` and `roscribe/prompt.py` (static text), and the prompt templates of `roscribe/prompts.py` other than the three renderers.
- The `get_node_parser`/`get_topic_parser` pydantic parsers: `make_node_topic_dict` takes their decoded results.

Where the written description of the system and the code disagree, the model follows the code:

- Deleting a node that does not exist fails with "Adding ROS node {name} failed due to empty node description." (`roscribe/parser.py:104-107`), not with a "cannot delete" error.
- The generation snapshot is written once, after the last node (`roscribe/gen_agent.py:68`), not after every node.
