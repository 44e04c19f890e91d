/** The packaging stage: the dependencies of the generated code, then four
    conversations, one per package file in a fixed order, each seeded by one
    call of that file's editing tool and closed by writing the file. */
module Pack {
  import opened Wrappers
  import opened Text
  import opened OrderedDict
  import opened GraphModel
  import opened Tools
  import opened Conversation
  import Spec
  import Gen
  import Prompts

  const PackKeyword := "END_OF_PACK"

  /** File name -> content, `None` until the file is first generated. */
  type Package = map<string, Option<string>>

  /** The key of a package file: `f'{project_name}.launch'` or a fixed
      name. */
  function FileKey(projectName: Option<string>, f: PackageFile): string {
    match f
    case LaunchFile => PyStr(projectName) + ".launch"
    case PackageXml => "package.xml"
    case CMakeLists => "CMakeLists.txt"
    case ReadmeFile => "README.md"
  }

  /** What the seeding call of the tool produces for each file. */
  datatype Seeds = Seeds(launch: string, packageXml: string, cmakeLists: string, readme: string) {
    function For(f: PackageFile): string {
      match f
      case LaunchFile => launch
      case PackageXml => packageXml
      case CMakeLists => cmakeLists
      case ReadmeFile => readme
    }
  }

  /** Which stages raise while their prompts are rendered. The launch
      prompts list the nodes (`get_node_list`) and the README prompts
      describe the nodes with code (`get_node_readme_info`), both in the
      generating prompt the seeding call renders while the file is `None`
      and in the agent prompt rendered after it; the package.xml and
      CMakeLists.txt prompts read neither the nodes nor the graph. */
  datatype Raising = Raising(launch: bool, readme: bool) {
    predicate For(f: PackageFile) {
      match f
      case LaunchFile => launch
      case ReadmeFile => readme
      case _ => false
    }
  }

  /** The stages whose prompts raise for these nodes, graph and project. */
  function RaisingOf(nodes: Gen.Nodes, g: PyValue, projectName: Option<string>): Raising {
    Raising(Prompts.NodeListText(nodes, g, projectName).Thrown?, Prompts.ReadmeInfoText(nodes, g).Thrown?)
  }

  /** The order of the four sub-conversations. */
  const StageOrder: seq<PackageFile> := [LaunchFile, PackageXml, CMakeLists, ReadmeFile]

  lemma NoLaunchIn(s: string)
    requires forall i :: 0 <= i && i + 6 <= |s| ==> s[i] != 'l'
    ensures !Contains(s, "launch")
  {
    forall i: nat | i + 6 <= |s| ensures !OccursAt(s, "launch", i) {
      assert s[i..i + 6][0] == s[i];
    }
  }

  /** Only the launch file's key mentions "launch": the key of a launch
      file always does, the three fixed names never do. */
  lemma LaunchKeyOnly(projectName: Option<string>, f: PackageFile)
    ensures Contains(FileKey(projectName, f), "launch") <==> f == LaunchFile
  {
    match f
    case LaunchFile =>
      var p := PyStr(projectName);
      assert (p + ".launch")[|p| + 1..|p| + 7] == "launch";
      assert OccursAt(FileKey(projectName, f), "launch", |p| + 1);
    case PackageXml => NoLaunchIn("package.xml");
    case CMakeLists => NoLaunchIn("CMakeLists.txt");
    case ReadmeFile => NoLaunchIn("README.md");
  }

  /** The four keys are pairwise different, whatever the project name. */
  lemma FileKeysDistinct(projectName: Option<string>, f: PackageFile, g: PackageFile)
    requires f != g
    ensures FileKey(projectName, f) != FileKey(projectName, g)
  {
    LaunchKeyOnly(projectName, f);
    LaunchKeyOnly(projectName, g);
  }

  /** The package a new agent starts with: the four keys, all `None`. */
  function InitialPackage(projectName: Option<string>): (p: Package)
    ensures forall f :: FileKey(projectName, f) in p && p[FileKey(projectName, f)] == None
    ensures |p| == 4
  {
    FileKeysDistinct(projectName, LaunchFile, ReadmeFile);
    FileKeysDistinct(projectName, LaunchFile, PackageXml);
    FileKeysDistinct(projectName, LaunchFile, CMakeLists);
    map[FileKey(projectName, LaunchFile) := None, "README.md" := None, "package.xml" := None, "CMakeLists.txt" := None]
  }

  // ---------------------------------------------------------------------
  // dependencies

  /** The dependencies `spin` collects and whether it got through every
      node: downloaded nodes are skipped, and `literal_eval` of the
      dependency chain's answer for a node's code either gives a list
      (`Some`), which extends the dependencies, or raises (`None`), which
      stops the loop with what was collected so far. */
  datatype Deps = Deps(found: seq<string>, ok: bool)

  function DepsOf(nodes: Gen.Nodes, keys: seq<string>, findDeps: string -> Option<seq<string>>): Deps
    requires forall k :: k in keys ==> k in nodes.entries
    decreases |keys|
  {
    if keys == [] then Deps([], true)
    else
      var init := DepsOf(nodes, keys[..|keys| - 1], findDeps);
      var code := nodes.entries[keys[|keys| - 1]].code;
      if !init.ok || code == Rag then init
      else match findDeps(code)
        case None => Deps(init.found, false)
        case Some(d) => Deps(init.found + d, true)
  }

  /** The loop gets through every node exactly when the answer for every
      node with generated code parses as a list. */
  lemma {:induction false} DepsOkIff(nodes: Gen.Nodes, keys: seq<string>, findDeps: string -> Option<seq<string>>)
    requires forall k :: k in keys ==> k in nodes.entries
    ensures DepsOf(nodes, keys, findDeps).ok <==>
      forall k :: k in keys && nodes.entries[k].code != Rag ==> findDeps(nodes.entries[k].code).Some?
    decreases |keys|
  {
    if keys != [] {
      var init := keys[..|keys| - 1];
      assert forall k :: k in keys <==> k in init || k == keys[|keys| - 1];
      DepsOkIff(nodes, init, findDeps);
    }
  }

  /** Every dependency comes from the answer for a node whose code is not a
      download marker. */
  lemma {:induction false} DepsFromGeneratedCode(nodes: Gen.Nodes, keys: seq<string>, findDeps: string -> Option<seq<string>>, x: string)
    requires forall k :: k in keys ==> k in nodes.entries
    requires x in DepsOf(nodes, keys, findDeps).found
    ensures exists k :: (k in keys && nodes.entries[k].code != Rag
      && findDeps(nodes.entries[k].code).Some? && x in findDeps(nodes.entries[k].code).value)
    decreases |keys|
  {
    var init := keys[..|keys| - 1];
    var last := keys[|keys| - 1];
    assert forall k :: k in init ==> k in keys;
    var code := nodes.entries[last].code;
    if DepsOf(nodes, init, findDeps).ok && code != Rag && findDeps(code).Some? && x in findDeps(code).value {
      assert last in keys;
    } else {
      DepsFromGeneratedCode(nodes, init, findDeps, x);
    }
  }

  /** Without generated code there are no dependencies. */
  lemma {:induction false} DepsOnlyDownloads(nodes: Gen.Nodes, keys: seq<string>, findDeps: string -> Option<seq<string>>)
    requires forall k :: k in keys ==> k in nodes.entries && nodes.entries[k].code == Rag
    ensures DepsOf(nodes, keys, findDeps) == Deps([], true)
    decreases |keys|
  {
    if keys != [] {
      assert forall k :: k in keys[..|keys| - 1] ==> k in keys;
      DepsOnlyDownloads(nodes, keys[..|keys| - 1], findDeps);
    }
  }

  /** The loop over the nodes advances by one node. */
  lemma DepsNext(nodes: Gen.Nodes, keys: seq<string>, i: nat, findDeps: string -> Option<seq<string>>)
    requires i < |keys| && forall k :: k in keys ==> k in nodes.entries
    ensures forall k :: k in keys[..i] ==> k in nodes.entries
    ensures forall k :: k in keys[..i + 1] ==> k in nodes.entries
    ensures var init := DepsOf(nodes, keys[..i], findDeps);
      var code := nodes.entries[keys[i]].code;
      DepsOf(nodes, keys[..i + 1], findDeps) ==
        if !init.ok || code == Rag then init
        else match findDeps(code)
          case None => Deps(init.found, false)
          case Some(d) => Deps(init.found + d, true)
  {
    assert forall k :: k in keys[..i] ==> k in keys;
    assert forall k :: k in keys[..i + 1] ==> k in keys;
    assert keys[..i + 1][..i] == keys[..i];
  }

  /** Once the loop has raised, later nodes change nothing. */
  lemma {:induction false} DepsStop(nodes: Gen.Nodes, keys: seq<string>, j: nat, findDeps: string -> Option<seq<string>>)
    requires j <= |keys| && forall k :: k in keys ==> k in nodes.entries
    requires forall k :: k in keys[..j] ==> k in nodes.entries
    requires !DepsOf(nodes, keys[..j], findDeps).ok
    ensures DepsOf(nodes, keys, findDeps) == DepsOf(nodes, keys[..j], findDeps)
    decreases |keys|
  {
    if j < |keys| {
      var init := keys[..|keys| - 1];
      assert forall k :: k in init ==> k in keys;
      assert init[..j] == keys[..j];
      DepsStop(nodes, init, j, findDeps);
    } else {
      assert keys[..j] == keys;
    }
  }

  // ---------------------------------------------------------------------
  // one stage

  /** One turn: the human's line, the editing tool's model output for each
      call the executor makes of it, and the final response. */
  datatype PackTurn = PackTurn(humanInput: string, edits: seq<string>, response: string)

  function PackResponse(t: PackTurn): string {
    t.response
  }

  /** One call of the editing tool of `f`, whose file is under `key`. */
  function EditStep(p: Package, f: PackageFile, key: string, output: string): (r: Package)
    requires key in p
    ensures r.Keys == p.Keys
  {
    p[key := Edited(p[key], output)]
  }

  function EditsStep(p: Package, f: PackageFile, key: string, outputs: seq<string>): (r: Package)
    requires key in p
    ensures r.Keys == p.Keys
    decreases |outputs|
  {
    if outputs == [] then p else EditsStep(EditStep(p, f, key, outputs[0]), f, key, outputs[1..])
  }

  /** What a turn of the stage for `f` does; looking up a missing key
      raises `KeyError`. */
  function PackStep(f: PackageFile, key: string): (Package, PackTurn) -> (Package, bool) {
    (p: Package, t: PackTurn) => if key in p then (EditsStep(p, f, key, t.edits), true) else (p, false)
  }

  /** The first turn of a stage's conversation. */
  lemma PackConverseUnfold(p: Package, f: PackageFile, key: string, turns: seq<PackTurn>)
    requires turns != [] && key in p
    ensures var r := Converse(p, turns, PackStep(f, key), PackResponse, PackKeyword);
      var p1 := EditsStep(p, f, key, turns[0].edits);
      if Contains(turns[0].response, PackKeyword) then r == Run(1, Sentinel, p1)
      else
        var rest := Converse(p1, turns[1..], PackStep(f, key), PackResponse, PackKeyword);
        r == Run(rest.taken + 1, rest.end, rest.state)
  {
  }

  /** The conversation of a stage whose file is under `key`: the loop of
      `Converse` with `PackStep`, written out for this stage. */
  function Talk(p: Package, f: PackageFile, key: string, turns: seq<PackTurn>, kw: string): (r: Run<Package>)
    requires key in p
    ensures r.taken <= |turns| && key in r.state
    decreases |turns|
  {
    if turns == [] then Run(0, Exhausted, p)
    else
      var p1 := EditsStep(p, f, key, turns[0].edits);
      if Contains(turns[0].response, kw) then Run(1, Sentinel, p1)
      else
        var r := Talk(p1, f, key, turns[1..], kw);
        Run(r.taken + 1, r.end, r.state)
  }

  /** `Talk` is the generic sentinel loop run with the tool of this
      stage. */
  lemma {:induction false} TalkIsConverse(p: Package, f: PackageFile, key: string, turns: seq<PackTurn>, kw: string)
    requires key in p
    ensures Talk(p, f, key, turns, kw) == Converse(p, turns, PackStep(f, key), PackResponse, kw)
    decreases |turns|
  {
    if turns != [] {
      TalkIsConverse(EditsStep(p, f, key, turns[0].edits), f, key, turns[1..], kw);
    }
  }

  lemma {:induction false} EditsStepFrame(p: Package, f: PackageFile, key: string, outputs: seq<string>, k: string)
    requires key in p && k in p && k != key
    ensures k in EditsStep(p, f, key, outputs)
    ensures EditsStep(p, f, key, outputs)[k] == p[k]
    decreases |outputs|
  {
    if outputs != [] {
      EditsStepFrame(EditStep(p, f, key, outputs[0]), f, key, outputs[1..], k);
    }
  }

  lemma {:induction false} TalkFrame(p: Package, f: PackageFile, key: string, turns: seq<PackTurn>, kw: string, k: string)
    requires key in p && k in p && k != key
    ensures var r := Talk(p, f, key, turns, kw);
      k in r.state && r.state[k] == p[k]
    decreases |turns|
  {
    if turns != [] {
      EditsStepFrame(p, f, key, turns[0].edits, k);
      if !Contains(turns[0].response, kw) {
        TalkFrame(EditsStep(p, f, key, turns[0].edits), f, key, turns[1..], kw, k);
      }
    }
  }

  /** Where `save_file` writes: names mentioning "launch" under `launch/`,
      the others at the package root. */
  function SavePath(wsName: string, projectName: Option<string>, key: string): string {
    var base := wsName + "/src/" + PyStr(projectName) + "/";
    if Contains(key, "launch") then base + "launch/" + key else base + key
  }

  /** The launch file goes under `launch/`, the other three to the root. */
  lemma SavePathRouting(wsName: string, projectName: Option<string>, f: PackageFile)
    ensures var base := wsName + "/src/" + PyStr(projectName) + "/";
      SavePath(wsName, projectName, FileKey(projectName, f))
        == if f == LaunchFile then base + "launch/" + FileKey(projectName, f) else base + FileKey(projectName, f)
  {
    LaunchKeyOnly(projectName, f);
  }

  /** The package and the files written so far (path, content), in
      order. */
  datatype PackState = PackState(package: Package, written: seq<(string, string)>)

  /** `save_file`: a file still `None` leaves an empty file behind and
      raises `TypeError` from `write`. */
  function SaveFileStep(s: PackState, wsName: string, projectName: Option<string>, key: string): (PackState, bool)
    requires key in s.package
  {
    var path := SavePath(wsName, projectName, key);
    match s.package[key]
    case None => (PackState(s.package, s.written + [(path, "")]), false)
    case Some(content) => (PackState(s.package, s.written + [(path, content)]), true)
  }

  /** One stage: the seeding call of the tool, the conversation, then
      `save_file` of its own key. `end == Sentinel` means the file was
      written. When the stage's prompts raise, the seeding call raises
      before its output is used while the file is `None`, and otherwise the
      agent prompt raises after it; no turn is taken either way. */
  function StageRun(s: PackState, f: PackageFile, seed: string, raises: bool, turns: seq<PackTurn>, wsName: string, projectName: Option<string>): (r: Run<PackState>)
    ensures r.taken <= |turns|
  {
    var key := FileKey(projectName, f);
    if key !in s.package then Run(0, Raised, s)
    else if raises && s.package[key].None? then Run(0, Raised, s)
    else if raises then Run(0, Raised, PackState(EditStep(s.package, f, key, seed), s.written))
    else
      var run := Talk(EditStep(s.package, f, key, seed), f, key, turns, PackKeyword);
      var s1 := PackState(run.state, s.written);
      if run.end != Sentinel then Run(run.taken, run.end, s1)
      else
        var saved := SaveFileStep(s1, wsName, projectName, key);
        Run(run.taken, if saved.1 then Sentinel else Raised, saved.0)
  }

  /** The stages in order over one stream of input lines. */
  function Stages(s: PackState, files: seq<PackageFile>, seed: Seeds, raising: Raising, turns: seq<PackTurn>, wsName: string, projectName: Option<string>): Run<PackState>
    decreases |files|
  {
    if files == [] then Run(0, Sentinel, s)
    else
      var one := StageRun(s, files[0], seed.For(files[0]), raising.For(files[0]), turns, wsName, projectName);
      if one.end != Sentinel then one
      else
        var rest := Stages(one.state, files[1..], seed, raising, turns[one.taken..], wsName, projectName);
        Run(one.taken + rest.taken, rest.end, rest.state)
  }

  lemma StagesUnfold(s: PackState, files: seq<PackageFile>, i: nat, seed: Seeds, raising: Raising, turns: seq<PackTurn>, from: nat,
                     wsName: string, projectName: Option<string>)
    requires i < |files| && from <= |turns|
    ensures var one := StageRun(s, files[i], seed.For(files[i]), raising.For(files[i]), turns[from..], wsName, projectName);
      Stages(s, files[i..], seed, raising, turns[from..], wsName, projectName) ==
        if one.end != Sentinel then one
        else
          var rest := Stages(one.state, files[i + 1..], seed, raising, turns[from + one.taken..], wsName, projectName);
          Run(one.taken + rest.taken, rest.end, rest.state)
  {
    assert files[i..][0] == files[i] && files[i..][1..] == files[i + 1..];
    var one := StageRun(s, files[i], seed.For(files[i]), raising.For(files[i]), turns[from..], wsName, projectName);
    assert turns[from..][one.taken..] == turns[from + one.taken..];
  }

  /** The loop over the stages advances by one stage. */
  lemma StagesAdvance(total: Run<PackState>, s: PackState, files: seq<PackageFile>, i: nat, seed: Seeds, raising: Raising,
                      turns: seq<PackTurn>, taken: nat, wsName: string, projectName: Option<string>, t: nat, e: End, s': PackState)
    requires i < |files| && taken <= |turns|
    requires var rest := Stages(s, files[i..], seed, raising, turns[taken..], wsName, projectName);
      total == Run(taken + rest.taken, rest.end, rest.state)
    requires var one := StageRun(s, files[i], seed.For(files[i]), raising.For(files[i]), turns[taken..], wsName, projectName);
      t == one.taken && e == one.end && s' == one.state
    ensures taken + t <= |turns|
    ensures e != Sentinel ==> total == Run(taken + t, e, s')
    ensures e == Sentinel ==>
      var rest := Stages(s', files[i + 1..], seed, raising, turns[taken + t..], wsName, projectName);
      total == Run(taken + t + rest.taken, rest.end, rest.state)
  {
    StagesUnfold(s, files, i, seed, raising, turns, taken, wsName, projectName);
    if e == Sentinel {
      var rest := Stages(s', files[i + 1..], seed, raising, turns[taken + t..], wsName, projectName);
      assert Stages(s, files[i..], seed, raising, turns[taken..], wsName, projectName) == Run(t + rest.taken, rest.end, rest.state);
    } else {
      assert Stages(s, files[i..], seed, raising, turns[taken..], wsName, projectName) == Run(t, e, s');
    }
  }

  /** A stage that finishes wrote its own file once, with its final
      content, and left the other files as they were. */
  lemma StageRunEffect(s: PackState, f: PackageFile, seed: string, raises: bool, turns: seq<PackTurn>, wsName: string, projectName: Option<string>)
    requires StageRun(s, f, seed, raises, turns, wsName, projectName).end == Sentinel
    ensures var r := StageRun(s, f, seed, raises, turns, wsName, projectName);
      var key := FileKey(projectName, f);
      key in r.state.package && r.state.package[key].Some?
      && r.state.written == s.written + [(SavePath(wsName, projectName, key), r.state.package[key].value)]
      && r.taken >= 1
  {
    var key := FileKey(projectName, f);
    TalkIsConverse(EditStep(s.package, f, key, seed), f, key, turns, PackKeyword);
    ConverseStops(EditStep(s.package, f, key, seed), turns, PackStep(f, key), PackResponse, PackKeyword);
  }

  lemma StageRunFrame(s: PackState, f: PackageFile, seed: string, raises: bool, turns: seq<PackTurn>, wsName: string, projectName: Option<string>, k: string)
    requires k in s.package && k != FileKey(projectName, f)
    ensures var r := StageRun(s, f, seed, raises, turns, wsName, projectName);
      k in r.state.package && r.state.package[k] == s.package[k]
  {
    var key := FileKey(projectName, f);
    if key in s.package {
      TalkFrame(EditStep(s.package, f, key, seed), f, key, turns, PackKeyword, k);
    }
  }

  /** Reference definition of the files the stage writes: one per stage, in
      stage order, with the file's final content. */
  function PackageFiles(p: Package, files: seq<PackageFile>, wsName: string, projectName: Option<string>): seq<(string, string)>
    requires forall f :: f in files ==> FileKey(projectName, f) in p && p[FileKey(projectName, f)].Some?
    decreases |files|
  {
    if files == [] then []
    else
      var key := FileKey(projectName, files[0]);
      [(SavePath(wsName, projectName, key), p[key].value)] + PackageFiles(p, files[1..], wsName, projectName)
  }

  lemma {:induction false} StagesFrame(s: PackState, files: seq<PackageFile>, seed: Seeds, raising: Raising, turns: seq<PackTurn>,
                                       wsName: string, projectName: Option<string>, k: string)
    requires k in s.package && forall f :: f in files ==> FileKey(projectName, f) != k
    ensures var r := Stages(s, files, seed, raising, turns, wsName, projectName);
      k in r.state.package && r.state.package[k] == s.package[k]
    decreases |files|
  {
    if files != [] {
      StageRunFrame(s, files[0], seed.For(files[0]), raising.For(files[0]), turns, wsName, projectName, k);
      var one := StageRun(s, files[0], seed.For(files[0]), raising.For(files[0]), turns, wsName, projectName);
      if one.end == Sentinel {
        assert forall f :: f in files[1..] ==> f in files;
        StagesFrame(one.state, files[1..], seed, raising, turns[one.taken..], wsName, projectName, k);
      }
    }
  }

  /** When every stage finishes, each file has content, each stage took at
      least one turn, and the files written are exactly one per stage, in
      stage order, with the final contents. */
  lemma {:induction false} StagesComplete(s: PackState, files: seq<PackageFile>, seed: Seeds, raising: Raising, turns: seq<PackTurn>,
                                          wsName: string, projectName: Option<string>)
    requires forall i, j :: 0 <= i < j < |files| ==> files[i] != files[j]
    requires Stages(s, files, seed, raising, turns, wsName, projectName).end == Sentinel
    ensures var r := Stages(s, files, seed, raising, turns, wsName, projectName);
      r.taken >= |files|
      && (forall f :: f in files ==> FileKey(projectName, f) in r.state.package && r.state.package[FileKey(projectName, f)].Some?)
      && r.state.written == s.written + PackageFiles(r.state.package, files, wsName, projectName)
    decreases |files|
  {
    if files != [] {
      var f := files[0];
      var key := FileKey(projectName, f);
      var one := StageRun(s, f, seed.For(f), raising.For(f), turns, wsName, projectName);
      StageRunEffect(s, f, seed.For(f), raising.For(f), turns, wsName, projectName);
      var rest := Stages(one.state, files[1..], seed, raising, turns[one.taken..], wsName, projectName);
      assert Stages(s, files, seed, raising, turns, wsName, projectName) == Run(one.taken + rest.taken, rest.end, rest.state);
      assert forall i, j :: 0 <= i < j < |files[1..]| ==> files[1..][i] != files[1..][j] by {
        forall i, j | 0 <= i < j < |files[1..]| ensures files[1..][i] != files[1..][j] {
          assert files[1..][i] == files[i + 1] && files[1..][j] == files[j + 1];
        }
      }
      forall g | g in files[1..] ensures FileKey(projectName, g) != key {
        var j :| 0 <= j < |files[1..]| && files[1..][j] == g;
        assert files[j + 1] == g;
        FileKeysDistinct(projectName, f, g);
      }
      StagesComplete(one.state, files[1..], seed, raising, turns[one.taken..], wsName, projectName);
      StagesFrame(one.state, files[1..], seed, raising, turns[one.taken..], wsName, projectName, key);
      assert forall g :: g in files ==> g == f || g in files[1..];
      var fin := rest.state.package;
      var fileF := [(SavePath(wsName, projectName, key), fin[key].value)];
      assert one.state.written == s.written + fileF;
      assert PackageFiles(fin, files, wsName, projectName) == fileF + PackageFiles(fin, files[1..], wsName, projectName);
      AppendAssoc(s.written, fileF, PackageFiles(fin, files[1..], wsName, projectName));
    }
  }

  /** The `i`-th file written belongs to the `i`-th stage. */
  lemma {:induction false} PackageFilesAt(p: Package, files: seq<PackageFile>, wsName: string, projectName: Option<string>, i: nat)
    requires forall f :: f in files ==> FileKey(projectName, f) in p && p[FileKey(projectName, f)].Some?
    requires i < |files|
    ensures |PackageFiles(p, files, wsName, projectName)| == |files|
    ensures PackageFiles(p, files, wsName, projectName)[i].0 == SavePath(wsName, projectName, FileKey(projectName, files[i]))
    decreases |files|
  {
    assert forall f :: f in files[1..] ==> f in files;
    if i == 0 {
      if |files| > 1 {
        PackageFilesAt(p, files[1..], wsName, projectName, 0);
      }
    } else {
      PackageFilesAt(p, files[1..], wsName, projectName, i - 1);
    }
  }

  /** Files written after `before` in stage order: the `i`-th new file
      is the one of the `i`-th stage. */
  lemma WrittenInOrder(before: seq<(string, string)>, p: Package, files: seq<PackageFile>, written: seq<(string, string)>,
                       wsName: string, projectName: Option<string>)
    requires forall f :: f in files ==> FileKey(projectName, f) in p && p[FileKey(projectName, f)].Some?
    requires written == before + PackageFiles(p, files, wsName, projectName)
    ensures |written| == |before| + |files|
    ensures forall i :: 0 <= i < |files| ==> written[|before| + i].0 == SavePath(wsName, projectName, FileKey(projectName, files[i]))
  {
    if files == [] {
      assert PackageFiles(p, files, wsName, projectName) == [];
    }
    forall i | 0 <= i < |files|
      ensures |PackageFiles(p, files, wsName, projectName)| == |files|
      ensures written[|before| + i].0 == SavePath(wsName, projectName, FileKey(projectName, files[i]))
    {
      PackageFilesAt(p, files, wsName, projectName, i);
    }
  }

  /** Written after `before`, the four files of the package land at the
      launch path, then package.xml, CMakeLists.txt and README.md. */
  lemma StageOrderPaths(before: seq<(string, string)>, p: Package, written: seq<(string, string)>, wsName: string, projectName: Option<string>)
    requires forall f :: f in StageOrder ==> FileKey(projectName, f) in p && p[FileKey(projectName, f)].Some?
    requires written == before + PackageFiles(p, StageOrder, wsName, projectName)
    ensures var base := wsName + "/src/" + PyStr(projectName) + "/";
      |written| == |before| + 4
      && written[|before|].0 == base + "launch/" + PyStr(projectName) + ".launch"
      && written[|before| + 1].0 == base + "package.xml"
      && written[|before| + 2].0 == base + "CMakeLists.txt"
      && written[|before| + 3].0 == base + "README.md"
  {
    WrittenInOrder(before, p, StageOrder, written, wsName, projectName);
    SavePathRouting(wsName, projectName, LaunchFile);
    SavePathRouting(wsName, projectName, PackageXml);
    SavePathRouting(wsName, projectName, CMakeLists);
    SavePathRouting(wsName, projectName, ReadmeFile);
  }

  lemma StageOrderDistinct()
    ensures forall i, j :: 0 <= i < j < |StageOrder| ==> StageOrder[i] != StageOrder[j]
  {
  }

  /** The four stages write the launch file under `launch/`, then
      package.xml, CMakeLists.txt and README.md at the package root, each
      once. */
  lemma StageOrderWrites(s: PackState, seed: Seeds, raising: Raising, turns: seq<PackTurn>, wsName: string, projectName: Option<string>)
    requires Stages(s, StageOrder, seed, raising, turns, wsName, projectName).end == Sentinel
    ensures var r := Stages(s, StageOrder, seed, raising, turns, wsName, projectName);
      var base := wsName + "/src/" + PyStr(projectName) + "/";
      |r.state.written| == |s.written| + 4
      && r.state.written[|s.written|].0 == base + "launch/" + PyStr(projectName) + ".launch"
      && r.state.written[|s.written| + 1].0 == base + "package.xml"
      && r.state.written[|s.written| + 2].0 == base + "CMakeLists.txt"
      && r.state.written[|s.written| + 3].0 == base + "README.md"
  {
    StageOrderDistinct();
    StagesComplete(s, StageOrder, seed, raising, turns, wsName, projectName);
    var r := Stages(s, StageOrder, seed, raising, turns, wsName, projectName);
    StageOrderPaths(s.written, r.state.package, r.state.written, wsName, projectName);
  }

  /** Records of different runs can pair nodes with a graph that lacks
      them: the launch prompts then raise, as they do for a graph that is
      not a dict. */
  lemma LaunchPromptsRaise(nodes: Gen.Nodes, g: PyValue, projectName: Option<string>)
    ensures nodes.keys != [] && (g.Str? || g.OtherLiteral?) ==> RaisingOf(nodes, g, projectName).launch
    ensures (exists k :: k in nodes.keys && g.GraphDict? && k !in g.graph.entries) ==> RaisingOf(nodes, g, projectName).launch
  {
    Prompts.NodeListFails(nodes, g, projectName);
  }

  /** When the launch prompts raise, `spin` stops before reading any input
      and writes no file; the package is untouched while the launch file is
      still `None`. */
  lemma LaunchPromptsStop(s: PackState, seed: Seeds, raising: Raising, turns: seq<PackTurn>, wsName: string, projectName: Option<string>)
    requires raising.launch
    ensures var r := Stages(s, StageOrder, seed, raising, turns, wsName, projectName);
      var key := FileKey(projectName, LaunchFile);
      r.taken == 0 && r.end == Raised && r.state.written == s.written
      && (key !in s.package || s.package[key].None? ==> r.state == s)
  {
  }

  /** A stage whose prompts raise keeps the stages from finishing: its own
      file is never written and no later stage runs. */
  lemma {:induction false} RaisingStageStops(s: PackState, files: seq<PackageFile>, seed: Seeds, raising: Raising,
                                             turns: seq<PackTurn>, wsName: string, projectName: Option<string>, f: PackageFile)
    requires f in files && raising.For(f)
    ensures Stages(s, files, seed, raising, turns, wsName, projectName).end != Sentinel
    decreases |files|
  {
    var one := StageRun(s, files[0], seed.For(files[0]), raising.For(files[0]), turns, wsName, projectName);
    if one.end == Sentinel {
      assert files[0] != f;
      assert f in files[1..];
      RaisingStageStops(one.state, files[1..], seed, raising, turns[one.taken..], wsName, projectName, f);
    }
  }

  // ---------------------------------------------------------------------
  // the agent

  /** The pickled snapshot `pack_agent.pkl`. */
  datatype PackRecord = PackRecord(package: Package, dependencies: seq<string>, config: AgentConfig)

  class PackAgent {
    const config: AgentConfig
    const rosGraphDict: PyValue
    const rosNodeDesc: string
    const nodes: Gen.Nodes
    const projectName: Option<string>
    const wsName: string
    const endConvKeyword: string := PackKeyword
    var package: Package
    var dependencies: seq<string>
    /** The files `save_file` has written, as (path, content), in order. */
    var written: seq<(string, string)>

    /** A new agent: the four files not yet generated, no dependencies. */
    constructor (config: AgentConfig, rosGraphDict: PyValue, rosNodeDesc: string, nodes: Gen.Nodes,
                 projectName: Option<string>, wsName: string)
      ensures this.config == config && this.rosGraphDict == rosGraphDict && this.rosNodeDesc == rosNodeDesc
      ensures this.nodes == nodes && this.projectName == projectName && this.wsName == wsName
      ensures package == InitialPackage(projectName) && dependencies == [] && written == []
    {
      this.config := config;
      this.rosGraphDict := rosGraphDict;
      this.rosNodeDesc := rosNodeDesc;
      this.nodes := nodes;
      this.projectName := projectName;
      this.wsName := wsName;
      package := InitialPackage(projectName);
      dependencies := [];
      written := [];
    }

    function State(): PackState
      reads this`package, this`written
    {
      PackState(package, written)
    }

    /** The editing tool of `f`: generates while the file is `None`, edits
        afterwards, and overwrites only that file and only when the output
        parses. */
    method EditTool(f: PackageFile, llmOutput: string) returns (mode: PromptMode, msg: string)
      requires FileKey(projectName, f) in package
      modifies this`package
      ensures mode == ModeFor(old(package)[FileKey(projectName, f)])
      ensures package == EditStep(old(package), f, FileKey(projectName, f), llmOutput)
      ensures msg == EditFile(f, old(package)[FileKey(projectName, f)], llmOutput).1
    {
      var key := FileKey(projectName, f);
      var current := package[key];
      mode := ModeFor(current);
      var parsed := ParseCodeGen(llmOutput);
      if parsed.1 {
        package := package[key := Some(parsed.0.code)];
        msg := EditSuccessMsg(f);
      } else {
        package := package[key := current];
        msg := EditFailureMsg(f);
      }
    }

    /** `__call__` during the stage of `f`, whose file is under `key` and
        was put in the package by the stage's seeding call. */
    method Call(f: PackageFile, key: string, turn: PackTurn) returns (response: string)
      requires key in package
      modifies this`package
      ensures package == EditsStep(old(package), f, key, turn.edits)
      ensures response == turn.response
    {
      var outputs := turn.edits;
      var i := 0;
      while i < |outputs|
        invariant 0 <= i <= |outputs| && key in package
        invariant EditsStep(package, f, key, outputs[i..]) == EditsStep(old(package), f, key, outputs)
      {
        assert outputs[i..][1..] == outputs[i + 1..];
        package := EditStep(package, f, key, outputs[i]);
        i := i + 1;
      }
      response := turn.response;
    }

    /** The sentinel loop of the stage of `f`, whose file is under `key`,
        from turn `from` on. */
    method TalkAboutFile(f: PackageFile, key: string, turns: seq<PackTurn>, from: nat, kw: string) returns (taken: nat, end: End)
      requires from <= |turns| && key in package && kw != ""
      modifies this`package
      ensures var run := Talk(old(package), f, key, turns[from..], kw);
        taken == run.taken && end == run.end && package == run.state
    {
      ghost var total := Talk(package, f, key, turns[from..], kw);
      var response := "";
      taken := 0;
      while !Contains(response, kw)
        invariant from + taken <= |turns| && key in package
        invariant !Contains(response, kw) ==>
          var rest := Talk(package, f, key, turns[from + taken..], kw);
          total == Run(taken + rest.taken, rest.end, rest.state)
        invariant Contains(response, kw) ==> total == Run(taken, Sentinel, package)
        decreases |turns| - taken
      {
        if from + taken == |turns| {
          return taken, Exhausted;
        }
        assert turns[from + taken..][1..] == turns[from + taken + 1..];
        response := Call(f, key, turns[from + taken]);
        taken := taken + 1;
      }
      end := Sentinel;
    }

    /** `save_file`. */
    method SaveFile(key: string) returns (ok: bool)
      requires key in package
      modifies this`written
      ensures (State(), ok) == SaveFileStep(old(State()), wsName, projectName, key)
    {
      var path := SavePath(wsName, projectName, key);
      match package[key] {
        case None =>
          written := written + [(path, "")];
          ok := false;
        case Some(content) =>
          written := written + [(path, content)];
          ok := true;
      }
    }

    /** The stages whose prompts raise for this agent. */
    function Raises(): Raising {
      RaisingOf(nodes, rosGraphDict, projectName)
    }

    /** Renders the part of the prompts of the stage of `f` that reads the
        nodes and the graph, and tells whether that raised. */
    method RenderPrompts(f: PackageFile) returns (raises: bool)
      ensures raises == Raises().For(f)
    {
      match f {
        case LaunchFile =>
          var nodeList := Prompts.GetNodeList(nodes, rosGraphDict, projectName);
          raises := nodeList.Thrown?;
        case ReadmeFile =>
          var readmeInfo := Prompts.GetNodeReadmeInfo(nodes, rosGraphDict);
          raises := readmeInfo.Thrown?;
        case PackageXml =>
          raises := false;
        case CMakeLists =>
          raises := false;
      }
    }

    /** One stage: the `init_*` seeding call and the agent prompt, the
        conversation, then `save_file` of the stage's own key. */
    method Stage(f: PackageFile, seed: string, turns: seq<PackTurn>, from: nat) returns (taken: nat, end: End)
      requires from <= |turns|
      modifies this`package, this`written
      ensures var one := StageRun(old(State()), f, seed, Raises().For(f), turns[from..], wsName, projectName);
        taken == one.taken && end == one.end && State() == one.state
    {
      var key := FileKey(projectName, f);
      if key !in package {
        return 0, Raised;
      }
      var raises := RenderPrompts(f);
      if raises && package[key].None? {
        return 0, Raised;
      }
      var _, _ := EditTool(f, seed);
      if raises {
        return 0, Raised;
      }
      taken, end := TalkAboutFile(f, key, turns, from, endConvKeyword);
      if end == Sentinel {
        var ok := SaveFile(key);
        if !ok {
          end := Raised;
        }
      }
    }

    /** Stage `files[i]`, reading input from turn `taken` on, as part of
        the stages `files` whose overall outcome is `total`. */
    method NextStage(files: seq<PackageFile>, i: nat, seed: Seeds, turns: seq<PackTurn>, taken: nat,
                     ghost total: Run<PackState>) returns (t: nat, e: End)
      requires i < |files| && taken <= |turns|
      requires var rest := Stages(State(), files[i..], seed, Raises(), turns[taken..], wsName, projectName);
        total == Run(taken + rest.taken, rest.end, rest.state)
      modifies this`package, this`written
      ensures taken + t <= |turns|
      ensures e != Sentinel ==> total == Run(taken + t, e, State())
      ensures e == Sentinel ==>
        var rest := Stages(State(), files[i + 1..], seed, Raises(), turns[taken + t..], wsName, projectName);
        total == Run(taken + t + rest.taken, rest.end, rest.state)
    {
      ghost var before := State();
      var f := files[i];
      t, e := Stage(f, seed.For(f), turns, taken);
      StagesAdvance(total, before, files, i, seed, Raises(), turns, taken, wsName, projectName, t, e, State());
    }

    /** The four stages of `spin` one after the other, each reading input
        where the previous one stopped; `spin` runs them in `StageOrder`. */
    method RunStages(files: seq<PackageFile>, seed: Seeds, turns: seq<PackTurn>) returns (taken: nat, end: End)
      modifies this`package, this`written
      ensures var run := Stages(old(State()), files, seed, Raises(), turns, wsName, projectName);
        taken == run.taken && end == run.end && State() == run.state
    {
      ghost var total := Stages(State(), files, seed, Raises(), turns, wsName, projectName);
      taken := 0;
      var i := 0;
      assert files[i..] == files && turns[taken..] == turns;
      assert total == Run(taken + total.taken, total.end, total.state);
      assert var rest := Stages(State(), files[i..], seed, Raises(), turns[taken..], wsName, projectName);
          total == Run(taken + rest.taken, rest.end, rest.state);
      while i < |files|
        invariant 0 <= i <= |files| && taken <= |turns|
        invariant var rest := Stages(State(), files[i..], seed, Raises(), turns[taken..], wsName, projectName);
          total == Run(taken + rest.taken, rest.end, rest.state)
      {
        var t, e := NextStage(files, i, seed, turns, taken, total);
        taken := taken + t;
        if e != Sentinel {
          end := e;
          return;
        }
        i := i + 1;
      }
      assert Stages(State(), files[i..], seed, Raises(), turns[taken..], wsName, projectName) == Run(0, Sentinel, State()) by {
        assert files[i..] == [];
      }
      end := Sentinel;
    }

    /** The dependency loop of `spin`: extends the dependencies node by
        node and reports whether it got through every node. */
    method FindDependencies(findDeps: string -> Option<seq<string>>) returns (ok: bool)
      modifies this`dependencies
      ensures forall k :: k in nodes.keys ==> k in nodes.entries
      ensures ok == DepsOf(nodes, nodes.keys, findDeps).ok
      ensures dependencies == old(dependencies) + DepsOf(nodes, nodes.keys, findDeps).found
    {
      var keys := nodes.keys;
      assert forall k :: k in keys ==> k in nodes.entries;
      ghost var acc: seq<string> := [];
      var i := 0;
      while i < |keys|
        invariant 0 <= i <= |keys|
        invariant dependencies == old(dependencies) + acc
        invariant forall k :: k in keys[..i] ==> k in nodes.entries
        invariant DepsOf(nodes, keys[..i], findDeps) == Deps(acc, true)
      {
        DepsNext(nodes, keys, i, findDeps);
        var code := nodes.entries[keys[i]].code;
        if code != Rag {
          var found := findDeps(code);
          if found.None? {
            DepsStop(nodes, keys, i + 1, findDeps);
            return false;
          }
          AppendAssoc(old(dependencies), acc, found.value);
          dependencies := dependencies + found.value;
          acc := acc + found.value;
        }
        i := i + 1;
      }
      assert keys[..i] == keys;
      ok := true;
    }

    /** `save_agent`. */
    method SaveAgent() returns (record: PackRecord)
      ensures record == PackRecord(package, dependencies, config)
    {
      record := PackRecord(package, dependencies, config);
    }

    /** `spin`: the dependencies, then the launch file, package.xml,
        CMakeLists.txt and README.md stages one after the other, then one
        snapshot. */
    method Spin(findDeps: string -> Option<seq<string>>, seed: Seeds, turns: seq<PackTurn>)
      returns (taken: nat, end: End, record: Option<PackRecord>)
      modifies this`package, this`written, this`dependencies
      ensures forall k :: k in nodes.keys ==> k in nodes.entries
      ensures dependencies == old(dependencies) + DepsOf(nodes, nodes.keys, findDeps).found
      ensures !DepsOf(nodes, nodes.keys, findDeps).ok ==> taken == 0 && end == Raised && record == None && State() == old(State())
      ensures DepsOf(nodes, nodes.keys, findDeps).ok ==>
        var run := Stages(old(State()), StageOrder, seed, Raises(), turns, wsName, projectName);
        taken == run.taken && end == run.end && State() == run.state
        && (end == Sentinel ==> record == Some(PackRecord(package, dependencies, config)))
        && (end != Sentinel ==> record == None)
    {
      record := None;
      var ok := FindDependencies(findDeps);
      if !ok {
        taken, end := 0, Raised;
        return;
      }
      taken, end := RunStages(StageOrder, seed, turns);
      if end != Sentinel {
        return;
      }
      var saved := SaveAgent();
      record := Some(saved);
    }
  }

  /** `load_pack_agent`: graph and description from the specification
      snapshot, project, nodes and workspace from the generation snapshot,
      package and dependencies from the packaging snapshot. */
  method LoadPackAgent(packRecord: PackRecord, genRecord: Gen.GenRecord, specRecord: Spec.SpecRecord) returns (agent: PackAgent)
    ensures fresh(agent)
    ensures agent.config == packRecord.config
    ensures agent.rosGraphDict == specRecord.rosGraphDict && agent.rosNodeDesc == specRecord.rosNodeDesc
    ensures agent.projectName == genRecord.projectName && agent.nodes == genRecord.nodes && agent.wsName == genRecord.wsName
    ensures agent.package == packRecord.package && agent.dependencies == packRecord.dependencies && agent.written == []
  {
    var spec := Spec.LoadSpecAgent(specRecord);
    var gen := Gen.LoadGenAgent(genRecord, specRecord);
    agent := new PackAgent(packRecord.config, spec.rosGraph, spec.rosNodeDesc, gen.nodes, gen.projectName, gen.wsName);
    agent.package := packRecord.package;
    agent.dependencies := packRecord.dependencies;
  }
}
