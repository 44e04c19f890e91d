/** The file generators: the `setup.py` and `setup.cfg` texts of a ROS 2
    package, and the routing of the files a code-generation answer holds
    into the ROS workspace. */
module Generator {
  import opened Wrappers
  import opened Text
  import opened OrderedDict
  import opened GraphModel
  import opened Parser

  const RosWsName := "ros_ws"

  // ---------------------------------------------------------------------
  // make_setup_py

  const ScriptsOpen := "'console_scripts': ["

  /** The console-script entry of one node, without its separator. */
  function ScriptEntry(node: string, pkg: string): string {
    "'" + node + " = " + pkg + "." + node + ":main'"
  }

  /** The entries the loop appends, each followed by `", "`. */
  function Entries(keys: seq<string>, pkg: string): seq<string> {
    if keys == [] then [] else Entries(keys[..|keys| - 1], pkg) + [ScriptEntry(keys[|keys| - 1], pkg) + ", "]
  }

  /** One entry per node, in key order. */
  function Names(keys: seq<string>, pkg: string): (r: seq<string>)
    ensures |r| == |keys| && forall i :: 0 <= i < |keys| ==> r[i] == ScriptEntry(keys[i], pkg)
  {
    if keys == [] then [] else Names(keys[..|keys| - 1], pkg) + [ScriptEntry(keys[|keys| - 1], pkg)]
  }

  /** Python's `s[:-2]`. */
  function DropLastTwo(s: string): (r: string)
    ensures |s| >= 2 ==> r + s[|s| - 2..] == s
    ensures |s| < 2 ==> r == ""
  {
    if |s| >= 2 then s[..|s| - 2] else ""
  }

  /** The `console_scripts` text: the opening, every entry, the last two
      characters dropped, and the closing bracket. */
  function ConsoleScripts(keys: seq<string>, pkg: string): string {
    DropLastTwo(ScriptsOpen + Concat(Entries(keys, pkg))) + "]"
  }

  const SetupPyHead := "\nsetup.py\n```python\nfrom setuptools import setup\n\n"
  const SetupPyBody :=
    "\n\nsetup(\n name=package_name,\n version='0.0.1',\n packages=[package_name],\n data_files=[\n"
    + "     ('share/ament_index/resource_index/packages',\n             ['resource/' + package_name]),\n"
    + "     ('share/' + package_name, ['package.xml']),\n   ],\n install_requires=['setuptools'],\n"
    + " zip_safe=True,\n maintainer='TODO',\n maintainer_email='TODO',\n"
    + " description='TODO: Package description',\n license='TODO: License declaration',\n"
    + " tests_require=['pytest'],\n"
  const SetupPyTail := ",\n)\n```\n"

  /** The line of the template that names the package. */
  function PackageNameLine(pkg: string): string {
    "package_name = '" + pkg + "'"
  }

  /** The line of the template that holds the console scripts. */
  function EntryPointsLine(scripts: string): string {
    " entry_points=" + scripts
  }

  /** `SETUP_PY_TEMPLATE.format(package_name=..., console_scripts=...)`. */
  function SetupPyText(pkg: string, scripts: string): string {
    SetupPyHead + PackageNameLine(pkg) + SetupPyBody + (EntryPointsLine(scripts) + SetupPyTail)
  }

  /** `make_setup_py`. */
  method MakeSetupPy(d: NodeTopicDict, pkg: string) returns (setupPy: string)
    ensures setupPy == SetupPyText(pkg, ConsoleScripts(d.keys, pkg))
  {
    var scripts := ScriptsOpen;
    var i := 0;
    while i < |d.keys|
      invariant 0 <= i <= |d.keys|
      invariant scripts == ScriptsOpen + Concat(Entries(d.keys[..i], pkg))
    {
      var node := d.keys[i];
      assert d.keys[..i + 1][..i] == d.keys[..i];
      scripts := scripts + ("'" + node + " = " + pkg + "." + node + ":main', ");
      i := i + 1;
    }
    assert d.keys[..i] == d.keys;
    var n := |scripts|;
    scripts := scripts[..n - 2] + "]";
    setupPy := SetupPyText(pkg, scripts);
  }

  /** With entries, the appended separators collapse into the entries
      joined by `", "`. */
  lemma {:induction false} EntriesJoined(keys: seq<string>, pkg: string)
    requires keys != []
    ensures Concat(Entries(keys, pkg)) == JoinWith(Names(keys, pkg), ", ") + ", "
    decreases |keys|
  {
    var front := keys[..|keys| - 1];
    var e := ScriptEntry(keys[|keys| - 1], pkg);
    if front == [] {
      assert Entries(keys, pkg) == [e + ", "];
      assert Names(keys, pkg) == [e];
    } else {
      EntriesJoined(front, pkg);
      JoinSnoc(Names(front, pkg), e, ", ");
    }
  }

  /** With nodes, the scripts are the entries of all nodes, in key order,
      separated by `", "` and bracketed. */
  lemma ConsoleScriptsOfNodes(keys: seq<string>, pkg: string)
    requires keys != []
    ensures ConsoleScripts(keys, pkg) == ScriptsOpen + JoinWith(Names(keys, pkg), ", ") + "]"
  {
    EntriesJoined(keys, pkg);
    var j := JoinWith(Names(keys, pkg), ", ");
    var s := ScriptsOpen + Concat(Entries(keys, pkg));
    assert s == (ScriptsOpen + j) + ", ";
    assert DropLastTwo(s) == ScriptsOpen + j;
  }

  /** Without nodes the slice eats the space and the opening bracket. */
  lemma ConsoleScriptsOfNone(pkg: string)
    ensures ConsoleScripts([], pkg) == "'console_scripts':]"
  {
    assert Concat(Entries([], pkg)) == "";
    assert ScriptsOpen[..|ScriptsOpen| - 2] == "'console_scripts':";
  }

  /** The package name and the console scripts land in their template
      lines, and the text opens with the `setup.py` heading. */
  lemma SetupPyHolds(pkg: string, scripts: string)
    ensures OccursAt(SetupPyText(pkg, scripts), PackageNameLine(pkg), |SetupPyHead|)
    ensures OccursAt(SetupPyText(pkg, scripts), EntryPointsLine(scripts) + SetupPyTail,
                     |SetupPyHead + PackageNameLine(pkg) + SetupPyBody|)
    ensures OccursAt(SetupPyText(pkg, scripts), SetupPyHead, 0)
  {
    Placed(SetupPyHead, PackageNameLine(pkg), SetupPyBody, EntryPointsLine(scripts) + SetupPyTail);
  }

  // ---------------------------------------------------------------------
  // make_setup_cfg

  function ScriptDirLine(pkg: string): string {
    "script_dir=$base/lib/" + pkg + "\n"
  }

  function InstallScriptsLine(pkg: string): string {
    "install_scripts=$base/lib/" + pkg + "\n"
  }

  /** `make_setup_cfg`: `SETUP_CFG_TEMPLATE.format(package_name=...)`. */
  function SetupCfgText(pkg: string): string {
    "\nsetup.cfg\n```cfg\n[develop]\n" + ScriptDirLine(pkg) + "[install]\n" + InstallScriptsLine(pkg) + "```\n"
  }

  /** The package name is the last directory of both script lines. */
  lemma SetupCfgHolds(pkg: string)
    ensures Contains(SetupCfgText(pkg), "script_dir=$base/lib/" + pkg + "\n")
    ensures Contains(SetupCfgText(pkg), "install_scripts=$base/lib/" + pkg + "\n")
  {
    var head := "\nsetup.cfg\n```cfg\n[develop]\n";
    var t := SetupCfgText(pkg);
    OccursInMiddle(head, ScriptDirLine(pkg), "[install]\n" + InstallScriptsLine(pkg) + "```\n");
    assert t == head + ScriptDirLine(pkg) + ("[install]\n" + InstallScriptsLine(pkg) + "```\n");
    var front := head + ScriptDirLine(pkg) + "[install]\n";
    OccursInMiddle(front, InstallScriptsLine(pkg), "```\n");
    assert t == front + InstallScriptsLine(pkg) + "```\n";
  }

  // ---------------------------------------------------------------------
  // to_files

  /** What writing one file of the workspace does: write `code` at `path`,
      or report the invalid storage mode. */
  datatype FileAction = Write(path: string, code: string) | InvalidMode

  /** Where a mode sends the files: into a directory, nowhere (an
      implementation for an unknown ROS version), or to the error report. */
  datatype Route = Into(dir: string) | Nowhere | Invalid

  function PackageDir(project: string): string {
    RosWsName + "/src/" + project + "/"
  }

  function RouteOf(project: string, mode: string, rosVersion: string): (r: Route)
    ensures r.Into? ==> |PackageDir(project)| <= |r.dir| && r.dir[..|PackageDir(project)|] == PackageDir(project)
    ensures r.Invalid? <==> mode != "impl" && mode != "launch" && mode != "install"
    ensures r.Nowhere? <==> mode == "impl" && rosVersion != "ros1" && rosVersion != "ros2"
  {
    if mode == "impl" then
      if rosVersion == "ros1" then Into(PackageDir(project) + "src/")
      else if rosVersion == "ros2" then Into(PackageDir(project) + project + "/")
      else Nowhere
    else if mode == "launch" then Into(PackageDir(project) + "launch/")
    else if mode == "install" then Into(PackageDir(project))
    else Invalid
  }

  /** The matched blocks, each with its path cleaned. */
  function Blocks(matches: seq<CodeMatch>): (r: seq<(string, string)>)
    ensures |r| == |matches|
    ensures forall i :: 0 <= i < |matches| ==> r[i] == (SanitizePath(matches[i].fileName), matches[i].code)
  {
    if matches == [] then []
    else
      var m := matches[|matches| - 1];
      Blocks(matches[..|matches| - 1]) + [(SanitizePath(m.fileName), m.code)]
  }

  /** The files a chat yields: every block, then the README part. */
  function ChatFiles(chat: string, matches: seq<CodeMatch>): seq<(string, string)> {
    Blocks(matches) + [("README.md", ChatReadme(chat))]
  }

  /** The `workspace` dict: README entries skipped, a later file overwriting
      an earlier one of the same name. */
  function Workspace(files: seq<(string, string)>): Dict<string> {
    if files == [] then Empty()
    else
      var w := Workspace(files[..|files| - 1]);
      var f := files[|files| - 1];
      if f.0 == "README.md" then w else Set(w, f.0, f.1)
  }

  /** The actions for the workspace files `keys`, in order. */
  function Actions(keys: seq<string>, entries: map<string, string>, route: Route): seq<FileAction>
    requires forall k :: k in keys ==> k in entries
  {
    if keys == [] then []
    else
      var k := keys[|keys| - 1];
      Actions(keys[..|keys| - 1], entries, route)
        + match route
          case Into(dir) => [Write(dir + k, entries[k])]
          case Nowhere => []
          case Invalid => [InvalidMode]
  }

  /** `to_files`: the chat's files are collected into the workspace, then
      each workspace file is routed by the mode. */
  method ToFiles(chat: string, matches: seq<CodeMatch>, projectName: string, mode: string, rosVersion: string)
    returns (actions: seq<FileAction>)
    ensures var w := Workspace(ChatFiles(chat, matches));
      actions == Actions(w.keys, w.entries, RouteOf(projectName, mode, rosVersion))
  {
    var files := GetCodeFromChat(chat, matches);
    assert files == ChatFiles(chat, matches);
    var workspace := CollectWorkspace(files);
    actions := RouteFiles(workspace, projectName, mode, rosVersion);
  }

  /** The first loop of `to_files`. */
  method CollectWorkspace(files: seq<(string, string)>) returns (workspace: Dict<string>)
    ensures workspace == Workspace(files)
  {
    workspace := Empty();
    var i := 0;
    while i < |files|
      invariant 0 <= i <= |files|
      invariant workspace == Workspace(files[..i])
    {
      assert files[..i + 1][..i] == files[..i];
      var (fileName, code) := files[i];
      if fileName != "README.md" {
        workspace := Set(workspace, fileName, code);
      }
      i := i + 1;
    }
    assert files[..i] == files;
  }

  /** The second loop of `to_files`: one action per workspace file. */
  method RouteFiles(workspace: Dict<string>, projectName: string, mode: string, rosVersion: string) returns (actions: seq<FileAction>)
    ensures actions == Actions(workspace.keys, workspace.entries, RouteOf(projectName, mode, rosVersion))
  {
    ghost var route := RouteOf(projectName, mode, rosVersion);
    actions := [];
    var j := 0;
    while j < |workspace.keys|
      invariant 0 <= j <= |workspace.keys|
      invariant actions == Actions(workspace.keys[..j], workspace.entries, route)
    {
      var filename := workspace.keys[j];
      assert workspace.keys[..j + 1][..j] == workspace.keys[..j];
      var code := workspace.entries[filename];
      if mode == "impl" {
        if rosVersion == "ros1" {
          PathsAgree(projectName, "src/", filename);
          actions := actions + [Write(RosWsName + "/src/" + projectName + "/src/" + filename, code)];
        } else if rosVersion == "ros2" {
          PathsAgree(projectName, projectName + "/", filename);
          actions := actions + [Write(RosWsName + "/src/" + projectName + "/" + projectName + "/" + filename, code)];
        }
      } else if mode == "launch" {
        PathsAgree(projectName, "launch/", filename);
        actions := actions + [Write(RosWsName + "/src/" + projectName + "/launch/" + filename, code)];
      } else if mode == "install" {
        PathsAgree(projectName, "", filename);
        actions := actions + [Write(RosWsName + "/src/" + projectName + "/" + filename, code)];
      } else {
        actions := actions + [InvalidMode];
      }
      j := j + 1;
    }
    assert workspace.keys[..j] == workspace.keys;
  }

  lemma PathsAgree(project: string, sub: string, name: string)
    ensures RosWsName + "/src/" + project + "/" + sub + name == PackageDir(project) + sub + name
    ensures RosWsName + "/src/" + project + "/src/" + name == PackageDir(project) + "src/" + name
    ensures RosWsName + "/src/" + project + "/launch/" + name == PackageDir(project) + "launch/" + name
    ensures RosWsName + "/src/" + project + "/" + name == PackageDir(project) + name
  {
    assert "/src/" == "/" + "src/";
    assert "/launch/" == "/" + "launch/";
  }

  /** The workspace holds exactly the names of the files other than
      `README.md`. */
  lemma {:induction false} WorkspaceKeys(files: seq<(string, string)>, k: string)
    ensures k in Workspace(files).entries <==> k != "README.md" && exists i :: 0 <= i < |files| && files[i].0 == k
    decreases |files|
  {
    if files != [] {
      var front := files[..|files| - 1];
      WorkspaceKeys(front, k);
      if (exists i :: 0 <= i < |front| && front[i].0 == k) {
        var i :| 0 <= i < |front| && front[i].0 == k;
        assert files[i].0 == k;
      }
      if (exists i :: 0 <= i < |files| && files[i].0 == k) && files[|files| - 1].0 != k {
        var i :| 0 <= i < |files| && files[i].0 == k;
        assert front[i].0 == k;
      }
    }
  }

  /** A name keeps the code of its last occurrence among the files. */
  lemma {:induction false} WorkspaceLastWins(files: seq<(string, string)>, i: nat)
    requires i < |files| && files[i].0 != "README.md"
    requires forall j :: i < j < |files| ==> files[j].0 != files[i].0
    ensures files[i].0 in Workspace(files).entries && Workspace(files).entries[files[i].0] == files[i].1
    decreases |files|
  {
    var front := files[..|files| - 1];
    if i < |front| {
      assert front[i] == files[i];
      forall j | i < j < |front| ensures front[j].0 != front[i].0 {
        assert files[j] == front[j];
      }
      WorkspaceLastWins(front, i);
    }
  }

  /** Each mode sends every workspace file, in order, to the same place:
      a directory under the package, nowhere, or the error report. */
  lemma {:induction false} ActionsFollowRoute(keys: seq<string>, entries: map<string, string>, route: Route)
    requires forall k :: k in keys ==> k in entries
    ensures route.Into? ==> |Actions(keys, entries, route)| == |keys|
    ensures route.Into? ==> forall i :: 0 <= i < |keys| ==> Actions(keys, entries, route)[i] == Write(route.dir + keys[i], entries[keys[i]])
    ensures route.Nowhere? ==> Actions(keys, entries, route) == []
    ensures route.Invalid? ==> Actions(keys, entries, route) == seq(|keys|, _ => InvalidMode)
    decreases |keys|
  {
    if keys != [] {
      ActionsFollowRoute(keys[..|keys| - 1], entries, route);
    }
  }

  /** The `i`-th workspace file is written under `src/` for a ROS 1
      implementation, under the directory named after the package for a
      ROS 2 one, under `launch/` for launch files and at the package root
      for install files. */
  lemma RoutesByMode(keys: seq<string>, entries: map<string, string>, project: string, mode: string, rosVersion: string, i: nat)
    requires forall k :: k in keys ==> k in entries
    requires i < |keys|
    ensures var a := Actions(keys, entries, RouteOf(project, mode, rosVersion));
      var w := entries[keys[i]];
      (mode == "impl" && rosVersion == "ros1" ==> |a| == |keys| && a[i] == Write(PackageDir(project) + "src/" + keys[i], w))
      && (mode == "impl" && rosVersion == "ros2" ==> |a| == |keys| && a[i] == Write(PackageDir(project) + project + "/" + keys[i], w))
      && (mode == "launch" ==> |a| == |keys| && a[i] == Write(PackageDir(project) + "launch/" + keys[i], w))
      && (mode == "install" ==> |a| == |keys| && a[i] == Write(PackageDir(project) + keys[i], w))
  {
    ActionsFollowRoute(keys, entries, RouteOf(project, mode, rosVersion));
  }
}
